/**
 Levelled diagnostics with the operations of the apis library that the webhook uses: `Also` collects, `At` relabels
 everything collected so far, `Filter` keeps one level. A nil error is `None`. A request is refused when
 filtering its diagnostics by the error level leaves something.
 */
module FieldErrors {
  import opened Wrappers

  datatype Level = ErrorLevel | WarningLevel

  datatype FieldError = FieldError(
    message: string,
    paths: seq<string>,
    level: Level,
    details: string,
    errors: seq<FieldError>)

  const HOLLOW := FieldError("", [], ErrorLevel, "", [])

  predicate Solid(e: FieldError) { e.message != "" || e.details != "" || e.paths != [] }

  predicate IsEmpty(o: Option<FieldError>) { o.Some? ==> !Solid(o.value) && o.value.errors == [] }

  function Also(o: Option<FieldError>, e: Option<FieldError>): Option<FieldError> {
    if IsEmpty(e) then o else
    var base := if IsEmpty(o) then HOLLOW else o.value;
    Some(base.(errors := base.errors + [e.value]))
  }

  function AtLevel(e: FieldError, l: Level): FieldError {
    AtChildren(e.(level := l, errors := []), e.errors, l)
  }

  function AtChildren(e: FieldError, children: seq<FieldError>, l: Level): FieldError
    decreases children
  {
    if children == [] then e else
    var extended := Also(Some(e), Some(AtLevel(children[0], l)));
    AtChildren(extended.value, children[1..], l)
  }

  function At(o: Option<FieldError>, l: Level): Option<FieldError> {
    if o.None? then None else Some(AtLevel(o.value, l))
  }

  function FilterOne(e: FieldError, l: Level): Option<FieldError> {
    var kept := FilterChildren(Some(if e.level == l then e.(errors := []) else HOLLOW), e.errors, l);
    if IsEmpty(kept) then None else kept
  }

  function FilterChildren(o: Option<FieldError>, children: seq<FieldError>, l: Level): Option<FieldError>
    decreases children
  {
    if children == [] then o else FilterChildren(Also(o, FilterOne(children[0], l)), children[1..], l)
  }

  function Filter(o: Option<FieldError>, l: Level): Option<FieldError> {
    if o.None? then None else FilterOne(o.value, l)
  }

  // ---------- what is held ----------

  /** Somewhere in the collection is a diagnostic of the level. */
  predicate Has(e: FieldError, l: Level) {
    (Solid(e) && e.level == l) || exists i | 0 <= i < |e.errors| :: Has(e.errors[i], l)
  }

  predicate AnyHas(errors: seq<FieldError>, l: Level) { exists i | 0 <= i < |errors| :: Has(errors[i], l) }

  predicate Holds(o: Option<FieldError>, l: Level) { o.Some? && Has(o.value, l) }

  lemma AnyHasMore(errors: seq<FieldError>, e: FieldError, l: Level)
    ensures AnyHas(errors + [e], l) <==> AnyHas(errors, l) || Has(e, l)
  {
    var more := errors + [e];
    if AnyHas(errors, l) {
      var i :| 0 <= i < |errors| && Has(errors[i], l);
      assert Has(more[i], l);
    }
    if Has(e, l) {
      assert Has(more[|errors|], l);
    }
  }

  lemma AlsoHolds(o: Option<FieldError>, e: Option<FieldError>, l: Level)
    ensures Holds(Also(o, e), l) <==> Holds(o, l) || Holds(e, l)
  {
    if !IsEmpty(e) {
      var base := if IsEmpty(o) then HOLLOW else o.value;
      AnyHasMore(base.errors, e.value, l);
      assert Holds(Also(o, e), l) <==> (Solid(base) && base.level == l) || AnyHas(base.errors + [e.value], l);
    }
  }

  lemma {:induction false} AtHas(e: FieldError, l: Level, l': Level)
    ensures Has(AtLevel(e, l), l') <==> l == l' && (Has(e, ErrorLevel) || Has(e, WarningLevel))
    decreases e, 1
  {
    AtChildrenHas(e.(level := l, errors := []), e.errors, l, l');
    assert Has(e, ErrorLevel) || Has(e, WarningLevel) <==>
      Solid(e) || AnyHas(e.errors, ErrorLevel) || AnyHas(e.errors, WarningLevel);
  }

  lemma {:induction false} AtChildrenHas(e: FieldError, children: seq<FieldError>, l: Level, l': Level)
    ensures Has(AtChildren(e, children, l), l') <==>
      Has(e, l') || (l == l' && (AnyHas(children, ErrorLevel) || AnyHas(children, WarningLevel)))
    decreases children, 0
  {
    if children != [] {
      var first := AtLevel(children[0], l);
      var extended := Also(Some(e), Some(first));
      AtHas(children[0], l, l');
      AlsoHolds(Some(e), Some(first), l');
      AtChildrenHas(extended.value, children[1..], l, l');
      FirstOrRest(children, ErrorLevel);
      FirstOrRest(children, WarningLevel);
    }
  }

  lemma FirstOrRest(children: seq<FieldError>, l: Level)
    requires children != []
    ensures AnyHas(children, l) <==> Has(children[0], l) || AnyHas(children[1..], l)
  {
  }

  /** Relabelling moves every diagnostic to the new level and leaves none at another. */
  lemma AtHolds(o: Option<FieldError>, l: Level, l': Level)
    ensures Holds(At(o, l), l') <==> l == l' && (Holds(o, ErrorLevel) || Holds(o, WarningLevel))
  {
    if o.Some? {
      AtHas(o.value, l, l');
    }
  }

  lemma {:induction false} FilterOneHas(e: FieldError, l: Level)
    ensures FilterOne(e, l).Some? <==> Has(e, l)
    ensures FilterOne(e, l).Some? ==> !IsEmpty(FilterOne(e, l))
    decreases e, 1
  {
    FilterChildrenHas(Some(if e.level == l then e.(errors := []) else HOLLOW), e.errors, l);
    assert Has(e, l) <==> (Solid(e) && e.level == l) || AnyHas(e.errors, l);
  }

  lemma {:induction false} FilterChildrenHas(o: Option<FieldError>, children: seq<FieldError>, l: Level)
    ensures !IsEmpty(FilterChildren(o, children, l)) <==> !IsEmpty(o) || AnyHas(children, l)
    decreases children, 0
  {
    if children != [] {
      FilterOneHas(children[0], l);
      FilterChildrenHas(Also(o, FilterOne(children[0], l)), children[1..], l);
      FirstOrRest(children, l);
    }
  }

  /** Filtering by a level leaves something exactly if a diagnostic of that level is held. */
  lemma FilterHolds(o: Option<FieldError>, l: Level)
    ensures Filter(o, l).Some? <==> Holds(o, l)
  {
    if o.Some? {
      FilterOneHas(o.value, l);
    }
  }

  // ---------- which messages are held ----------

  predicate Says(e: FieldError, message: string) {
    (Solid(e) && e.message == message) || exists i | 0 <= i < |e.errors| :: Says(e.errors[i], message)
  }

  predicate AnySays(errors: seq<FieldError>, message: string) {
    exists i | 0 <= i < |errors| :: Says(errors[i], message)
  }

  predicate Mentions(o: Option<FieldError>, message: string) { o.Some? && Says(o.value, message) }

  lemma AlsoMentions(o: Option<FieldError>, e: Option<FieldError>, message: string)
    ensures Mentions(Also(o, e), message) <==> Mentions(o, message) || Mentions(e, message)
  {
    if !IsEmpty(e) {
      var base := if IsEmpty(o) then HOLLOW else o.value;
      var more := base.errors + [e.value];
      if AnySays(base.errors, message) {
        var i :| 0 <= i < |base.errors| && Says(base.errors[i], message);
        assert Says(more[i], message);
      }
      assert more[|base.errors|] == e.value;
      assert Mentions(Also(o, e), message) <==> (Solid(base) && base.message == message) || AnySays(more, message);
    }
  }

  lemma {:induction false} AtSays(e: FieldError, l: Level, message: string)
    ensures Says(AtLevel(e, l), message) <==> Says(e, message)
    decreases e, 1
  {
    AtChildrenSays(e.(level := l, errors := []), e.errors, l, message);
    assert Says(e, message) <==> (Solid(e) && e.message == message) || AnySays(e.errors, message);
  }

  lemma {:induction false} AtChildrenSays(e: FieldError, children: seq<FieldError>, l: Level, message: string)
    ensures Says(AtChildren(e, children, l), message) <==> Says(e, message) || AnySays(children, message)
    decreases children, 0
  {
    if children != [] {
      var first := AtLevel(children[0], l);
      AtSays(children[0], l, message);
      AlsoMentions(Some(e), Some(first), message);
      AtChildrenSays(Also(Some(e), Some(first)).value, children[1..], l, message);
      assert children == [children[0]] + children[1..];
      assert AnySays(children, message) <==> Says(children[0], message) || AnySays(children[1..], message) by {
        if AnySays(children[1..], message) {
          var i :| 0 <= i < |children| - 1 && Says(children[1..][i], message);
          assert Says(children[i + 1], message);
        }
      }
    }
  }

  lemma AtMentions(o: Option<FieldError>, l: Level, message: string)
    ensures Mentions(At(o, l), message) <==> Mentions(o, message)
  {
    if o.Some? {
      AtSays(o.value, l, message);
    }
  }
}
