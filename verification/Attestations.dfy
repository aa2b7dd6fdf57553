/** The attestations an authority asks for, against those that were verified. */
module Attestations {
  import opened Wrappers

  datatype Wanted = Wanted(name: string, predicateType: string, policyType: string, data: string)

  /** A verified attestation; its digest may be unreadable. */
  datatype Verified = Verified(digest: Option<string>, content: string)

  /** The payload for a predicate type: an error, nothing (the attestation is of another type), or the payload text. */
  datatype Payload = Payload(text: Option<string>, gotType: string, error: Option<string>)

  datatype Evaluation = Evaluation(warning: Option<string>, error: Option<string>)

  datatype Library = Library(payload: (string, Verified) -> Payload, evaluate: (Wanted, string) -> Evaluation)

  datatype Checked = Checked(attestation: Verified, predicateType: string, payload: string, digest: string)

  datatype AttestationError =
    | NoneVerified
    | Stashed(text: string)
    | NoMatch(predicateType: string, checkedTypes: set<string>)

  // ---------- one pair ----------

  predicate Passes(lib: Library, w: Wanted, text: string) {
    w.policyType != "" ==> lib.evaluate(w, text) == Evaluation(None, None)
  }

  predicate Accepts(lib: Library, w: Wanted, va: Verified) {
    var p := lib.payload(w.predicateType, va);
    va.digest.Some? && p.error.None? && p.text.Some? && Passes(lib, w, p.text.value)
  }

  /**
   The error that a verified attestation gives rise to, if any; an error of the evaluation comes before its warning.
   */
  function Problem(lib: Library, w: Wanted, va: Verified): Option<string> {
    var p := lib.payload(w.predicateType, va);
    if va.digest.None? then None
    else if p.error.Some? then p.error
    else if p.text.None? || Passes(lib, w, p.text.value) then None
    else var e := lib.evaluate(w, p.text.value); if e.error.Some? then e.error else e.warning
  }

  /** The payload could be had, and its evaluation, if one is asked for, gives neither an error nor a warning. */
  predicate Suits(lib: Library, w: Wanted, p: Payload) {
    && p.error.None? && p.text.Some?
    && (w.policyType == "" ||
        (lib.evaluate(w, p.text.value).error.None? && lib.evaluate(w, p.text.value).warning.None?))
  }

  lemma AcceptedSuits(lib: Library, wanted: seq<Wanted>, verified: seq<Verified>)
    ensures forall i, j | 0 <= i < |wanted| && 0 <= j < |verified| ::
      Accepts(lib, wanted[i], verified[j]) <==>
        verified[j].digest.Some? && Suits(lib, wanted[i], lib.payload(wanted[i].predicateType, verified[j]))
  {
  }

  /** A problem is the error in getting the payload, else that of the evaluation, else its warning. */
  lemma ProblemIs(lib: Library, w: Wanted, va: Verified, text: string)
    ensures var p := lib.payload(w.predicateType, va);
      Problem(lib, w, va) == Some(text) <==>
        && va.digest.Some?
        && (|| p.error == Some(text)
            || (p.error.None? && p.text.Some? && w.policyType != "" &&
                var e := lib.evaluate(w, p.text.value);
                e.error == Some(text) || (e.error.None? && e.warning == Some(text))))
  {
  }

  predicate SomeAccepted(lib: Library, w: Wanted, verified: seq<Verified>) {
    exists i | 0 <= i < |verified| :: Accepts(lib, w, verified[i])
  }

  function AsChecked(lib: Library, w: Wanted, va: Verified): Checked
    requires Accepts(lib, w, va)
  {
    Checked(va, w.predicateType, lib.payload(w.predicateType, va).text.value, va.digest.value)
  }

  /** The accepted attestations, in the order in which they were verified. */
  function AllAccepted(lib: Library, w: Wanted, verified: seq<Verified>): seq<Checked> {
    if verified == [] then [] else
    var va := verified[|verified| - 1];
    AllAccepted(lib, w, verified[..|verified| - 1]) + if Accepts(lib, w, va) then [AsChecked(lib, w, va)] else []
  }

  lemma {:induction false} AcceptedSome(lib: Library, w: Wanted, verified: seq<Verified>)
    ensures AllAccepted(lib, w, verified) != [] <==> SomeAccepted(lib, w, verified)
  {
    if verified != [] {
      var init := verified[..|verified| - 1];
      AcceptedSome(lib, w, init);
      assert forall i | 0 <= i < |init| :: init[i] == verified[i];
      if SomeAccepted(lib, w, verified) && !SomeAccepted(lib, w, init) {
        assert Accepts(lib, w, verified[|verified| - 1]);
      }
    }
  }

  /** The first problem, in the order in which the attestations were verified. */
  ghost predicate IsFirstProblem(lib: Library, w: Wanted, verified: seq<Verified>, e: Option<string>) {
    match e
    case None => forall i | 0 <= i < |verified| :: Problem(lib, w, verified[i]).None?
    case Some(_) => exists i | 0 <= i < |verified| ::
      Problem(lib, w, verified[i]) == e && forall j | 0 <= j < i :: Problem(lib, w, verified[j]).None?
  }

  ghost predicate SeenType(lib: Library, w: Wanted, verified: seq<Verified>, t: string) {
    t != "" && exists i | 0 <= i < |verified| ::
      verified[i].digest.Some? && lib.payload(w.predicateType, verified[i]).gotType == t
  }

  // ---------- the loops ----------

  /** The inner loop, over the verified attestations. */
  method CheckOne(lib: Library, w: Wanted, verified: seq<Verified>, types: set<string>)
    returns (checked: seq<Checked>, retError: Option<string>, types': set<string>)
    ensures checked == AllAccepted(lib, w, verified)
    ensures IsFirstProblem(lib, w, verified, retError)
    ensures forall t :: t in types' <==> t in types || SeenType(lib, w, verified, t)
  {
    checked, retError, types' := [], None, types;
    for i := 0 to |verified|
      invariant checked == AllAccepted(lib, w, verified[..i])
      invariant IsFirstProblem(lib, w, verified[..i], retError)
      invariant forall t :: t in types' <==> t in types || SeenType(lib, w, verified[..i], t)
    {
      var va := verified[i];
      assert verified[..i + 1] == verified[..i] + [va];
      OneMoreProblem(lib, w, verified[..i], va, retError);
      forall t ensures SeenType(lib, w, verified[..i + 1], t) <==>
        SeenType(lib, w, verified[..i], t) ||
          (t != "" && va.digest.Some? && lib.payload(w.predicateType, va).gotType == t)
      {
        OneMoreType(lib, w, verified[..i], va, t);
      }
      if va.digest.None? {
        continue;
      }
      var payload := lib.payload(w.predicateType, va);
      if payload.gotType != "" {
        types' := types' + {payload.gotType};
      }
      if payload.error.Some? {
        if retError.None? {
          retError := payload.error;
        }
        continue;
      }
      if payload.text.None? {
        continue;
      }
      if w.policyType != "" {
        var e := lib.evaluate(w, payload.text.value);
        if e.error.Some? || e.warning.Some? {
          if retError.None? {
            retError := e.error;
            if e.error.None? {
              retError := e.warning;
            }
          }
          continue;
        }
      }
      checked := checked + [Checked(va, w.predicateType, payload.text.value, va.digest.value)];
    }
    assert verified[..|verified|] == verified;
  }

  lemma OneMoreProblem(lib: Library, w: Wanted, verified: seq<Verified>, va: Verified, e: Option<string>)
    requires IsFirstProblem(lib, w, verified, e)
    ensures IsFirstProblem(lib, w, verified + [va], if e.Some? then e else Problem(lib, w, va))
  {
    var more := verified + [va];
    assert forall i | 0 <= i < |verified| :: more[i] == verified[i];
    assert more[|verified|] == va;
  }

  lemma OneMoreType(lib: Library, w: Wanted, verified: seq<Verified>, va: Verified, t: string)
    ensures SeenType(lib, w, verified + [va], t) <==>
      SeenType(lib, w, verified, t) || (t != "" && va.digest.Some? && lib.payload(w.predicateType, va).gotType == t)
  {
    var more := verified + [va];
    assert forall i | 0 <= i < |verified| :: more[i] == verified[i];
    assert more[|verified|] == va;
  }

  /** What is returned: for each name, the attestations accepted for the last request under it. */
  function Found(lib: Library, wanted: seq<Wanted>, verified: seq<Verified>): map<string, seq<Checked>> {
    if wanted == [] then map[] else
    var w := wanted[|wanted| - 1];
    Found(lib, wanted[..|wanted| - 1], verified)[w.name := AllAccepted(lib, w, verified)]
  }

  lemma FoundNext(lib: Library, wanted: seq<Wanted>, verified: seq<Verified>, i: nat)
    requires i < |wanted|
    ensures Found(lib, wanted[..i + 1], verified) ==
      Found(lib, wanted[..i], verified)[wanted[i].name := AllAccepted(lib, wanted[i], verified)]
  {
    assert wanted[..i + 1][..i] == wanted[..i];
  }

  ghost predicate Returns(lib: Library, wanted: seq<Wanted>, verified: seq<Verified>,
                          found: map<string, seq<Checked>>) {
    && (forall k :: k in found <==> exists i | 0 <= i < |wanted| :: wanted[i].name == k)
    && (forall i | 0 <= i < |wanted| :: (forall j | i < j < |wanted| :: wanted[j].name != wanted[i].name) ==>
          wanted[i].name in found && found[wanted[i].name] == AllAccepted(lib, wanted[i], verified))
  }

  /** The error is that of the first request which nothing satisfies. */
  ghost predicate Explains(lib: Library, wanted: seq<Wanted>, verified: seq<Verified>, e: AttestationError) {
    exists i | 0 <= i < |wanted| ::
      && !SomeAccepted(lib, wanted[i], verified)
      && (forall j | 0 <= j < i :: SomeAccepted(lib, wanted[j], verified))
      && match e
         case NoneVerified => false
         case Stashed(text) => IsFirstProblem(lib, wanted[i], verified, Some(text))
         case NoMatch(predicateType, types) =>
           && predicateType == wanted[i].predicateType
           && IsFirstProblem(lib, wanted[i], verified, None)
           && TypesSeen(lib, wanted, verified, i + 1, types)
  }

  /** The predicate types met while checking the first n requests. */
  ghost predicate TypesSeen(lib: Library, wanted: seq<Wanted>, verified: seq<Verified>, n: nat, types: set<string>)
    requires n <= |wanted|
  {
    forall t :: t in types <==> exists j | 0 <= j < n :: SeenType(lib, wanted[j], verified, t)
  }

  lemma TypesSeenNext(lib: Library, wanted: seq<Wanted>, verified: seq<Verified>, n: nat, types: set<string>,
                      types': set<string>)
    requires n < |wanted| && TypesSeen(lib, wanted, verified, n, types)
    requires forall t :: t in types' <==> t in types || SeenType(lib, wanted[n], verified, t)
    ensures TypesSeen(lib, wanted, verified, n + 1, types')
  {
  }

  lemma FailureExplained(lib: Library, wanted: seq<Wanted>, verified: seq<Verified>, i: nat, e: Option<string>,
                         types: set<string>)
    requires i < |wanted| && !SomeAccepted(lib, wanted[i], verified) && IsFirstProblem(lib, wanted[i], verified, e)
    requires forall j | 0 <= j < i :: SomeAccepted(lib, wanted[j], verified)
    requires TypesSeen(lib, wanted, verified, i + 1, types)
    ensures Explains(lib, wanted, verified,
                     if e.Some? then Stashed(e.value) else NoMatch(wanted[i].predicateType, types))
  {
  }

  /**
   Given verified attestations, the check succeeds exactly if every request has an acceptable one. On failure the error
   is the first problem met for the first unsatisfied request, or, if there was none, that nothing matched.
   */
  method CheckAttestations(lib: Library, wanted: seq<Wanted>, verified: seq<Verified>)
    returns (r: Result<map<string, seq<Checked>>, AttestationError>)
    ensures verified == [] ==> r == Err(NoneVerified)
    ensures verified != [] ==>
      (r.Ok? <==>
         forall i | 0 <= i < |wanted| :: exists j | 0 <= j < |verified| ::
           verified[j].digest.Some? && Suits(lib, wanted[i], lib.payload(wanted[i].predicateType, verified[j])))
    ensures r.Ok? ==> Returns(lib, wanted, verified, r.value)
    ensures verified != [] && r.Err? ==> Explains(lib, wanted, verified, r.error)
  {
    if verified == [] {
      return Err(NoneVerified);
    }
    AcceptedSuits(lib, wanted, verified);
    var found: map<string, seq<Checked>>, types := map[], {};
    for i := 0 to |wanted|
      invariant forall j | 0 <= j < i :: SomeAccepted(lib, wanted[j], verified)
      invariant found == Found(lib, wanted[..i], verified)
      invariant TypesSeen(lib, wanted, verified, i, types)
    {
      var checked, retError, types' := CheckOne(lib, wanted[i], verified, types);
      AcceptedSome(lib, wanted[i], verified);
      TypesSeenNext(lib, wanted, verified, i, types, types');
      types := types';
      if checked == [] {
        FailureExplained(lib, wanted, verified, i, retError, types);
        if retError.Some? {
          return Err(Stashed(retError.value));
        }
        return Err(NoMatch(wanted[i].predicateType, types));
      }
      FoundNext(lib, wanted, verified, i);
      found := found[wanted[i].name := checked];
    }
    assert wanted[..|wanted|] == wanted;
    FoundReturns(lib, wanted, verified);
    return Ok(found);
  }

  lemma {:induction false} FoundKeys(lib: Library, wanted: seq<Wanted>, verified: seq<Verified>, k: string)
    ensures k in Found(lib, wanted, verified) <==> exists i | 0 <= i < |wanted| :: wanted[i].name == k
  {
    if wanted != [] {
      FoundKeys(lib, wanted[..|wanted| - 1], verified, k);
    }
  }

  lemma {:induction false} FoundLast(lib: Library, wanted: seq<Wanted>, verified: seq<Verified>, i: nat)
    requires i < |wanted| && forall j | i < j < |wanted| :: wanted[j].name != wanted[i].name
    ensures wanted[i].name in Found(lib, wanted, verified)
    ensures Found(lib, wanted, verified)[wanted[i].name] == AllAccepted(lib, wanted[i], verified)
  {
    if i < |wanted| - 1 {
      FoundLast(lib, wanted[..|wanted| - 1], verified, i);
    }
  }

  lemma FoundReturns(lib: Library, wanted: seq<Wanted>, verified: seq<Verified>)
    ensures Returns(lib, wanted, verified, Found(lib, wanted, verified))
  {
    forall k ensures k in Found(lib, wanted, verified) <==> exists i | 0 <= i < |wanted| :: wanted[i].name == k {
      FoundKeys(lib, wanted, verified, k);
    }
    forall i | 0 <= i < |wanted| && (forall j | i < j < |wanted| :: wanted[j].name != wanted[i].name)
      ensures wanted[i].name in Found(lib, wanted, verified)
      ensures Found(lib, wanted, verified)[wanted[i].name] == AllAccepted(lib, wanted[i], verified)
    {
      FoundLast(lib, wanted, verified, i);
    }
  }
}
