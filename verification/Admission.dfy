/**
 The admission decision for one image: authorities are checked concurrently within each matching policy and policies
 concurrently for the image. Results arrive in any order and any receive may find the context cancelled.
 */
module Admission {
  import opened Wrappers
  import opened FieldErrors
  import opened ErrorFolding
  import opened Schedules

  // ---------- one policy ----------

  datatype Evidence = Evidence(signatures: seq<string>, attestations: map<string, seq<string>>, isStatic: bool)

  /** What the goroutine of one authority sends. */
  datatype Outcome = Outcome(name: string, error: Option<string>, evidence: Evidence)

  /** The policy-level check on the authorities that matched: passed, refused, or not carried out. */
  datatype CheckResult =
    | Pass
    | ConfigFiles(error: string, more: seq<string>)
    | NoJson(error: string)
    | Refused(error: string)

  datatype Policy = Policy(
    name: string,
    mode: string,
    outcomes: seq<Outcome>,
    check: Option<map<string, Evidence> -> CheckResult>)

  predicate Passing(o: Outcome) {
    o.error.None? && (o.evidence.signatures != [] || o.evidence.attestations != map[] || o.evidence.isStatic)
  }

  function MatchOf(o: Outcome): Evidence {
    if o.evidence.signatures != [] then Evidence(o.evidence.signatures, map[], false)
    else if o.evidence.attestations != map[] then Evidence([], o.evidence.attestations, false)
    else Evidence([], map[], true)
  }

  function AsFieldError(warn: bool, text: string): PolicyError {
    Field(FieldError(text, [], if warn then WarningLevel else ErrorLevel, "", []))
  }

  function CheckTexts(c: CheckResult): seq<string> {
    match c
    case ConfigFiles(error, more) => [error] + more
    case Refused(error) => [error]
    case _ => []
  }

  /**
   The authority matches as the receives build them up; a later authority of the same name replaces an earlier one.
   */
  function Collected(outcomes: seq<Outcome>, schedule: Schedule): map<string, Evidence> {
    if schedule == [] then map[] else
    var before := Collected(outcomes, schedule[..|schedule| - 1]);
    match schedule[|schedule| - 1]
    case None => before
    case Some(i) =>
      if i < |outcomes| && Passing(outcomes[i]) then before[outcomes[i].name := MatchOf(outcomes[i])] else before
  }

  predicate SomePasses(p: Policy, schedule: Schedule) {
    exists i | 0 <= i < |p.outcomes| :: Arrived(schedule, i) && Passing(p.outcomes[i])
  }

  predicate CheckPasses(p: Policy, matches: map<string, Evidence>) { p.check.Some? ==> p.check.value(matches) == Pass }

  /** Some authority passed and the policy-level check, if there is one, passed on those that did. */
  predicate Satisfied(p: Policy, schedule: Schedule) {
    SomePasses(p, schedule) && CheckPasses(p, Collected(p.outcomes, schedule))
  }

  /** A text that the policy reports as a levelled diagnostic. */
  ghost predicate Complains(p: Policy, schedule: Schedule, text: string) {
    || (exists i | 0 <= i < |p.outcomes| :: Arrived(schedule, i) && p.outcomes[i].error == Some(text))
    || (SomePasses(p, schedule) && p.check.Some? && text in CheckTexts(p.check.value(Collected(p.outcomes, schedule))))
  }

  lemma {:induction false} CollectedKeys(outcomes: seq<Outcome>, schedule: Schedule, k: string)
    requires forall v :: Some(v) in schedule ==> v < |outcomes|
    ensures k in Collected(outcomes, schedule) <==>
      exists i | 0 <= i < |outcomes| :: Arrived(schedule, i) && Passing(outcomes[i]) && outcomes[i].name == k
  {
    if schedule != [] {
      var init, last := schedule[..|schedule| - 1], schedule[|schedule| - 1];
      assert schedule == init + [last];
      CollectedKeys(outcomes, init, k);
      if k in Collected(outcomes, init) {
        var i :| 0 <= i < |outcomes| && Arrived(init, i) && Passing(outcomes[i]) && outcomes[i].name == k;
        assert Arrived(schedule, i);
      }
      if last.Some? {
        assert Arrived(schedule, last.value);
      }
    }
  }

  lemma {:induction false} CollectedValues(outcomes: seq<Outcome>, schedule: Schedule, i: nat)
    requires forall v :: Some(v) in schedule ==> v < |outcomes|
    requires forall a, b :: 0 <= a < b < |outcomes| ==> outcomes[a].name != outcomes[b].name
    requires i < |outcomes| && Arrived(schedule, i) && Passing(outcomes[i])
    ensures outcomes[i].name in Collected(outcomes, schedule)
    ensures Collected(outcomes, schedule)[outcomes[i].name] == MatchOf(outcomes[i])
  {
    var init, last := schedule[..|schedule| - 1], schedule[|schedule| - 1];
    assert schedule == init + [last];
    if Arrived(init, i) {
      CollectedValues(outcomes, init, i);
    }
  }

  /** The receive loop: matches and errors after the first k receives. */
  method Collect(p: Policy, schedule: Schedule) returns (matches: map<string, Evidence>, errors: seq<PolicyError>)
    requires IsSchedule(schedule, |p.outcomes|)
    ensures matches == Collected(p.outcomes, schedule)
    ensures forall e :: e in errors && e.Field? ==>
      exists i | 0 <= i < |p.outcomes| :: Arrived(schedule, i) && p.outcomes[i].error.Some? &&
        e == AsFieldError(p.mode == "warn", p.outcomes[i].error.value)
    ensures forall i | 0 <= i < |p.outcomes| ::
      Arrived(schedule, i) && p.outcomes[i].error.Some? ==>
        AsFieldError(p.mode == "warn", p.outcomes[i].error.value) in errors
  {
    matches, errors := map[], [];
    for k := 0 to |schedule|
      invariant matches == Collected(p.outcomes, schedule[..k])
      invariant forall e :: e in errors && e.Field? ==>
        exists i | 0 <= i < |p.outcomes| :: Arrived(schedule[..k], i) && p.outcomes[i].error.Some? &&
          e == AsFieldError(p.mode == "warn", p.outcomes[i].error.value)
      invariant forall i | 0 <= i < |p.outcomes| ::
        Arrived(schedule[..k], i) && p.outcomes[i].error.Some? ==>
          AsFieldError(p.mode == "warn", p.outcomes[i].error.value) in errors
    {
      assert schedule[..k + 1] == schedule[..k] + [schedule[k]];
      assert schedule[..k + 1][..k] == schedule[..k];
      match schedule[k]
      case None => errors := errors + [Plain("context was canceled before validation completed")];
      case Some(r) =>
        assert Arrived(schedule[..k + 1], r);
        var result := p.outcomes[r];
        if result.error.Some? {
          errors := errors + [AsFieldError(p.mode == "warn", result.error.value)];
        } else if result.evidence.signatures != [] {
          matches := matches[result.name := Evidence(result.evidence.signatures, map[], false)];
        } else if result.evidence.attestations != map[] {
          matches := matches[result.name := Evidence([], result.evidence.attestations, false)];
        } else if result.evidence.isStatic {
          matches := matches[result.name := Evidence([], map[], true)];
        } else {
          errors := errors + [Plain("failed to process authority: " + result.name)];
        }
    }
    assert schedule[..|schedule|] == schedule;
  }

  /** A text counted as an error, and one counted as a warning: an empty text is never seen as a warning. */
  ghost predicate Blamed(p: Policy, schedule: Schedule) {
    exists text :: Complains(p, schedule, text) && (p.mode != "warn" || text == "")
  }

  ghost predicate Cautioned(p: Policy, schedule: Schedule) {
    exists text :: Complains(p, schedule, text) && p.mode == "warn" && text != ""
  }

  /** The error is a complaint of the policy, at the policy's level. */
  ghost predicate Voices(p: Policy, schedule: Schedule, warn: bool, e: PolicyError) {
    exists text :: Complains(p, schedule, text) && e == AsFieldError(warn, text)
  }

  lemma ComplaintsKind(p: Policy, schedule: Schedule, warn: bool, errors: seq<PolicyError>)
    requires warn <==> p.mode == "warn"
    requires forall e :: e in errors && e.Field? ==> Voices(p, schedule, warn, e)
    requires forall text :: Complains(p, schedule, text) ==> AsFieldError(warn, text) in errors
    ensures AnyBlames(errors) <==> Blamed(p, schedule)
    ensures AnyCautions(errors) <==> Cautioned(p, schedule)
  {
  }

  method CheckErrors(warn: bool, texts: seq<string>) returns (errors: seq<PolicyError>)
    ensures |errors| == |texts| && forall i | 0 <= i < |texts| :: errors[i] == AsFieldError(warn, texts[i])
  {
    errors := [];
    for i := 0 to |texts|
      invariant |errors| == i && forall j | 0 <= j < i :: errors[j] == AsFieldError(warn, texts[j])
    {
      errors := errors + [AsFieldError(warn, texts[i])];
    }
  }

  /**
   One policy: passes exactly if satisfied by what was received, and otherwise returns the complaints at its level.
   */
  method ValidatePolicy(p: Policy, schedule: Schedule)
    returns (result: Option<map<string, Evidence>>, errors: seq<PolicyError>)
    requires IsSchedule(schedule, |p.outcomes|)
    ensures result.Some? <==> Satisfied(p, schedule)
    ensures result.Some? ==> result.value == Collected(p.outcomes, schedule) && result.value != map[]
    ensures result.Some? && p.check.Some? ==> p.check.value(result.value) == Pass
    ensures result.None? && Collected(p.outcomes, schedule) != map[] ==>
      p.check.Some? && p.check.value(Collected(p.outcomes, schedule)) != Pass
    ensures AnyBlames(errors) <==> Blamed(p, schedule)
    ensures AnyCautions(errors) <==> Cautioned(p, schedule)
  {
    var warn := p.mode == "warn";
    var matches, collected := Collect(p, schedule);
    errors := collected;
    result := None;
    CollectedSome(p, schedule);
    forall e | e in collected && e.Field? ensures Voices(p, schedule, warn, e) {
      var i :| 0 <= i < |p.outcomes| && Arrived(schedule, i) && p.outcomes[i].error.Some? &&
        e == AsFieldError(warn, p.outcomes[i].error.value);
      assert Complains(p, schedule, p.outcomes[i].error.value);
    }
    if matches != map[] {
      result := Some(matches);
      if p.check.Some? {
        var outcome := p.check.value(matches);
        if !outcome.Pass? {
          var texts := CheckTexts(outcome);
          var failed := CheckErrors(warn, texts);
          forall e | e in failed ensures Voices(p, schedule, warn, e) {
            var i :| 0 <= i < |failed| && failed[i] == e;
            assert Complains(p, schedule, texts[i]);
          }
          forall text | text in texts ensures AsFieldError(warn, text) in failed {
            var i :| 0 <= i < |texts| && texts[i] == text;
            assert failed[i] in failed;
          }
          errors := collected + failed + (if outcome.NoJson? then [Plain(outcome.error)] else []);
          result := None;
        }
      }
    }
    ComplaintsKind(p, schedule, warn, errors);
  }

  lemma CollectedSome(p: Policy, schedule: Schedule)
    requires IsSchedule(schedule, |p.outcomes|)
    ensures Collected(p.outcomes, schedule) != map[] <==> SomePasses(p, schedule)
  {
    if SomePasses(p, schedule) {
      var i :| 0 <= i < |p.outcomes| && Arrived(schedule, i) && Passing(p.outcomes[i]);
      CollectedKeys(p.outcomes, schedule, p.outcomes[i].name);
    }
    if Collected(p.outcomes, schedule) != map[] {
      var k :| k in Collected(p.outcomes, schedule);
      CollectedKeys(p.outcomes, schedule, k);
    }
  }
}
