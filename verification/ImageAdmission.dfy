/** The verdict on one image. */
module ImageAdmission {
  import opened Wrappers
  import opened FieldErrors
  import opened ErrorFolding
  import opened Schedules
  import opened Admission
  import opened PolicyFanIn

  ghost predicate DistinctPolicies(policies: seq<Policy>) {
    forall i, j :: 0 <= i < j < |policies| ==> policies[i].name != policies[j].name
  }

  /** One inner schedule per policy, and an outer one over the policies. */
  ghost predicate AreSchedules(policies: seq<Policy>, inner: seq<Schedule>, outer: Schedule) {
    && |inner| == |policies| && IsSchedule(outer, |policies|)
    && (forall i | 0 <= i < |policies| :: IsSchedule(inner[i], |policies[i].outcomes|))
  }

  /** The policy's result arrived, and it is a failure with a diagnostic counted as an error (or as a warning). */
  ghost predicate Objects(p: Policy, inner: Schedule) { !Satisfied(p, inner) && Blamed(p, inner) }

  ghost predicate Advises(p: Policy, inner: Schedule) { !Satisfied(p, inner) && Cautioned(p, inner) }

  ghost predicate SomeObjects(policies: seq<Policy>, inner: seq<Schedule>, outer: Schedule)
    requires |inner| == |policies|
  {
    exists i | 0 <= i < |policies| :: Arrived(outer, i) && Objects(policies[i], inner[i])
  }

  ghost predicate SomeAdvises(policies: seq<Policy>, inner: seq<Schedule>, outer: Schedule)
    requires |inner| == |policies|
  {
    exists i | 0 <= i < |policies| :: Arrived(outer, i) && Advises(policies[i], inner[i])
  }

  ghost predicate Judges(v: Verdict, p: Policy, inner: Schedule) {
    && (v.result.Some? <==> Satisfied(p, inner))
    && (v.result.Some? ==> v.result.value == Collected(p.outcomes, inner))
    && (AnyBlames(v.errors) <==> Blamed(p, inner))
    && (AnyCautions(v.errors) <==> Cautioned(p, inner))
  }

  /** The goroutines of the policies. */
  method JudgeAll(policies: seq<Policy>, inner: seq<Schedule>) returns (names: seq<string>, verdicts: seq<Verdict>)
    requires |inner| == |policies| && forall i | 0 <= i < |policies| :: IsSchedule(inner[i], |policies[i].outcomes|)
    ensures |names| == |verdicts| == |policies|
    ensures forall i | 0 <= i < |policies| :: names[i] == policies[i].name && Judges(verdicts[i], policies[i], inner[i])
  {
    names, verdicts := [], [];
    for i := 0 to |policies|
      invariant |names| == |verdicts| == i
      invariant forall j | 0 <= j < i :: names[j] == policies[j].name && Judges(verdicts[j], policies[j], inner[j])
    {
      var result, errors := ValidatePolicy(policies[i], inner[i]);
      names, verdicts := names + [policies[i].name], verdicts + [Verdict(result, errors)];
    }
  }

  /** All policies: who is satisfied, and the levels of what is reported, are decided by what was received. */
  method ValidatePolicies(policies: seq<Policy>, inner: seq<Schedule>, outer: Schedule)
    returns (satisfied: Satisfactions, failing: Failures)
    requires DistinctPolicies(policies) && AreSchedules(policies, inner, outer)
    ensures forall i | 0 <= i < |policies| ::
      policies[i].name in satisfied <==> Arrived(outer, i) && Satisfied(policies[i], inner[i])
    ensures (exists k :: k in failing && AnyBlames(failing[k])) <==> SomeObjects(policies, inner, outer)
    ensures (exists k :: k in failing && AnyCautions(failing[k])) <==> SomeAdvises(policies, inner, outer)
  {
    var names, verdicts := JudgeAll(policies, inner);
    satisfied, failing := CollectPolicies(names, verdicts, outer);
    ghost var got := Received(outer, |names|);
    forall i | 0 <= i < |policies| ensures
      && (names[i] in satisfied <==> Arrived(outer, i) && Satisfied(policies[i], inner[i]))
      && Judges(verdicts[i], policies[i], inner[i])
    {
      assert Records(satisfied, failing, names[i], i in got, verdicts[i]);
    }
    LevelsCollected(names, verdicts, got, satisfied, failing);
    SomeLevels(policies, inner, outer, verdicts);
  }

  lemma SomeLevels(policies: seq<Policy>, inner: seq<Schedule>, outer: Schedule, verdicts: seq<Verdict>)
    requires |policies| == |inner| == |verdicts|
    requires forall i | 0 <= i < |policies| :: Judges(verdicts[i], policies[i], inner[i])
    ensures SomeObjects(policies, inner, outer) <==>
      exists i | 0 <= i < |policies| ::
        i in Received(outer, |policies|) && verdicts[i].result.None? && AnyBlames(verdicts[i].errors)
    ensures SomeAdvises(policies, inner, outer) <==>
      exists i | 0 <= i < |policies| ::
        i in Received(outer, |policies|) && verdicts[i].result.None? && AnyCautions(verdicts[i].errors)
  {
  }

  // ---------- the image ----------

  /**
   Parsing the reference, and what the stored configuration yields for it: `None` when no configuration is attached.
   */
  datatype Lookup =
    | Unparsable(error: string)
    | NoConfiguration
    | LookupFailed(error: string)
    | Matching(policies: seq<Policy>)

  const ALLOW_ALL := "allow"
  const DENY_ALL := "deny"
  const WARN_ALL := "warn"

  /** What an image that no policy matches gets: anything but "allow" and "warn" refuses it. */
  method SetNoMatchingPoliciesError(noMatchPolicy: Option<string>, image: string, path: string)
    returns (r: Option<FieldError>)
    ensures Holds(r, ErrorLevel) <==> noMatchPolicy != Some(ALLOW_ALL) && noMatchPolicy != Some(WARN_ALL)
    ensures Holds(r, WarningLevel) <==> noMatchPolicy == Some(WARN_ALL)
  {
    r := Some(FieldError("no matching policies", [path], ErrorLevel, image, []));
    AtHolds(r, WarningLevel, ErrorLevel);
    AtHolds(r, WarningLevel, WarningLevel);
    match noMatchPolicy
    case None =>
    case Some(behaviour) =>
      if behaviour == ALLOW_ALL {
        r := None;
      } else if behaviour == DENY_ALL {
      } else if behaviour == WARN_ALL {
        r := At(r, WarningLevel);
      }
  }

  ghost predicate Refused(lookup: Lookup, noMatchPolicy: Option<string>, inner: seq<Schedule>, outer: Schedule)
    requires lookup.Matching? ==> |inner| == |lookup.policies|
  {
    match lookup
    case Unparsable(_) => true
    case NoConfiguration => false
    case LookupFailed(_) => true
    case Matching(policies) =>
      if policies == [] then noMatchPolicy != Some(ALLOW_ALL) && noMatchPolicy != Some(WARN_ALL)
      else SomeObjects(policies, inner, outer)
  }

  ghost predicate Warned(lookup: Lookup, noMatchPolicy: Option<string>, inner: seq<Schedule>, outer: Schedule)
    requires lookup.Matching? ==> |inner| == |lookup.policies|
  {
    lookup.Matching? &&
    if lookup.policies == [] then noMatchPolicy == Some(WARN_ALL) else SomeAdvises(lookup.policies, inner, outer)
  }

  /** The diagnostics of one image, for every schedule and every order in which failures are walked. */
  method ValidateContainerImage(image: string, path: string, lookup: Lookup, noMatchPolicy: Option<string>,
                                inner: seq<Schedule>, outer: Schedule, walk: Failures -> seq<string>)
    returns (r: Option<FieldError>)
    requires lookup.Matching? ==> DistinctPolicies(lookup.policies) && AreSchedules(lookup.policies, inner, outer)
    requires forall failing :: IsOrderOf(walk(failing), failing)
    ensures Holds(r, ErrorLevel) <==> Refused(lookup, noMatchPolicy, inner, outer)
    ensures Holds(r, WarningLevel) <==> Warned(lookup, noMatchPolicy, inner, outer)
  {
    match lookup
    case Unparsable(error) => r := Some(FieldError(error, [path], ErrorLevel, "", []));
    case NoConfiguration => r := None;
    case LookupFailed(error) => r := Some(FieldError(error, [path], ErrorLevel, image, []));
    case Matching(policies) =>
      if policies == [] {
        r := SetNoMatchingPoliciesError(noMatchPolicy, image, path);
      } else {
        var satisfied, failing := ValidatePolicies(policies, inner, outer);
        r := ErrorsToFieldErrors(image, path, failing, walk(failing));
      }
  }

  // ---------- the declarative meaning ----------

  /** Authority names are distinct, so that no match replaces another. */
  ghost predicate DistinctAuthorities(p: Policy) {
    forall a, b :: 0 <= a < b < |p.outcomes| ==> p.outcomes[a].name != p.outcomes[b].name
  }

  /** All authorities that pass, by name. */
  function Matches(p: Policy): map<string, Evidence>
    requires DistinctAuthorities(p)
  {
    map i | 0 <= i < |p.outcomes| && Passing(p.outcomes[i]) :: p.outcomes[i].name := MatchOf(p.outcomes[i])
  }

  /** Some authority passes, and the policy-level check passes on all that do. */
  ghost predicate Meets(p: Policy) {
    && DistinctAuthorities(p)
    && (exists i | 0 <= i < |p.outcomes| :: Passing(p.outcomes[i]))
    && CheckPasses(p, Matches(p))
  }

  /** What is collected does not depend on the order of arrival. */
  lemma CollectedIsMatches(p: Policy, schedule: Schedule)
    requires DistinctAuthorities(p) && IsSchedule(schedule, |p.outcomes|) && Undisturbed(schedule)
    ensures Collected(p.outcomes, schedule) == Matches(p)
    ensures Satisfied(p, schedule) <==> Meets(p)
  {
    var collected := Collected(p.outcomes, schedule);
    forall i | 0 <= i < |p.outcomes| ensures Arrived(schedule, i) {
      EverythingArrives(schedule, |p.outcomes|, i);
    }
    forall k ensures k in collected <==> k in Matches(p) {
      CollectedKeys(p.outcomes, schedule, k);
    }
    forall i | 0 <= i < |p.outcomes| && Passing(p.outcomes[i])
      ensures p.outcomes[i].name in collected && collected[p.outcomes[i].name] == MatchOf(p.outcomes[i])
    {
      CollectedValues(p.outcomes, schedule, i);
    }
  }

  ghost predicate AnyPasses(p: Policy) { exists i | 0 <= i < |p.outcomes| :: Passing(p.outcomes[i]) }

  /** An authority errs with the text, or the policy-level check on what passes gives it. */
  ghost predicate Gripes(p: Policy, text: string)
    requires DistinctAuthorities(p)
  {
    || (exists i | 0 <= i < |p.outcomes| :: p.outcomes[i].error == Some(text))
    || (AnyPasses(p) && p.check.Some? && text in CheckTexts(p.check.value(Matches(p))))
  }

  /**
   Fails without a levelled diagnostic: no authority errs, and if one passes, the matches could not be written as JSON.
   */
  ghost predicate Mute(p: Policy)
    requires DistinctAuthorities(p)
  {
    && (forall i | 0 <= i < |p.outcomes| :: p.outcomes[i].error.None?)
    && (AnyPasses(p) ==> p.check.Some? && p.check.value(Matches(p)).NoJson?)
  }

  lemma ComplaintsAreGripes(p: Policy, schedule: Schedule, text: string)
    requires DistinctAuthorities(p) && IsSchedule(schedule, |p.outcomes|) && Undisturbed(schedule)
    ensures Complains(p, schedule, text) <==> Gripes(p, text)
  {
    CollectedIsMatches(p, schedule);
    forall i | 0 <= i < |p.outcomes| ensures Arrived(schedule, i) {
      EverythingArrives(schedule, |p.outcomes|, i);
    }
  }

  /** A policy that is not met is mute, or has something to say. */
  lemma MuteIff(p: Policy)
    requires DistinctAuthorities(p) && !Meets(p)
    ensures Mute(p) <==> forall text :: !Gripes(p, text)
  {
    if !Mute(p) {
      if i :| 0 <= i < |p.outcomes| && p.outcomes[i].error.Some? {
        assert Gripes(p, p.outcomes[i].error.value);
      } else {
        var c := p.check.value(Matches(p));
        assert Gripes(p, CheckTexts(c)[0]);
      }
    }
  }

  /** Only an empty text makes a policy in warn mode object: the level of an empty diagnostic is not seen. */
  ghost predicate Blocks(p: Policy)
    requires DistinctAuthorities(p)
  {
    !Meets(p) && !Mute(p) && (p.mode != "warn" || Gripes(p, ""))
  }

  ghost predicate Warns(p: Policy)
    requires DistinctAuthorities(p)
  {
    !Meets(p) && p.mode == "warn" && exists text :: text != "" && Gripes(p, text)
  }

  lemma ObjectsIffBlocks(p: Policy, schedule: Schedule)
    requires DistinctAuthorities(p) && IsSchedule(schedule, |p.outcomes|) && Undisturbed(schedule)
    ensures Objects(p, schedule) <==> Blocks(p)
    ensures Advises(p, schedule) <==> Warns(p)
  {
    CollectedIsMatches(p, schedule);
    forall text ensures Complains(p, schedule, text) <==> Gripes(p, text) {
      ComplaintsAreGripes(p, schedule, text);
    }
    if !Meets(p) {
      MuteIff(p);
    }
  }

  ghost predicate AllDistinct(policies: seq<Policy>) {
    forall i | 0 <= i < |policies| :: DistinctAuthorities(policies[i])
  }

  /**
   The end-to-end verdict. Whatever the order of arrival and of walking the failures, without cancellation and with
   distinct authority names, an image is refused exactly if some matching policy is not met, is not mute, and is not in
   warn mode or gives an empty text; and warned exactly if one in warn mode is not met and gives a text.
   */
  lemma RefusedExactly(policies: seq<Policy>, noMatchPolicy: Option<string>, inner: seq<Schedule>, outer: Schedule)
    requires policies != [] && AreSchedules(policies, inner, outer) && AllDistinct(policies)
    requires Undisturbed(outer) && forall i | 0 <= i < |policies| :: Undisturbed(inner[i])
    ensures Refused(Matching(policies), noMatchPolicy, inner, outer) <==>
      exists i | 0 <= i < |policies| :: Blocks(policies[i])
    ensures Warned(Matching(policies), noMatchPolicy, inner, outer) <==>
      exists i | 0 <= i < |policies| :: Warns(policies[i])
  {
    forall i | 0 <= i < |policies| ensures
      && Arrived(outer, i)
      && (Objects(policies[i], inner[i]) <==> Blocks(policies[i]))
      && (Advises(policies[i], inner[i]) <==> Warns(policies[i]))
    {
      EverythingArrives(outer, |policies|, i);
      ObjectsIffBlocks(policies[i], inner[i]);
    }
  }

  /** There are authorities, each passes or errs, no text is empty, and matches can be written as JSON. */
  ghost predicate Regular(p: Policy) {
    && DistinctAuthorities(p) && p.outcomes != []
    && (forall i | 0 <= i < |p.outcomes| ::
         Passing(p.outcomes[i]) || (p.outcomes[i].error.Some? && p.outcomes[i].error.value != ""))
    && (p.check.Some? ==> forall m :: var c := p.check.value(m); !c.NoJson? && "" !in CheckTexts(c))
  }

  lemma RegularSpeaks(p: Policy)
    requires Regular(p)
    ensures Blocks(p) <==> !Meets(p) && p.mode != "warn"
    ensures Warns(p) <==> !Meets(p) && p.mode == "warn"
  {
    assert !Gripes(p, "");
    if !Meets(p) {
      MuteIff(p);
      if !AnyPasses(p) {
        assert p.outcomes[0].error.Some?;
      }
    }
  }

  /** For regular policies: refused exactly if one that is not in warn mode is not met. */
  lemma RefusedIffUnmet(policies: seq<Policy>, noMatchPolicy: Option<string>, inner: seq<Schedule>, outer: Schedule)
    requires policies != [] && AreSchedules(policies, inner, outer) && Undisturbed(outer)
    requires forall i | 0 <= i < |policies| :: Regular(policies[i]) && Undisturbed(inner[i])
    ensures Refused(Matching(policies), noMatchPolicy, inner, outer) <==>
      exists i | 0 <= i < |policies| :: !Meets(policies[i]) && policies[i].mode != "warn"
    ensures Warned(Matching(policies), noMatchPolicy, inner, outer) <==>
      exists i | 0 <= i < |policies| :: !Meets(policies[i]) && policies[i].mode == "warn"
  {
    RefusedExactly(policies, noMatchPolicy, inner, outer);
    forall i | 0 <= i < |policies| ensures
      && (Blocks(policies[i]) <==> !Meets(policies[i]) && policies[i].mode != "warn")
      && (Warns(policies[i]) <==> !Meets(policies[i]) && policies[i].mode == "warn")
    {
      RegularSpeaks(policies[i]);
    }
  }

  // ---------- failures that leave no diagnostic ----------

  /**
   A policy that fails without a levelled diagnostic: nothing received erred, and nothing passed or the JSON failed.
   */
  lemma SilentIff(p: Policy, schedule: Schedule)
    requires IsSchedule(schedule, |p.outcomes|)
    ensures !Satisfied(p, schedule) && !Objects(p, schedule) && !Advises(p, schedule) <==>
      && (forall i | 0 <= i < |p.outcomes| :: Arrived(schedule, i) ==> p.outcomes[i].error.None?)
      && (SomePasses(p, schedule) ==> p.check.Some? && p.check.value(Collected(p.outcomes, schedule)).NoJson?)
  {
    forall i | 0 <= i < |p.outcomes| && Arrived(schedule, i) && p.outcomes[i].error.Some?
      ensures Complains(p, schedule, p.outcomes[i].error.value)
    {
    }
    if SomePasses(p, schedule) && p.check.Some? {
      var c := p.check.value(Collected(p.outcomes, schedule));
      assert CheckTexts(c) != [] ==> Complains(p, schedule, CheckTexts(c)[0]);
    }
  }

  /**
   Cancellation before any policy reports: every image with matching policies is let through, whatever they require.
   */
  lemma CancelledImageIsAdmitted(policies: seq<Policy>, noMatchPolicy: Option<string>, inner: seq<Schedule>,
                                 outer: Schedule)
    requires policies != [] && AreSchedules(policies, inner, outer) && forall r :: r in outer ==> r.None?
    ensures !Refused(Matching(policies), noMatchPolicy, inner, outer)
    ensures !Warned(Matching(policies), noMatchPolicy, inner, outer)
  {
  }

  /** A policy without authorities is never met, and never stands in the way. */
  lemma PolicyWithoutAuthorities(name: string, mode: string, noMatchPolicy: Option<string>)
    ensures var p := Policy(name, mode, [], None);
      && !Meets(p)
      && AreSchedules([p], [[]], [Some(0)])
      && !Refused(Matching([p]), noMatchPolicy, [[]], [Some(0)])
      && !Warned(Matching([p]), noMatchPolicy, [[]], [Some(0)])
  {
  }
}
