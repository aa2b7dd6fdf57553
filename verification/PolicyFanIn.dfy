/** The receive loop over the policies that match one image. */
module PolicyFanIn {
  import opened Wrappers
  import opened ErrorFolding
  import opened Schedules
  import opened Admission

  const INTERNAL := "internalerror"

  /** What the goroutine of one policy sends. */
  datatype Verdict = Verdict(result: Option<map<string, Evidence>>, errors: seq<PolicyError>)

  type Satisfactions = map<string, map<string, Evidence>>
  type Failures = map<string, seq<PolicyError>>

  function Reported(v: Verdict, name: string): seq<PolicyError> {
    if v.errors != [] then v.errors else [Plain("failed to process policy: " + name)]
  }

  function ErrorsOf(failing: Failures, name: string): seq<PolicyError> { if name in failing then failing[name] else [] }

  ghost predicate Distinct(names: seq<string>) { forall i, j :: 0 <= i < j < |names| ==> names[i] != names[j] }

  /** The levels found under a name are those of the policy's own verdict, once it arrives and fails. */
  ghost predicate SameLevels(errors: seq<PolicyError>, failed: bool, v: Verdict) {
    && (AnyBlames(errors) <==> failed && AnyBlames(v.errors))
    && (AnyCautions(errors) <==> failed && AnyCautions(v.errors))
  }

  /**
   What the maps hold under a policy's name: nothing before its verdict arrives, and then the verdict, on one side only.
   Under the name that cancellations use, plain errors may stand beside those of the policy.
   */
  ghost predicate Records(satisfied: Satisfactions, failing: Failures, name: string, arrived: bool, v: Verdict) {
    && (name in satisfied <==> arrived && v.result.Some?)
    && (name in satisfied ==> satisfied[name] == v.result.value)
    && SameLevels(ErrorsOf(failing, name), arrived && v.result.None?, v)
    && (name != INTERNAL ==> ErrorsOf(failing, name) == if arrived && v.result.None? then Reported(v, name) else [])
  }

  /** Nothing stands under other names, and only plain errors under that of the cancellations. */
  ghost predicate Tidy(names: seq<string>, satisfied: Satisfactions, failing: Failures) {
    && (forall k :: k in satisfied ==> k in names)
    && (forall k :: k in failing ==> k in names || k == INTERNAL)
    && (forall k :: k in failing ==> failing[k] != [])
    && (INTERNAL !in names ==> forall e :: e in ErrorsOf(failing, INTERNAL) ==> e.Plain?)
  }

  /** The verdicts of `got`, and no others, are recorded, each under its own name. */
  ghost predicate Faithful(names: seq<string>, verdicts: seq<Verdict>, got: set<nat>, satisfied: Satisfactions,
                           failing: Failures)
    requires |names| == |verdicts|
  {
    && Tidy(names, satisfied, failing)
    && (forall i | 0 <= i < |names| :: Records(satisfied, failing, names[i], i in got, verdicts[i]))
  }

  /** Satisfied policies, named failures and internal errors. */
  function Total(satisfied: Satisfactions, failing: Failures): nat {
    |satisfied.Keys| + |failing.Keys - {INTERNAL}| + |ErrorsOf(failing, INTERNAL)|
  }

  lemma LevelsOfSum(a: seq<PolicyError>, b: seq<PolicyError>)
    ensures AnyBlames(a + b) <==> AnyBlames(a) || AnyBlames(b)
    ensures AnyCautions(a + b) <==> AnyCautions(a) || AnyCautions(b)
  {
    forall i | 0 <= i < |b| ensures (a + b)[|a| + i] == b[i] {}
    forall i | 0 <= i < |a| ensures (a + b)[i] == a[i] {}
  }

  lemma LevelsReported(v: Verdict, name: string)
    ensures SameLevels(Reported(v, name), true, v)
  {
  }

  lemma CancellationTallied(names: seq<string>, verdicts: seq<Verdict>, got: set<nat>, satisfied: Satisfactions,
                            failing: Failures, e: PolicyError)
    requires |names| == |verdicts| && e.Plain?
    requires Faithful(names, verdicts, got, satisfied, failing)
    ensures Faithful(names, verdicts, got, satisfied, failing[INTERNAL := ErrorsOf(failing, INTERNAL) + [e]])
  {
    var failing' := failing[INTERNAL := ErrorsOf(failing, INTERNAL) + [e]];
    LevelsOfSum(ErrorsOf(failing, INTERNAL), [e]);
    forall i | 0 <= i < |names| ensures Records(satisfied, failing', names[i], i in got, verdicts[i]) {
      assert Records(satisfied, failing, names[i], i in got, verdicts[i]);
    }
  }

  lemma SuccessTallied(names: seq<string>, verdicts: seq<Verdict>, got: set<nat>, satisfied: Satisfactions,
                       failing: Failures, i: nat)
    requires |names| == |verdicts| && Distinct(names)
    requires i < |names| && i !in got && verdicts[i].result.Some?
    requires Faithful(names, verdicts, got, satisfied, failing)
    ensures names[i] !in satisfied
    ensures Faithful(names, verdicts, got + {i}, satisfied[names[i] := verdicts[i].result.value], failing)
  {
    assert Records(satisfied, failing, names[i], i in got, verdicts[i]);
  }

  lemma FailureRecorded(satisfied: Satisfactions, failing: Failures, name: string, v: Verdict)
    requires v.result.None? && Records(satisfied, failing, name, false, v)
    ensures Records(satisfied, failing[name := ErrorsOf(failing, name) + Reported(v, name)], name, true, v)
  {
    LevelsOfSum(ErrorsOf(failing, name), Reported(v, name));
    LevelsReported(v, name);
    assert name != INTERNAL ==> ErrorsOf(failing, name) + Reported(v, name) == Reported(v, name);
  }

  lemma OthersRecorded(satisfied: Satisfactions, failing: Failures, name: string, errors: seq<PolicyError>,
                       other: string, arrived: bool, v: Verdict)
    requires other != name && Records(satisfied, failing, other, arrived, v)
    ensures Records(satisfied, failing[name := errors], other, arrived, v)
  {
  }

  lemma FailureTidy(names: seq<string>, satisfied: Satisfactions, failing: Failures, name: string,
                    errors: seq<PolicyError>)
    requires Tidy(names, satisfied, failing) && name in names && errors != []
    ensures Tidy(names, satisfied, failing[name := errors])
  {
  }

  lemma FailureTallied(names: seq<string>, verdicts: seq<Verdict>, got: set<nat>, satisfied: Satisfactions,
                       failing: Failures, i: nat)
    requires |names| == |verdicts| && Distinct(names)
    requires i < |names| && i !in got && verdicts[i].result.None?
    requires Faithful(names, verdicts, got, satisfied, failing)
    ensures names[i] != INTERNAL ==> names[i] !in failing
    ensures Faithful(names, verdicts, got + {i}, satisfied,
                     failing[names[i] := ErrorsOf(failing, names[i]) + Reported(verdicts[i], names[i])])
  {
    var errors := ErrorsOf(failing, names[i]) + Reported(verdicts[i], names[i]);
    assert Records(satisfied, failing, names[i], i in got, verdicts[i]);
    FailureTidy(names, satisfied, failing, names[i], errors);
    forall j | 0 <= j < |names|
      ensures Records(satisfied, failing[names[i] := errors], names[j], j in got + {i}, verdicts[j])
    {
      if j == i {
        FailureRecorded(satisfied, failing, names[i], verdicts[i]);
      } else {
        OthersRecorded(satisfied, failing, names[i], errors, names[j], j in got, verdicts[j]);
      }
    }
  }

  lemma CancellationCounts(satisfied: Satisfactions, failing: Failures, e: PolicyError)
    ensures Total(satisfied, failing[INTERNAL := ErrorsOf(failing, INTERNAL) + [e]]) == Total(satisfied, failing) + 1
  {
  }

  lemma SuccessCounts(satisfied: Satisfactions, failing: Failures, name: string, result: map<string, Evidence>)
    requires name !in satisfied
    ensures Total(satisfied[name := result], failing) == Total(satisfied, failing) + 1
  {
  }

  lemma FailureCounts(satisfied: Satisfactions, failing: Failures, name: string, errors: seq<PolicyError>)
    requires name !in failing && name != INTERNAL
    ensures Total(satisfied, failing[name := errors]) == Total(satisfied, failing) + 1
  {
  }

  /** One receive. */
  method Receive(names: seq<string>, verdicts: seq<Verdict>, r: Option<nat>, satisfied: Satisfactions,
                 failing: Failures, ghost got: set<nat>)
    returns (satisfied': Satisfactions, failing': Failures)
    requires |names| == |verdicts| && Distinct(names)
    requires r.Some? ==> r.value < |names| && r.value !in got
    requires Faithful(names, verdicts, got, satisfied, failing)
    ensures Faithful(names, verdicts, if r.Some? then got + {r.value} else got, satisfied', failing')
    ensures INTERNAL !in names ==> Total(satisfied', failing') == Total(satisfied, failing) + 1
    ensures INTERNAL !in names ==> (INTERNAL in failing' <==> INTERNAL in failing || r.None?)
  {
    satisfied', failing' := satisfied, failing;
    match r
    case None =>
      var e := Plain("context was canceled before validation completed");
      CancellationTallied(names, verdicts, got, satisfied, failing, e);
      CancellationCounts(satisfied, failing, e);
      failing' := failing[INTERNAL := ErrorsOf(failing, INTERNAL) + [e]];
    case Some(i) =>
      assert names[i] in names;
      if verdicts[i].result.Some? {
        SuccessTallied(names, verdicts, got, satisfied, failing, i);
        SuccessCounts(satisfied, failing, names[i], verdicts[i].result.value);
        satisfied' := satisfied[names[i] := verdicts[i].result.value];
      } else {
        FailureTallied(names, verdicts, got, satisfied, failing, i);
        var errors := ErrorsOf(failing, names[i]) + Reported(verdicts[i], names[i]);
        if names[i] != INTERNAL {
          FailureCounts(satisfied, failing, names[i], errors);
        }
        failing' := failing[names[i] := errors];
      }
  }

  /** Without cancellation, and with no policy named like the internal errors, the two maps split the policies. */
  lemma Partition(names: seq<string>, verdicts: seq<Verdict>, schedule: Schedule, satisfied: Satisfactions,
                  failing: Failures)
    requires |names| == |verdicts| && INTERNAL !in names && IsSchedule(schedule, |names|)
    requires Faithful(names, verdicts, Received(schedule, |names|), satisfied, failing)
    ensures satisfied.Keys !! failing.Keys
    ensures Undisturbed(schedule) && INTERNAL !in failing ==> satisfied.Keys + failing.Keys == set name | name in names
  {
    forall i | 0 <= i < |names| ensures
      && !(names[i] in satisfied && names[i] in failing)
      && (Undisturbed(schedule) ==> names[i] in satisfied || names[i] in failing)
    {
      assert names[i] in names;
      assert Records(satisfied, failing, names[i], i in Received(schedule, |names|), verdicts[i]);
      if Undisturbed(schedule) {
        EverythingArrives(schedule, |names|, i);
      }
    }
  }

  /** The receive loop. */
  method ReceiveAll(names: seq<string>, verdicts: seq<Verdict>, schedule: Schedule)
    returns (satisfied: Satisfactions, failing: Failures)
    requires |names| == |verdicts| && Distinct(names) && IsSchedule(schedule, |names|)
    ensures Faithful(names, verdicts, Received(schedule, |names|), satisfied, failing)
    ensures INTERNAL !in names ==> Total(satisfied, failing) == |names|
    ensures INTERNAL !in names && INTERNAL in failing ==> !Undisturbed(schedule)
  {
    satisfied, failing := map[], map[];
    ghost var got := {};
    for k := 0 to |schedule|
      invariant Took(schedule, k, got)
      invariant Faithful(names, verdicts, got, satisfied, failing)
      invariant INTERNAL !in names ==> Total(satisfied, failing) == k
      invariant INTERNAL !in names && INTERNAL in failing ==> !Undisturbed(schedule)
    {
      TookNext(schedule, |names|, k, got);
      satisfied, failing := Receive(names, verdicts, schedule[k], satisfied, failing, got);
      got := if schedule[k].Some? then got + {schedule[k].value} else got;
    }
    TookAll(schedule, |names|, got);
  }

  /**
   Every schedule, with any number of cancellations: each policy that arrives is recorded under its own name, once, and
   satisfied policies, named failures and internal errors together are as many as the policies.
   */
  method CollectPolicies(names: seq<string>, verdicts: seq<Verdict>, schedule: Schedule)
    returns (satisfied: Satisfactions, failing: Failures)
    requires |names| == |verdicts| && Distinct(names) && IsSchedule(schedule, |names|)
    ensures Faithful(names, verdicts, Received(schedule, |names|), satisfied, failing)
    ensures INTERNAL !in names ==> satisfied.Keys !! failing.Keys && Total(satisfied, failing) == |names|
    ensures INTERNAL !in names && Undisturbed(schedule) ==> satisfied.Keys + failing.Keys == set name | name in names
  {
    satisfied, failing := ReceiveAll(names, verdicts, schedule);
    if INTERNAL !in names {
      Partition(names, verdicts, schedule, satisfied, failing);
    }
  }

  lemma PlainIsSilent(errors: seq<PolicyError>)
    requires forall e :: e in errors ==> e.Plain?
    ensures !AnyBlames(errors) && !AnyCautions(errors)
  {
    forall i | 0 <= i < |errors| ensures errors[i].Plain? {
      assert errors[i] in errors;
    }
  }

  /** The levels found in the map of failures are those of the verdicts that arrived and failed. */
  lemma LevelsCollected(names: seq<string>, verdicts: seq<Verdict>, got: set<nat>, satisfied: Satisfactions,
                        failing: Failures)
    requires |names| == |verdicts| && Faithful(names, verdicts, got, satisfied, failing)
    ensures (exists k :: k in failing && AnyBlames(failing[k])) <==>
      exists i | 0 <= i < |names| :: i in got && verdicts[i].result.None? && AnyBlames(verdicts[i].errors)
    ensures (exists k :: k in failing && AnyCautions(failing[k])) <==>
      exists i | 0 <= i < |names| :: i in got && verdicts[i].result.None? && AnyCautions(verdicts[i].errors)
  {
    if INTERNAL !in names {
      PlainIsSilent(ErrorsOf(failing, INTERNAL));
    }
    forall i | 0 <= i < |names|
      ensures SameLevels(ErrorsOf(failing, names[i]), i in got && verdicts[i].result.None?, verdicts[i])
    {
      assert Records(satisfied, failing, names[i], i in got, verdicts[i]);
    }
  }
}
