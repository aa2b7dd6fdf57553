/**
 Why convergence asks that no entry that is read is about to go: a job left over from before may still withdraw it, and
 a scheduler that is not fair can then let the policy that reads it fail for ever.
 */
module Starvation {
  import opened Wrappers
  import opened V1alpha1
  import opened Inlining
  import opened EntryReads
  import opened Cycles
  import opened Reconcile
  import opened Convergence
  import opened EntryCycles

  const TAKER := "taker"
  const GIVER := "giver"

  /** Takes its policy text from the ConfigMap, under the key. */
  function ReadsFrom(configMap: string, key: string): Spec {
    var reference := ConfigMapReference(configMap, "", key);
    Spec([], [], Some(Policy("cue", "", None, Some(reference), None, None, None, None)), "", [])
  }

  function TakerSpec(): Spec { ReadsFrom(IMAGE_POLICIES, GIVER) }

  function GiverSpec(): Spec { Spec([], [], None, "", []) }

  /** The taker is queued or in work towards a failure, its text is gone, and the giver's job is not served. */
  ghost predicate Starved(s: State) {
    && Live(s, TAKER) && s.cips[TAKER].spec == TakerSpec() && OURS in s.cips[TAKER].finalizers
    && GIVER !in Entries(s) && GIVER in s.jobs
    && (TAKER in s.queue || TAKER in s.jobs)
    && (TAKER in s.jobs ==> BoundToFail(s.jobs[TAKER]))
  }

  ghost predicate BoundToFail(j: Job) {
    match j
    case Fetched(orig) => orig.spec == TakerSpec() && OURS in orig.finalizers
    case Inlining(_, res, partial, k, _) => res.spec == TakerSpec() && partial == TakerSpec() && k == 0
    case Withdrawing(_, _, _) => true
    case Reporting(_, _, _, failed) => failed
    case _ => false
  }

  ghost function Serve(s: State): Action { if TAKER in s.jobs then Advance(TAKER, Done) else Start(TAKER) }

  lemma NoTextNoPolicy(x: External, s: State)
    requires GIVER !in Entries(s)
    ensures Plan(TakerSpec())[0] == TopConfigMap && Exec(x, ViewOf(s), TakerSpec(), TopConfigMap).Err?
  {
    assert Plan(TakerSpec()) == [TopConfigMap, TopRemote];
  }

  lemma InliningFails(x: External, s: State)
    requires Starved(s) && TAKER in s.jobs && s.jobs[TAKER].Inlining?
    ensures Starved(AdvanceJob(x, s, TAKER, Done))
  {
    NoTextNoPolicy(x, s);
    InlineNextOnlyReads(x, s, TAKER, s.jobs[TAKER], Done);
  }

  lemma FailureIsQueued(x: External, s: State)
    requires Starved(s) && TAKER in s.jobs && s.jobs[TAKER].Reporting?
    ensures var s' := AdvanceJob(x, s, TAKER, Done);
      && TAKER in s'.queue && TAKER !in s'.jobs && s'.cm == s.cm && Live(s', TAKER)
      && s'.cips[TAKER].spec == TakerSpec() && s'.cips[TAKER].finalizers == s.cips[TAKER].finalizers
  {
    hide InlineNext, Publish, Release, Finalize, EnsureFinalizer, WithdrawFailed;
  }

  lemma ReportingFails(x: External, s: State)
    requires Starved(s) && TAKER in s.jobs && s.jobs[TAKER].Reporting?
    ensures Starved(AdvanceJob(x, s, TAKER, Done))
  {
    FailureIsQueued(x, s);
    AdvanceTouches(x, s, TAKER, Done);
  }

  lemma OthersFail(x: External, s: State)
    requires Starved(s) && TAKER in s.jobs && (s.jobs[TAKER].Fetched? || s.jobs[TAKER].Withdrawing?)
    ensures Starved(AdvanceJob(x, s, TAKER, Done))
  {
  }

  lemma ServedStaysStarved(x: External, s: State)
    requires Starved(s)
    ensures QuietStep(x, s, Serve(s)) && Starved(Apply(x, s, Serve(s)))
  {
    if TAKER in s.jobs {
      match s.jobs[TAKER]
      case Inlining(_, _, _, _, _) => InliningFails(x, s);
      case Reporting(_, _, _, _) => ReportingFails(x, s);
      case _ => OthersFail(x, s);
    }
  }

  ghost function ServedFor(x: External, s: State, k: nat): (t: State)
    requires Starved(s)
    ensures Starved(t)
  {
    if k == 0 then s else
    var before := ServedFor(x, s, k - 1);
    ServedStaysStarved(x, before);
    Apply(x, before, Serve(before))
  }

  // ---------- a run that leaves a job behind ----------

  /** The giver as it is first stored: its policy text is in another ConfigMap. */
  function FirstGiver(): Cip { Cip(2, 2, 1, ReadsFrom("texts", GIVER), [OURS], false, NO_STATUS) }

  function FailedJob(): Job {
    var first := FirstGiver();
    Withdrawing(first, first, InlineFailedStatus(first, TopConfigMap, Unavailable))
  }

  /** A controller starts; both policies are stored, and so is the entry of the giver. */
  function Start0(text: string): State {
    var taker := Cip(1, 1, 1, TakerSpec(), [OURS], false, NO_STATUS);
    State(map[TAKER := taker, GIVER := FirstGiver()], Some(map[GIVER := text]), map[], map[], {TAKER, GIVER}, {},
          map[], 2)
  }

  /** The giver is fetched, fails to compile for an answer that does not come, and is corrected by its owner. */
  function History(): seq<Action> {
    [Start(GIVER)] + ([Advance(GIVER, Done)] + ([Advance(GIVER, Rejected)] + ([Edit(GIVER, GiverSpec())] + [])))
  }

  /** The giver is live and compiles, its entry is there, and the job is still about to withdraw it. */
  function LeftOver(text: string): State {
    var s := Start0(text);
    var corrected := FirstGiver().(spec := GiverSpec(), generation := 2, version := 3);
    s.(cips := s.cips[GIVER := corrected], jobs := map[GIVER := FailedJob()], clock := 3)
  }

  function WithJob(text: string, job: Job): State { Start0(text).(queue := {TAKER}, jobs := map[GIVER := job]) }

  lemma Corrected(x: External, text: string)
    ensures Apply(x, WithJob(text, FailedJob()), Edit(GIVER, GiverSpec())) == LeftOver(text)
  {
    assert {TAKER} + {GIVER} == {TAKER, GIVER};
  }

  lemma Unanswered(x: External, text: string)
    ensures var first := FirstGiver();
      Apply(x, WithJob(text, Inlining(first, first, first.spec, 0, false)), Advance(GIVER, Rejected)) ==
      WithJob(text, FailedJob())
  {
    assert Plan(FirstGiver().spec) == [TopConfigMap, TopRemote];
  }

  lemma LeftOverIsReached(x: External, text: string)
    ensures Init(Start0(text)) && IsRun(x, Start0(text), History())
    ensures After(x, Start0(text), History()) == LeftOver(text)
  {
    var first := FirstGiver();
    var fetched, inlining := WithJob(text, Fetched(first)), WithJob(text, Inlining(first, first, first.spec, 0, false));
    var failed := WithJob(text, FailedJob());
    assert Start0(text).queue - {GIVER} == {TAKER};
    assert Apply(x, Start0(text), Start(GIVER)) == fetched;
    assert Apply(x, fetched, Advance(GIVER, Done)) == inlining;
    Unanswered(x, text);
    Corrected(x, text);
    Prepend(x, failed, Edit(GIVER, GiverSpec()), []);
    Prepend(x, inlining, Advance(GIVER, Rejected), [Edit(GIVER, GiverSpec())] + []);
    Prepend(x, fetched, Advance(GIVER, Done), [Advance(GIVER, Rejected)] + ([Edit(GIVER, GiverSpec())] + []));
    Prepend(x, Start0(text), Start(GIVER),
            [Advance(GIVER, Done)] + ([Advance(GIVER, Rejected)] + ([Edit(GIVER, GiverSpec())] + [])));
  }

  lemma LeftOverCompiles(x: External, text: string, n: string)
    requires text != ""
    ensures Compiles(x, LeftOver(text), n)
  {
    var s := LeftOver(text);
    if n == TAKER {
      assert Plan(TakerSpec()) == [TopConfigMap, TopRemote];
      var taken := TakerSpec().(policy := Some(TakerSpec().policy.value.(data := text, configMapRef := None)));
      assert Exec(x, ViewOf(s), TakerSpec(), TopConfigMap) == Ok(taken);
      assert ExecPrefix(x, ViewOf(s), TakerSpec(), 1) == Ok(taken);
      assert ExecPrefix(x, ViewOf(s), TakerSpec(), 2) == Ok(taken);
    } else if n == GIVER {
      assert Plan(GiverSpec()) == [TopConfigMap, TopRemote];
      assert ExecPrefix(x, ViewOf(s), GiverSpec(), 1) == Ok(GiverSpec());
      assert ExecPrefix(x, ViewOf(s), GiverSpec(), 2) == Ok(GiverSpec());
    }
  }

  lemma LeftOverIsAcyclic(text: string)
    ensures !Cyclic(Taking(LeftOver(text)))
  {
    var s := LeftOver(text);
    forall n, m | TakesFrom(s, n, m) ensures n == TAKER && m == GIVER {
      var place :| TakesAt(s.cips[n].spec, place, m);
    }
    if Cyclic(Taking(s)) {
      var p :| IsCycle(Taking(s), p);
      LeadsTwice(s, p);
    }
  }

  lemma LeadsTwice(s: State, p: seq<string>)
    requires IsCycle(Taking(s), p)
    ensures TakesFrom(s, p[0], p[1])
    ensures p[0] == p[1] || (|p| > 2 && TakesFrom(s, p[1], p[2]))
  {
    assert Taking(s)(p[0], p[1]);
    if |p| > 2 {
      assert Taking(s)(p[1], p[2]);
    }
  }

  ghost function Withdrawn(x: External, text: string): (s: State)
    ensures Starved(s)
  {
    Apply(x, LeftOver(text), Advance(GIVER, Done))
  }

  ghost function StateAt(x: External, text: string, k: nat): State {
    if k == 0 then LeftOver(text) else ServedFor(x, Withdrawn(x, text), k - 1)
  }

  ghost function StepAt(x: External, text: string, k: nat): Action {
    if k == 0 then Advance(GIVER, Done) else Serve(StateAt(x, text, k))
  }

  lemma StarvingStep(x: External, text: string, k: nat)
    ensures Follows(x, StateAt(x, text, k), StepAt(x, text, k), StateAt(x, text, k + 1)) &&
      !Converged(x, StateAt(x, text, k))
  {
    if k > 0 {
      ServedStaysStarved(x, StateAt(x, text, k));
    }
  }

  /**
   A run of controller and environment from the start, after which every live policy compiles and taking has no cycle;
   and yet there is a quiet run from there that never settles.
   */
  lemma WithdrawalCanStarve(x: External, text: string)
    returns (s: State, actions: seq<Action>, run: nat -> State, steps: nat -> Action)
    requires text != ""
    ensures Init(s) && IsRun(x, s, actions) && run(0) == After(x, s, actions)
    ensures (forall n :: Compiles(x, run(0), n)) && !Cyclic(Taking(run(0)))
    ensures QuietRun(x, run, steps) && forall k: nat :: !Converged(x, run(k))
  {
    s, actions := Start0(text), History();
    LeftOverIsReached(x, text);
    run := (k: nat) => StateAt(x, text, k);
    steps := (k: nat) => StepAt(x, text, k);
    forall n ensures Compiles(x, run(0), n) {
      LeftOverCompiles(x, text, n);
    }
    LeftOverIsAcyclic(text);
    forall k: nat ensures Follows(x, run(k), steps(k), run(k + 1)) && !Converged(x, run(k)) {
      StarvingStep(x, text, k);
    }
  }
}
