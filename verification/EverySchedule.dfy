/**
 Exactly when every quiet run settles, whatever its schedule: when taking has no cycle, and no schedule leads to where a
 live policy does not compile. For from there that policy can be served for ever.
 */
module EverySchedule {
  import opened Inlining
  import opened EntryReads
  import opened Cycles
  import opened Reconcile
  import opened QueuedOrSynced
  import opened Convergence
  import opened EntryCycles

  /** However the controller goes on, all live policies compile. */
  ghost predicate NeverFails(x: External, s: State) {
    forall actions :: IsRun(x, s, actions) && OfController(actions) ==> AllCompile(x, After(x, s, actions))
  }

  ghost predicate AlwaysConverges(x: External, s: State) {
    forall run: nat -> State, steps: nat -> Action :: QuietRun(x, run, steps) && run(0) == s ==>
      exists n: nat :: Converged(x, run(n))
  }

  // ---------- if it never fails ----------

  lemma {:induction false} RunIsOfController(x: External, run: nat -> State, steps: nat -> Action, k: nat)
    returns (actions: seq<Action>)
    requires QuietRun(x, run, steps)
    ensures IsRun(x, run(0), actions) && OfController(actions) && After(x, run(0), actions) == run(k)
  {
    actions := [];
    if k > 0 {
      actions := RunIsOfController(x, run, steps, k - 1);
      assert Follows(x, run(k - 1), steps(k - 1), run(k - 1 + 1));
      if run(k) != run(k - 1) {
        Prepend(x, run(k - 1), steps(k - 1), []);
        RunThen(x, run(0), actions, [steps(k - 1)] + []);
        actions := actions + ([steps(k - 1)] + []);
      }
    }
  }

  lemma NeverFailingConverges(x: External, s: State)
    requires Inv(x, s) && RendersText(x) && NeverFails(x, s) && !Cyclic(Taking(s))
    ensures AlwaysConverges(x, s)
  {
    forall run: nat -> State, steps: nat -> Action | QuietRun(x, run, steps) && run(0) == s
      ensures exists n: nat :: Converged(x, run(n))
    {
      forall k: nat | 0 <= k ensures AllCompile(x, run(k)) {
        var actions := RunIsOfController(x, run, steps, k);
      }
      CompilingRunConverges(x, run, steps, 0);
    }
  }

  // ---------- if taking has a cycle ----------

  ghost function SomeStep(x: External, s: State): (a: Action)
    requires s.queue != {} || s.jobs != map[]
    ensures QuietStep(x, s, a)
  {
    WorkIsEnabled(x, s);
    var a :| QuietStep(x, s, a);
    a
  }

  ghost function Going(x: External, s: State, k: nat): State {
    if k == 0 then s else
    var before := Going(x, s, k - 1);
    if before.queue == {} && before.jobs == map[] then before else Apply(x, before, SomeStep(x, before))
  }

  lemma SomeRun(x: External, s: State) returns (run: nat -> State, steps: nat -> Action)
    ensures QuietRun(x, run, steps) && run(0) == s
  {
    run := (k: nat) => Going(x, s, k);
    steps := (k: nat) =>
      var t := Going(x, s, k);
      if t.queue == {} && t.jobs == map[] then Resync else SomeStep(x, t);
  }

  lemma CyclicNeedNotConverge(x: External, s: State)
    requires RendersAll(x) && Cyclic(Taking(s))
    ensures !AlwaysConverges(x, s)
  {
    var run, steps := SomeRun(x, s);
    forall n: nat ensures !Converged(x, run(n)) {
      CyclicRunNeverConverges(x, run, steps, 0, n);
    }
  }

  // ---------- if it can fail ----------

  /** The policy does not compile, and its own entry is nothing to it. */
  ghost predicate Failing(x: External, s: State, n: string) {
    Inv(x, s) && Live(s, n) && !Reads(s.cips[n].spec, n) && Inline(x, ViewOf(s), s.cips[n].spec).Err?
  }

  ghost function Serve(s: State, n: string): Action { if n in s.jobs then Advance(n, Done) else Start(n) }

  /** Changes of other entries than those it reads do not make a policy compile. */
  lemma StillFails(x: External, s: State, s': State, n: string)
    requires OnlyTouches(s, s', n) && Failing(x, s, n)
    ensures Inline(x, ViewOf(s'), s.cips[n].spec).Err?
  {
    var spec := s.cips[n].spec;
    if Inline(x, ViewOf(s'), spec).Ok? {
      forall key | Reads(spec, key) ensures
        && Supplies(ViewOf(s'), key) && Supplies(ViewOf(s), key)
        && ViewOf(s').configMaps[IMAGE_POLICIES][key] == ViewOf(s).configMaps[IMAGE_POLICIES][key]
      {
        SuccessSupplies(x, ViewOf(s'), spec, key);
        SuppliesIs(s', key);
        SuppliesIs(s, key);
      }
      SameCompilation(x, ViewOf(s'), ViewOf(s), spec);
    }
  }

  /** Whoever fails has work, and being served does not help. */
  lemma ServedStaysFailing(x: External, s: State, n: string)
    requires Failing(x, s, n)
    ensures QuietStep(x, s, Serve(s, n)) && Failing(x, Apply(x, s, Serve(s, n)), n)
  {
    assert Good(x, s, n);
    var a := Serve(s, n);
    ApplyTouches(x, s, a);
    StepKeepsInv(x, s, a);
    StepKeepsLive(x, s, a, n);
    StillFails(x, s, Apply(x, s, a), n);
  }

  ghost function ServedFor(x: External, s: State, n: string, k: nat): (t: State)
    requires Failing(x, s, n)
    ensures Failing(x, t, n)
  {
    if k == 0 then s else
    var before := ServedFor(x, s, n, k - 1);
    ServedStaysFailing(x, before, n);
    Apply(x, before, Serve(before, n))
  }

  ghost function StateAt(x: External, s: State, actions: seq<Action>, n: string, k: nat): State
    requires IsRun(x, s, actions) && Failing(x, After(x, s, actions), n)
  {
    if k < |actions| then Through(x, s, actions, k) else ServedFor(x, After(x, s, actions), n, k - |actions|)
  }

  ghost function StepAt(x: External, s: State, actions: seq<Action>, n: string, k: nat): Action
    requires IsRun(x, s, actions) && Failing(x, After(x, s, actions), n)
  {
    if k < |actions| then actions[k] else Serve(StateAt(x, s, actions, n, k), n)
  }

  lemma FirstSteps(x: External, s: State, actions: seq<Action>, n: string, k: nat)
    requires IsRun(x, s, actions) && OfController(actions) && Failing(x, After(x, s, actions), n) && k < |actions|
    ensures var t := StateAt(x, s, actions, n, k);
      && QuietStep(x, t, actions[k]) && StateAt(x, s, actions, n, k + 1) == Apply(x, t, actions[k])
  {
    ThroughSteps(x, s, actions, k);
    ThroughEnds(x, s, actions);
    assert actions[k] in actions;
  }

  lemma LaterSteps(x: External, s: State, actions: seq<Action>, n: string, k: nat)
    requires IsRun(x, s, actions) && Failing(x, After(x, s, actions), n) && k >= |actions|
    ensures var t := StateAt(x, s, actions, n, k);
      && QuietStep(x, t, Serve(t, n)) && StateAt(x, s, actions, n, k + 1) == Apply(x, t, Serve(t, n))
  {
    ServedStaysFailing(x, StateAt(x, s, actions, n, k), n);
  }

  lemma StarvingStep(x: External, s: State, actions: seq<Action>, n: string, k: nat)
    requires IsRun(x, s, actions) && OfController(actions) && Failing(x, After(x, s, actions), n)
    ensures var t := StateAt(x, s, actions, n, k);
      && Follows(x, t, StepAt(x, s, actions, n, k), StateAt(x, s, actions, n, k + 1))
      && !Converged(x, t)
  {
    hide Failing, Through, Apply, Settled;
    if k < |actions| {
      FirstSteps(x, s, actions, n, k);
    } else {
      LaterSteps(x, s, actions, n, k);
    }
  }

  lemma StarvingRun(x: External, s: State, actions: seq<Action>, n: string)
    returns (run: nat -> State, steps: nat -> Action)
    requires IsRun(x, s, actions) && OfController(actions) && Failing(x, After(x, s, actions), n)
    ensures QuietRun(x, run, steps) && run(0) == s && forall k: nat :: !Converged(x, run(k))
  {
    run := (k: nat) => StateAt(x, s, actions, n, k);
    steps := (k: nat) => StepAt(x, s, actions, n, k);
    forall k: nat ensures Follows(x, run(k), steps(k), run(k + 1)) && !Converged(x, run(k)) {
      StarvingStep(x, s, actions, n, k);
    }
    assert StateAt(x, s, actions, n, 0) == s;
  }

  lemma FailingNeedNotConverge(x: External, s: State, actions: seq<Action>, n: string)
    requires IsRun(x, s, actions) && OfController(actions) && Failing(x, After(x, s, actions), n)
    ensures !AlwaysConverges(x, s)
  {
    var run, steps := StarvingRun(x, s, actions, n);
    assert QuietRun(x, run, steps) && run(0) == s;
  }

  // ---------- the exact condition ----------

  lemma {:induction false} RunKeepsLive(x: External, s: State, actions: seq<Action>, n: string)
    requires IsRun(x, s, actions) && OfController(actions)
    ensures Live(After(x, s, actions), n) <==> Live(s, n)
    ensures Live(s, n) ==> After(x, s, actions).cips[n].spec == s.cips[n].spec
    decreases |actions|
  {
    if actions != [] {
      assert actions[0] in actions && forall a :: a in actions[1..] ==> a in actions;
      StepKeepsLive(x, s, actions[0], n);
      RunKeepsLive(x, Apply(x, s, actions[0]), actions[1..], n);
    }
  }

  lemma OwnEntryIsCycle(s: State, n: string)
    requires Live(s, n) && Takes(s.cips[n].spec, n)
    ensures Cyclic(Taking(s))
  {
    assert Taking(s)(n, n);
    assert IsCycle(Taking(s), [n, n]);
  }

  /**
   From any state the controller can be in, every quiet run settles, however it is scheduled, if and only if taking has
   no cycle and no way of going on leads to where a live policy does not compile.
   */
  lemma AlwaysConvergesIff(x: External, s: State)
    requires Inv(x, s) && TakesAll(s) && RendersText(x) && RendersAll(x)
    ensures AlwaysConverges(x, s) <==> !Cyclic(Taking(s)) && NeverFails(x, s)
  {
    if Cyclic(Taking(s)) {
      CyclicNeedNotConverge(x, s);
    } else if NeverFails(x, s) {
      NeverFailingConverges(x, s);
    } else {
      var actions :| IsRun(x, s, actions) && OfController(actions) && !AllCompile(x, After(x, s, actions));
      var n :| !Compiles(x, After(x, s, actions), n);
      RunKeepsInv(x, s, actions);
      RunKeepsLive(x, s, actions, n);
      if Reads(s.cips[n].spec, n) {
        OwnEntryIsCycle(s, n);
      }
      FailingNeedNotConverge(x, s, actions, n);
    }
  }
}
