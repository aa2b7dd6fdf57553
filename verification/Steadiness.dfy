/**
 A condition on one state under which every quiet run settles, however its workers are scheduled: every live policy
 compiles, and no entry that a live policy reads is about to be taken away.
 */
module Steadiness {
  import opened Inlining
  import opened EntryReads
  import opened Cycles
  import opened Reconcile
  import opened QueuedOrSynced
  import opened Convergence
  import opened EntryCycles

  /** Neither a deletion nor a job that is bound to fail is about to take the entry away. */
  ghost predicate Steady(x: External, s: State, m: string) {
    if m in s.cips then !s.cips[m].deleting && (m in s.jobs ==> Sound(x, s, m, s.jobs[m]) || s.jobs[m].Reporting?)
    else m !in s.jobs
  }

  ghost predicate Quiet(x: External, s: State) {
    AllCompile(x, s) && forall m :: ReadBySome(s, m) ==> Steady(x, s, m)
  }

  lemma ReportKeepsEntries(x: External, s: State, name: string)
    requires name in s.jobs && s.jobs[name].Reporting?
    ensures var s' := AdvanceJob(x, s, name, Done); s'.cm == s.cm && name !in s'.jobs
  {
  }

  lemma ReadEntryStays(x: External, s: State, a: Action)
    requires Quiet(x, s) && QuietStep(x, s, a) && RendersText(x) && ReadBySome(s, a.name)
    ensures Supplies(ViewOf(Apply(x, s, a)), a.name)
  {
    var n :| Live(s, n) && Reads(s.cips[n].spec, a.name);
    assert Compiles(x, s, n) && Steady(x, s, a.name);
    SuccessSupplies(x, ViewOf(s), s.cips[n].spec, a.name);
    SuppliesIs(s, a.name);
    SuppliesIs(Apply(x, s, a), a.name);
    if a.Advance? {
      if s.jobs[a.name].Reporting? {
        ReportKeepsEntries(x, s, a.name);
      } else {
        SoundKeepsEntry(x, s, a.name);
      }
    }
  }

  lemma StepStaysCompiling(x: External, s: State, a: Action)
    requires Quiet(x, s) && QuietStep(x, s, a) && RendersText(x)
    ensures AllCompile(x, Apply(x, s, a))
  {
    var s' := Apply(x, s, a);
    ApplyTouches(x, s, a);
    forall n ensures Compiles(x, s', n) {
      StepKeepsLive(x, s, a, n);
      assert Compiles(x, s, n);
      if Live(s, n) {
        if Reads(s.cips[n].spec, a.name) {
          assert ReadBySome(s, a.name);
          ReadEntryStays(x, s, a);
        }
        StillFed(x, s, s', a.name, n, true);
        PrefixLike(x, true, ViewOf(s), ViewOf(s'), s.cips[n].spec, |Plan(s.cips[n].spec)|);
      }
    }
  }

  lemma StepStaysSteady(x: External, s: State, a: Action, rank: string -> nat, top: nat, m: string)
    requires Quiet(x, s) && QuietStep(x, s, a) && RendersText(x) && Ranked(s, rank, top) && ReadBySome(s, m)
    ensures Steady(x, Apply(x, s, a), m)
  {
    assert Steady(x, s, m);
    StepStaysCompiling(x, s, a);
    StepKept(x, s, a);
    StepKeepsLive(x, s, a, m);
    if m == a.name && a.Advance? && s.jobs[m].Reporting? {
      ReportKeepsEntries(x, s, m);
    } else if m == a.name {
      StepStaysSound(x, s, a, rank, top);
    } else if m in s.jobs {
      OtherSound(x, s, Apply(x, s, a), a.name, m);
    }
  }

  lemma StepStaysQuiet(x: External, s: State, a: Action, rank: string -> nat, top: nat)
    requires Quiet(x, s) && QuietStep(x, s, a) && RendersText(x) && Ranked(s, rank, top)
    ensures Quiet(x, Apply(x, s, a)) && Ranked(Apply(x, s, a), rank, top)
  {
    var s' := Apply(x, s, a);
    StepStaysCompiling(x, s, a);
    StepStaysRanked(x, s, a, rank, top);
    forall m | ReadBySome(s', m) ensures Steady(x, s', m) {
      var n :| Live(s', n) && Reads(s'.cips[n].spec, m);
      StepKeepsLive(x, s, a, n);
      assert ReadBySome(s, m);
      StepStaysSteady(x, s, a, rank, top, m);
    }
  }

  lemma {:induction false} RunStaysQuiet(x: External, run: nat -> State, steps: nat -> Action, rank: string -> nat,
                                         top: nat, i: nat, k: nat)
    requires QuietRun(x, run, steps) && RendersText(x) && i <= k && Quiet(x, run(i)) && Ranked(run(i), rank, top)
    ensures Quiet(x, run(k)) && Ranked(run(k), rank, top)
    decreases k
  {
    hide Quiet, Ranked, QuietStep;
    if i < k {
      RunStaysQuiet(x, run, steps, rank, top, i, k - 1);
      assert Follows(x, run(k - 1), steps(k - 1), run(k - 1 + 1));
      if run(k) != run(k - 1) {
        StepStaysQuiet(x, run(k - 1), steps(k - 1), rank, top);
      }
    }
  }

  lemma EveryQuietRunConverges(x: External, run: nat -> State, steps: nat -> Action, i: nat)
    requires Inv(x, run(i)) && Quiet(x, run(i)) && QuietRun(x, run, steps) && RendersText(x)
    requires !Cyclic(Taking(run(i)))
    ensures exists n: nat :: i <= n && Converged(x, run(n))
  {
    var rank, top := AcyclicIsRanked(run(i));
    forall k: nat | i <= k ensures AllCompile(x, run(k)) {
      RunStaysQuiet(x, run, steps, rank, top, i, k);
    }
    CompilingRunConverges(x, run, steps, i);
  }

  /**
   From any state the controller can be in where every live policy compiles and no entry that is read is about to go, a
   quiet run, however its workers are scheduled, settles if and only if taking has no cycle.
   */
  lemma ConvergesIffAcyclic(x: External, run: nat -> State, steps: nat -> Action, i: nat)
    requires Inv(x, run(i)) && Quiet(x, run(i)) && QuietRun(x, run, steps) && RendersText(x) && RendersAll(x)
    ensures (exists n: nat :: i <= n && Converged(x, run(n))) <==> !Cyclic(Taking(run(i)))
  {
    if Cyclic(Taking(run(i))) {
      forall n: nat | i <= n ensures !Converged(x, run(n)) {
        CyclicRunNeverConverges(x, run, steps, i, n);
      }
    } else {
      EveryQuietRunConverges(x, run, steps, i);
    }
  }

  /** In particular after any run of controller and environment, with any failures and restarts, once it turns quiet. */
  lemma ConvergesAfterAnyRun(x: External, s: State, actions: seq<Action>, run: nat -> State, steps: nat -> Action)
    requires Init(s) && IsRun(x, s, actions) && run(0) == After(x, s, actions)
    requires Quiet(x, run(0)) && QuietRun(x, run, steps) && RendersText(x) && !Cyclic(Taking(run(0)))
    ensures exists n: nat :: Converged(x, run(n))
  {
    RunKeepsInv(x, s, actions);
    EveryQuietRunConverges(x, run, steps, 0);
  }
}
