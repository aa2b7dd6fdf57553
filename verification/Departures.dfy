/**
 Exactly when a fair run settles. What remains to be said is what becomes of the entries that live policies read and no
 live policy provides: those of policies on their way out, and of jobs that have outlived their object.
 */
module Departures {
  import opened Inlining
  import opened EntryReads
  import opened Cycles
  import opened Reconcile
  import opened QueuedOrSynced
  import opened Convergence
  import opened EntryCycles
  import opened FairRuns

  // ---------- entries without a live policy ----------

  /** The server stores no deleted object without a finalizer. */
  predicate Anchored(s: State, m: string) { m in s.cips && s.cips[m].deleting ==> s.cips[m].finalizers != [] }

  /** A job that has outlived its object and still compiles it: what it reads by then decides whether it publishes. */
  predicate Adrift(s: State, m: string) {
    && m !in s.cips && m in s.jobs
    && (s.jobs[m].Inlining? || (s.jobs[m].Fetched? && OURS in s.jobs[m].orig.finalizers))
  }

  /** The job is about to let its object go, and nothing else holds the object. */
  ghost predicate LettingGo(s: State, m: string) {
    && m in s.cips && m in s.jobs
    && s.jobs[m] == Releasing(s.cips[m]) && Finalizers.Names(s.cips[m].finalizers) == {OURS}
  }

  /** The entry is there in the end: nobody takes it away, or a job without an object writes it. */
  ghost predicate Lasting(s: State, m: string) {
    if m in s.cips then LettingGo(s, m) && Supplies(ViewOf(s), m)
    else if m in s.jobs && s.jobs[m].Publishing? then true
    else if m in s.jobs && (s.jobs[m].Withdrawing? || s.jobs[m].Finalizing?) then false
    else Supplies(ViewOf(s), m)
  }

  ghost predicate Decided(s: State, m: string) { !Live(s, m) && Anchored(s, m) && !Adrift(s, m) }

  /** What a step does to such an entry: nothing, in the end. */
  ghost predicate Unmoved(s: State, s': State, m: string) {
    Decided(s', m) && (Lasting(s, m) <==> Lasting(s', m))
  }

  lemma SuppliesAre(s: State, s': State, m: string)
    ensures Supplies(ViewOf(s), m) <==> m in Entries(s) && Entries(s)[m] != ""
    ensures Supplies(ViewOf(s'), m) <==> m in Entries(s') && Entries(s')[m] != ""
  {
    SuppliesIs(s, m);
    SuppliesIs(s', m);
  }

  lemma OtherUnmoved(s: State, s': State, name: string, m: string)
    requires OnlyTouches(s, s', name) && m != name && Decided(s, m)
    ensures Unmoved(s, s', m)
  {
    SuppliesAre(s, s', m);
  }

  lemma StartUnmoved(s: State, m: string)
    requires Decided(s, m) && m !in s.jobs
    ensures Unmoved(s, StartJob(s, m), m)
  {
    SuppliesAre(s, StartJob(s, m), m);
  }

  lemma FetchedUnmoved(x: External, s: State, m: string)
    requires Decided(s, m) && m in s.jobs && s.jobs[m].Fetched? && VersionsOk(s, m)
    ensures Unmoved(s, AdvanceJob(x, s, m, Done), m)
  {
    SuppliesAre(s, AdvanceJob(x, s, m, Done), m);
  }

  lemma InliningUnmoved(x: External, s: State, m: string)
    requires Decided(s, m) && m in s.jobs && s.jobs[m].Inlining?
    ensures Unmoved(s, AdvanceJob(x, s, m, Done), m)
  {
    InlineNextOnlyReads(x, s, m, s.jobs[m], Done);
  }

  lemma PublishUnmoved(x: External, s: State, m: string)
    requires Decided(s, m) && m in s.jobs && s.jobs[m].Publishing? && RendersText(x)
    ensures Unmoved(s, AdvanceJob(x, s, m, Done), m)
  {
    SuppliesAre(s, AdvanceJob(x, s, m, Done), m);
  }

  lemma WithdrawUnmoved(x: External, s: State, m: string)
    requires Decided(s, m) && m in s.jobs && (s.jobs[m].Withdrawing? || s.jobs[m].Finalizing?)
    ensures Unmoved(s, AdvanceJob(x, s, m, Done), m)
  {
    SuppliesAre(s, AdvanceJob(x, s, m, Done), m);
  }

  lemma ReportOnlyPuts(x: External, s: State, m: string)
    requires Decided(s, m) && m in s.jobs && s.jobs[m].Reporting?
    ensures var s' := AdvanceJob(x, s, m, Done);
      && s'.cm == s.cm && s'.configMaps == s.configMaps && m !in s'.jobs && (m in s'.cips <==> m in s.cips)
      && (m in s.cips ==> s'.cips[m].deleting && s'.cips[m].finalizers == s.cips[m].finalizers)
  {
    hide InlineNext, Publish, Release, Finalize, EnsureFinalizer, WithdrawFailed;
  }

  lemma ReportUnmoved(x: External, s: State, m: string)
    requires Decided(s, m) && m in s.jobs && s.jobs[m].Reporting?
    ensures Unmoved(s, AdvanceJob(x, s, m, Done), m)
  {
    ReportOnlyPuts(x, s, m);
    SuppliesAre(s, AdvanceJob(x, s, m, Done), m);
  }

  lemma ReleaseLetsGo(x: External, s: State, m: string)
    requires Decided(s, m) && m in s.jobs && s.jobs[m].Releasing? && VersionsOk(s, m)
    ensures var s' := AdvanceJob(x, s, m, Done);
      && s'.cm == s.cm && s'.configMaps == s.configMaps && m !in s'.jobs
      && (m in s'.cips <==> m in s.cips && !LettingGo(s, m)) && (m in s'.cips ==> s'.cips[m].deleting)
      && Anchored(s', m)
  {
  }

  lemma ReleaseUnmoved(x: External, s: State, m: string)
    requires Decided(s, m) && m in s.jobs && s.jobs[m].Releasing? && VersionsOk(s, m)
    ensures Unmoved(s, AdvanceJob(x, s, m, Done), m)
    ensures Lasting(s, m) ==> Foreign(AdvanceJob(x, s, m, Done), m)
  {
    ReleaseLetsGo(x, s, m);
    SuppliesAre(s, AdvanceJob(x, s, m, Done), m);
  }

  lemma StepUnmoved(x: External, s: State, a: Action, m: string)
    requires Inv(x, s) && QuietStep(x, s, a) && RendersText(x) && Decided(s, m)
    ensures Unmoved(s, Apply(x, s, a), m)
  {
    assert Good(x, s, m);
    if a.name != m {
      ApplyTouches(x, s, a);
      OtherUnmoved(s, Apply(x, s, a), a.name, m);
    } else if a.Start? {
      StartUnmoved(s, m);
    } else {
      match s.jobs[m]
      case Fetched(_) => FetchedUnmoved(x, s, m);
      case Inlining(_, _, _, _, _) => InliningUnmoved(x, s, m);
      case Reporting(_, _, _, _) => ReportUnmoved(x, s, m);
      case Releasing(_) => ReleaseUnmoved(x, s, m);
      case Publishing(_, _, _) => PublishUnmoved(x, s, m);
      case _ => WithdrawUnmoved(x, s, m);
    }
  }

  // ---------- the last jobs come to their end ----------

  /** The job has gone with its object, or has no more steps left than before, by the given number. */
  ghost predicate NearerBy(s: State, s': State, m: string, n: nat) {
    Foreign(s', m) || (m in s.jobs && m in s'.jobs && Left(s'.jobs[m]) + n <= Left(s.jobs[m]))
  }

  /** A step brings the job of a lasting entry nearer to its end, or leaves it alone. */
  lemma StepComesToEnd(x: External, s: State, a: Action, m: string)
    requires Inv(x, s) && QuietStep(x, s, a) && RendersText(x) && Decided(s, m) && Lasting(s, m)
    ensures NearerBy(s, Apply(x, s, a), m, if a.name == m then 1 else 0)
  {
    var s' := Apply(x, s, a);
    assert Good(x, s, m);
    if a.name != m {
      ApplyTouches(x, s, a);
    } else if a.Advance? {
      StepShortens(x, s, m);
      if s.jobs[m].Releasing? {
        ReleaseUnmoved(x, s, m);
      } else {
        GoneStaysGone(x, s, m);
      }
    }
  }

  lemma GoneStaysGone(x: External, s: State, m: string)
    requires m in s.jobs && m !in s.cips
    ensures m !in AdvanceJob(x, s, m, Done).cips
  {
    if s.jobs[m].Inlining? {
      InlineNextOnlyReads(x, s, m, s.jobs[m], Done);
    }
  }

  // ---------- over runs ----------

  /** Every entry that a live policy reads and no live policy provides is decided. */
  ghost predicate AllDecided(s: State) {
    forall n, m :: Live(s, n) && Reads(s.cips[n].spec, m) && !Live(s, m) ==> Decided(s, m)
  }

  ghost predicate AllLasting(s: State) {
    forall n, m :: Live(s, n) && Reads(s.cips[n].spec, m) && !Live(s, m) ==> Lasting(s, m)
  }

  lemma {:induction false} RunUnmoved(x: External, run: nat -> State, steps: nat -> Action, m: string, i: nat, j: nat)
    requires QuietRun(x, run, steps) && RendersText(x) && i <= j && Inv(x, run(i)) && Decided(run(i), m)
    ensures Inv(x, run(j)) && Decided(run(j), m) && (Lasting(run(i), m) <==> Lasting(run(j), m))
    decreases j
  {
    if i < j {
      RunUnmoved(x, run, steps, m, i, j - 1);
      assert Follows(x, run(j - 1), steps(j - 1), run(j - 1 + 1));
      if run(j) != run(j - 1) {
        StepKeepsInv(x, run(j - 1), steps(j - 1));
        StepUnmoved(x, run(j - 1), steps(j - 1), m);
      }
    }
  }

  lemma {:induction false} StaysForeign(x: External, run: nat -> State, steps: nat -> Action, m: string, i: nat, j: nat)
    requires QuietRun(x, run, steps) && i <= j && Foreign(run(i), m)
    ensures Foreign(run(j), m)
    decreases j
  {
    if i < j {
      StaysForeign(x, run, steps, m, i, j - 1);
      assert Follows(x, run(j - 1), steps(j - 1), run(j - 1 + 1));
      if run(j) != run(j - 1) {
        ForeignStays(x, run(j - 1), steps(j - 1), m);
      }
    }
  }

  lemma NextComesToEnd(x: External, run: nat -> State, steps: nat -> Action, m: string, j: nat)
    requires QuietRun(x, run, steps) && RendersText(x) && Inv(x, run(j)) && Decided(run(j), m) && Lasting(run(j), m)
    requires m in run(j).jobs
    ensures NearerBy(run(j), run(j + 1), m, if Serves(run(j), steps(j), m) then 1 else 0)
  {
    assert Follows(x, run(j), steps(j), run(j + 1));
    if QuietStep(x, run(j), steps(j)) {
      StepComesToEnd(x, run(j), steps(j), m);
    }
  }

  lemma {:induction false} RunComesToEnd(x: External, run: nat -> State, steps: nat -> Action, m: string, i: nat,
                                         j: nat)
    requires QuietRun(x, run, steps) && RendersText(x) && i <= j
    requires Inv(x, run(i)) && Decided(run(i), m) && Lasting(run(i), m) && m in run(i).jobs
    ensures NearerBy(run(i), run(j), m, 0)
    decreases j
  {
    if i < j {
      RunComesToEnd(x, run, steps, m, i, j - 1);
      RunUnmoved(x, run, steps, m, i, j - 1);
      if Foreign(run(j - 1), m) {
        StaysForeign(x, run, steps, m, j - 1, j);
      } else {
        NextComesToEnd(x, run, steps, m, j - 1);
      }
    }
  }

  lemma {:induction false} BecomesForeign(x: External, run: nat -> State, steps: nat -> Action, m: string, i: nat)
    returns (j: nat)
    requires QuietRun(x, run, steps) && Fair(run, steps) && RendersText(x)
    requires Inv(x, run(i)) && Decided(run(i), m) && Lasting(run(i), m) && m in run(i).jobs
    ensures i <= j && Foreign(run(j), m)
    decreases Left(run(i).jobs[m])
  {
    assert Busy(run(i), m);
    var k: nat :| i <= k && Serves(run(k), steps(k), m);
    RunUnmoved(x, run, steps, m, i, k);
    RunComesToEnd(x, run, steps, m, i, k);
    j := k;
    if !Foreign(run(k), m) {
      NextComesToEnd(x, run, steps, m, k);
      j := k + 1;
      if !Foreign(run(k + 1), m) {
        RunUnmoved(x, run, steps, m, k, k + 1);
        j := BecomesForeign(x, run, steps, m, k + 1);
      }
    }
  }

  /** A job still stands behind an entry that is read and that no live policy provides. */
  ghost predicate Pendant(s: State, m: string) { !Live(s, m) && ReadBySome(s, m) && m in s.jobs }

  lemma PendantBefore(x: External, run: nat -> State, steps: nat -> Action, m: string, i: nat, j: nat)
    requires QuietRun(x, run, steps) && RendersText(x) && i <= j && Inv(x, run(i))
    requires AllDecided(run(i)) && AllLasting(run(i)) && Pendant(run(j), m)
    ensures Pendant(run(i), m)
  {
    StaysLive(x, run, steps, m, i, j);
    var n :| Live(run(j), n) && Reads(run(j).cips[n].spec, m);
    StaysLive(x, run, steps, n, i, j);
    if m !in run(i).jobs {
      assert Lasting(run(i), m);
      StaysForeign(x, run, steps, m, i, j);
    }
  }

  lemma ReadsStay(x: External, run: nat -> State, steps: nat -> Action, i: nat, j: nat)
    requires QuietRun(x, run, steps) && RendersText(x) && i <= j && Inv(x, run(i)) && AllDecided(run(i))
    ensures Inv(x, run(j)) && AllDecided(run(j)) && (AllLasting(run(i)) <==> AllLasting(run(j)))
  {
    forall n ensures (Live(run(i), n) <==> Live(run(j), n)) &&
      (Live(run(i), n) ==> run(j).cips[n].spec == run(i).cips[n].spec)
    {
      StaysLive(x, run, steps, n, i, j);
    }
    RunKeepsInvariant(x, run, steps, i, j);
    forall n, m | Live(run(i), n) && Reads(run(i).cips[n].spec, m) && !Live(run(i), m)
      ensures Decided(run(j), m) && (Lasting(run(i), m) <==> Lasting(run(j), m))
    {
      RunUnmoved(x, run, steps, m, i, j);
    }
  }

  lemma {:induction false} RunKeepsInvariant(x: External, run: nat -> State, steps: nat -> Action, i: nat, j: nat)
    requires QuietRun(x, run, steps) && i <= j && Inv(x, run(i))
    ensures Inv(x, run(j))
    ensures forall n :: Compilable(x, run(i), n) <==> Compilable(x, run(j), n)
    decreases j
  {
    if i < j {
      RunKeepsInvariant(x, run, steps, i, j - 1);
      assert Follows(x, run(j - 1), steps(j - 1), run(j - 1 + 1));
      if run(j) != run(j - 1) {
        StepKeepsInv(x, run(j - 1), steps(j - 1));
        forall n ensures Compilable(x, run(j - 1), n) <==> Compilable(x, run(j), n) {
          StepKeepsCompilable(x, run(j - 1), steps(j - 1), n);
        }
      }
    }
  }

  lemma {:induction false} AllBecomeForeign(x: External, run: nat -> State, steps: nat -> Action, i: nat,
                                            names: set<string>)
    returns (j: nat)
    requires QuietRun(x, run, steps) && Fair(run, steps) && RendersText(x) && Inv(x, run(i))
    requires AllDecided(run(i)) && AllLasting(run(i)) && forall m :: Pendant(run(i), m) ==> m in names
    ensures i <= j && AllDecided(run(j)) && AllLasting(run(j)) && forall m :: !Pendant(run(j), m)
    decreases |names|
  {
    if m :| Pendant(run(i), m) {
      var k := BecomesForeign(x, run, steps, m, i);
      ReadsStay(x, run, steps, i, k);
      forall m' | Pendant(run(k), m') ensures m' in names - {m} {
        PendantBefore(x, run, steps, m', i, k);
      }
      j := AllBecomeForeign(x, run, steps, k, names - {m});
    } else {
      j := i;
    }
  }

  // ---------- the exact condition ----------

  /** No cycle, every policy compiles once fed, and what no live policy provides is there in the end. */
  ghost predicate WellFounded(x: External, s: State) {
    !Cyclic(Taking(s)) && (forall n :: Compilable(x, s, n)) && AllLasting(s)
  }

  /** Where a policy compiles, it compiles wherever it is fed. */
  lemma ConvergedIsCompilable(x: External, s: State, n: string)
    requires Converged(x, s) && Live(s, n)
    ensures Compilable(x, s, n) && Fed(ViewOf(s), s.cips[n].spec)
  {
    var spec := s.cips[n].spec;
    assert Settled(x, s, n);
    forall key | Reads(spec, key) ensures Supplies(ViewOf(s), key) {
      SuccessSupplies(x, ViewOf(s), spec, key);
    }
    forall w | SameOutside(ViewOf(s), w) && Fed(w, spec) ensures Inline(x, w, spec).Ok? {
      PrefixLike(x, true, ViewOf(s), w, spec, |Plan(spec)|);
    }
  }

  lemma ConvergedIsLasting(x: External, s: State)
    requires Converged(x, s)
    ensures AllLasting(s) && forall n :: Compilable(x, s, n)
  {
    forall n | Live(s, n) ensures Compilable(x, s, n) && Fed(ViewOf(s), s.cips[n].spec) {
      ConvergedIsCompilable(x, s, n);
    }
    forall n, m | Live(s, n) && Reads(s.cips[n].spec, m) && !Live(s, m) ensures Lasting(s, m) {
      SuppliesIs(s, m);
      assert Fed(ViewOf(s), s.cips[n].spec);
      assert m in s.cips ==> Settled(x, s, m);
    }
  }

  lemma ConvergedIsWellFounded(x: External, run: nat -> State, steps: nat -> Action, i: nat, n: nat)
    requires QuietRun(x, run, steps) && RendersText(x) && RendersAll(x) && Inv(x, run(i)) && AllDecided(run(i))
    requires i <= n && Converged(x, run(n))
    ensures WellFounded(x, run(i))
  {
    ReadsStay(x, run, steps, i, n);
    RunKeepsInvariant(x, run, steps, i, n);
    ConvergedIsLasting(x, run(n));
    if Cyclic(Taking(run(i))) {
      CyclicRunNeverConverges(x, run, steps, i, n);
    }
  }

  /** Without pendant jobs, what is well-founded is grounded. */
  lemma WellFoundedIsGrounded(x: External, s: State, rank: string -> nat, top: nat)
    requires (forall n :: Compilable(x, s, n)) && AllLasting(s) && AllDecided(s) && forall m :: !Pendant(s, m)
    requires TakesAll(s) && Ranked(s, rank, top)
    ensures Grounded(x, s, rank, top)
  {
    forall n, m | Live(s, n) && Reads(s.cips[n].spec, m) && !Live(s, m)
      ensures Foreign(s, m) && Supplies(ViewOf(s), m)
    {
      assert ReadBySome(s, m) && !Pendant(s, m) && Lasting(s, m);
    }
  }

  lemma {:induction false} RunStaysRanked(x: External, run: nat -> State, steps: nat -> Action, rank: string -> nat,
                                          top: nat, i: nat, j: nat)
    requires QuietRun(x, run, steps) && i <= j && Ranked(run(i), rank, top) && TakesAll(run(i))
    ensures Ranked(run(j), rank, top) && TakesAll(run(j))
  {
    forall n ensures (Live(run(i), n) <==> Live(run(j), n)) &&
      (Live(run(i), n) ==> run(j).cips[n].spec == run(i).cips[n].spec)
    {
      StaysLive(x, run, steps, n, i, j);
    }
  }

  lemma WellFoundedConverges(x: External, run: nat -> State, steps: nat -> Action, i: nat)
    requires QuietRun(x, run, steps) && Fair(run, steps) && RendersText(x) && Inv(x, run(i))
    requires TakesAll(run(i)) && AllDecided(run(i)) && WellFounded(x, run(i))
    ensures exists n: nat :: i <= n && Converged(x, run(n))
  {
    var rank, top := AcyclicIsRanked(run(i));
    var j := AllBecomeForeign(x, run, steps, i, run(i).jobs.Keys);
    RunKeepsInvariant(x, run, steps, i, j);
    RunStaysRanked(x, run, steps, rank, top, i, j);
    WellFoundedIsGrounded(x, run(j), rank, top);
    GroundedRunConverges(x, run, steps, rank, top, j);
  }

  /**
   From any state the controller can be in, a quiet run that is fair settles if and only if taking has no cycle, every
   live policy compiles once the entries it reads are there, and those that no live policy provides are lasting.
   */
  lemma FairRunConvergesIff(x: External, run: nat -> State, steps: nat -> Action, i: nat)
    requires QuietRun(x, run, steps) && Fair(run, steps) && RendersText(x) && RendersAll(x)
    requires Inv(x, run(i)) && TakesAll(run(i)) && AllDecided(run(i))
    ensures (exists n: nat :: i <= n && Converged(x, run(n))) <==> WellFounded(x, run(i))
  {
    if n: nat :| i <= n && Converged(x, run(n)) {
      ConvergedIsWellFounded(x, run, steps, i, n);
    }
    if WellFounded(x, run(i)) {
      WellFoundedConverges(x, run, steps, i);
    }
  }

  // ---------- after any run ----------

  lemma ObjectWriteKeepsAnchored(x: External, s: State, name: string, reply: Reply)
    requires Anchored(s, name) && name in s.jobs
    requires s.jobs[name].Fetched? || s.jobs[name].Reporting? || s.jobs[name].Releasing?
    ensures Anchored(AdvanceJob(x, s, name, reply), name)
  {
  }

  lemma AdvanceKeepsAnchored(x: External, s: State, name: string, reply: Reply)
    requires Anchored(s, name) && name in s.jobs
    ensures Anchored(AdvanceJob(x, s, name, reply), name)
  {
    var j := s.jobs[name];
    if j.Inlining? {
      InlineNextOnlyReads(x, s, name, j, reply);
    } else if j.Fetched? || j.Reporting? || j.Releasing? {
      ObjectWriteKeepsAnchored(x, s, name, reply);
    } else {
      EntryWriteKeepsObjects(x, s, name, reply);
    }
  }

  lemma StepKeepsAnchored(x: External, s: State, a: Action, m: string)
    requires Enabled(s, a) && Anchored(s, m)
    ensures Anchored(Apply(x, s, a), m)
  {
    if OnOnePolicy(a) && a.name != m {
      ApplyTouches(x, s, a);
    } else if a.Advance? {
      AdvanceKeepsAnchored(x, s, m, a.reply);
    }
  }

  lemma {:induction false} RunKeepsAnchored(x: External, s: State, actions: seq<Action>, m: string)
    requires IsRun(x, s, actions) && Anchored(s, m)
    ensures Anchored(After(x, s, actions), m)
    decreases |actions|
  {
    if actions != [] {
      StepKeepsAnchored(x, s, actions[0], m);
      RunKeepsAnchored(x, Apply(x, s, actions[0]), actions[1..], m);
    }
  }

  /** No entry that a live policy reads has a job that has outlived its object and still compiles it. */
  ghost predicate NoneAdrift(s: State) {
    forall n, m :: Live(s, n) && Reads(s.cips[n].spec, m) ==> !Adrift(s, m)
  }

  /** In particular after any run of controller and environment, with any failures and restarts. */
  lemma SettlesAfterAnyRun(x: External, s: State, actions: seq<Action>, run: nat -> State, steps: nat -> Action)
    requires Init(s) && (forall m :: Anchored(s, m)) && IsRun(x, s, actions) && run(0) == After(x, s, actions)
    requires QuietRun(x, run, steps) && Fair(run, steps) && RendersText(x) && RendersAll(x)
    requires TakesAll(run(0)) && NoneAdrift(run(0))
    ensures (exists n: nat :: Converged(x, run(n))) <==> WellFounded(x, run(0))
  {
    RunKeepsInv(x, s, actions);
    forall m ensures Anchored(run(0), m) {
      RunKeepsAnchored(x, s, actions, m);
    }
    FairRunConvergesIff(x, run, steps, 0);
  }
}
