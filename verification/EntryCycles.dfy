/**
 Exactly when the loop settles on policies that take text from the entries of others: when taking has no cycle. Round a
 cycle every entry would have to be longer than the next.
 */
module EntryCycles {
  import opened Inlining
  import opened EntryReads
  import opened Cycles
  import opened Reconcile
  import opened QueuedOrSynced
  import opened Convergence

  ghost predicate TakesFrom(s: State, n: string, m: string) { Live(s, n) && Live(s, m) && Takes(s.cips[n].spec, m) }

  ghost function Taking(s: State): (string, string) -> bool { (n, m) => TakesFrom(s, n, m) }

  /** No remote policy overwrites what was read, as validation demands. */
  ghost predicate TakesAll(s: State) {
    forall n, m :: Live(s, n) && Reads(s.cips[n].spec, m) ==> Takes(s.cips[n].spec, m)
  }

  /** A rendered policy is longer than any policy text in it. */
  ghost predicate RendersAll(x: External) {
    forall uid, version, spec, place ::
      PolicyAt(spec, place).Some? ==> |x.render(uid, version, spec)| > |PolicyAt(spec, place).value.data|
  }

  // ---------- with a cycle ----------

  lemma TakingShortens(x: External, s: State, n: string, m: string)
    requires RendersAll(x) && TakesFrom(s, n, m) && Synced(x, s, n)
    ensures m in Entries(s) && |Entries(s)[m]| < |Entries(s)[n]|
  {
    var spec := s.cips[n].spec;
    var place :| TakesAt(spec, place, m);
    TakenText(x, ViewOf(s), spec, place, m);
    SuppliesIs(s, m);
  }

  /** Round a cycle, of one policy or of several, not every policy is in sync. */
  lemma CycleNeverSynced(x: External, s: State, p: seq<string>)
    requires RendersAll(x) && IsCycle(Taking(s), p)
    ensures exists i | 0 <= i < |p| :: Live(s, p[i]) && !Synced(x, s, p[i])
  {
    forall i | 0 <= i < |p| ensures Live(s, p[i]) {
      var k := if i < |p| - 1 then i else 0;
      assert Taking(s)(p[k], p[k + 1]);
    }
    if forall i | 0 <= i < |p| :: Synced(x, s, p[i]) {
      var size := n => if n in Entries(s) then |Entries(s)[n]| else 0;
      forall i | 0 <= i < |p| - 1 ensures size(p[i + 1]) < size(p[i]) {
        assert Taking(s)(p[i], p[i + 1]);
        TakingShortens(x, s, p[i], p[i + 1]);
      }
      WalkDescends(Taking(s), p, size);
    }
  }

  lemma CycleNeverConverged(x: External, s: State)
    requires RendersAll(x) && Cyclic(Taking(s))
    ensures !Converged(x, s)
  {
    var p :| IsCycle(Taking(s), p);
    CycleNeverSynced(x, s, p);
  }

  /** So in every reachable state with a cycle some policy of it is queued or in work: the loop never comes to rest. */
  lemma CycleNeverRests(x: External, s: State, actions: seq<Action>, p: seq<string>)
    requires Init(s) && IsRun(x, s, actions) && RendersAll(x) && IsCycle(Taking(After(x, s, actions)), p)
    ensures var s' := After(x, s, actions); exists i | 0 <= i < |p| :: p[i] in s'.queue || p[i] in s'.jobs
  {
    var s' := After(x, s, actions);
    RunKeepsInv(x, s, actions);
    CycleNeverSynced(x, s', p);
    var i :| 0 <= i < |p| && Live(s', p[i]) && !Synced(x, s', p[i]);
    assert Good(x, s', p[i]);
  }

  // ---------- without a cycle ----------

  lemma AcyclicIsRanked(s: State) returns (rank: string -> nat, top: nat)
    requires !Cyclic(Taking(s))
    ensures Ranked(s, rank, top)
  {
    rank, top := RankExists(Taking(s), s.cips.Keys);
    forall n, m | TakesFrom(s, n, m) ensures rank(m) < rank(n) {
      assert Taking(s)(n, m);
    }
  }

  /** A quiet run along which every live policy compiles. */
  lemma CompilingRunConverges(x: External, run: nat -> State, steps: nat -> Action, i: nat)
    requires Inv(x, run(i)) && QuietRun(x, run, steps) && CompilesFrom(x, run, i) && RendersText(x)
    requires !Cyclic(Taking(run(i)))
    ensures exists n: nat :: i <= n && Converged(x, run(n))
  {
    var rank, top := AcyclicIsRanked(run(i));
    RankedRunConverges(x, run, steps, rank, top, i);
  }

  lemma StepKeepsCycle(x: External, s: State, a: Action, p: seq<string>)
    requires QuietStep(x, s, a) && IsCycle(Taking(s), p)
    ensures IsCycle(Taking(Apply(x, s, a)), p)
  {
    forall i | 0 <= i < |p| - 1 ensures Taking(Apply(x, s, a))(p[i], p[i + 1]) {
      assert Taking(s)(p[i], p[i + 1]);
      StepKeepsLive(x, s, a, p[i]);
      StepKeepsLive(x, s, a, p[i + 1]);
    }
  }

  lemma {:induction false} RunKeepsCycle(x: External, run: nat -> State, steps: nat -> Action, i: nat, n: nat,
                                         p: seq<string>)
    requires QuietRun(x, run, steps) && i <= n && IsCycle(Taking(run(i)), p)
    ensures IsCycle(Taking(run(n)), p)
    decreases n
  {
    hide IsCycle, QuietStep;
    if i < n {
      RunKeepsCycle(x, run, steps, i, n - 1, p);
      assert Follows(x, run(n - 1), steps(n - 1), run(n - 1 + 1));
      if run(n) != run(n - 1) {
        StepKeepsCycle(x, run(n - 1), steps(n - 1), p);
      }
    }
  }

  lemma CyclicRunNeverConverges(x: External, run: nat -> State, steps: nat -> Action, i: nat, n: nat)
    requires QuietRun(x, run, steps) && RendersAll(x) && i <= n && Cyclic(Taking(run(i)))
    ensures !Converged(x, run(n))
  {
    var p :| IsCycle(Taking(run(i)), p);
    RunKeepsCycle(x, run, steps, i, n, p);
    CycleNeverConverged(x, run(n));
  }
}
