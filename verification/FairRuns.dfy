/**
 Fair scheduling: if every key with work is served in time, the loop settles from any state it can be in, a fresh start
 with no entry written among them, if taking has no cycle and every live policy compiles once the entries it reads are
 there. Entries appear rank by rank, and those that have appeared stay.
 */
module FairRuns {
  import opened V1alpha1
  import opened Inlining
  import opened EntryReads
  import opened Reconcile
  import opened QueuedOrSynced
  import opened Convergence

  ghost predicate Serves(s: State, a: Action, n: string) { (a.Start? || a.Advance?) && a.name == n && Enabled(s, a) }

  predicate Busy(s: State, n: string) { n in s.queue || n in s.jobs }

  /** Whoever has work is served some time later. */
  ghost predicate Fair(run: nat -> State, steps: nat -> Action) {
    forall i: nat, n :: Busy(run(i), n) ==> exists j: nat :: i <= j && Serves(run(j), steps(j), n)
  }

  // ---------- what the policies read ----------

  ghost predicate Fed(w: View, spec: Spec) { forall key :: Reads(spec, key) ==> Supplies(w, key) }

  /** The policy compiles as soon as the entries it reads are there, whatever their texts. */
  ghost predicate Compilable(x: External, s: State, n: string) {
    Live(s, n) ==> forall w :: SameOutside(ViewOf(s), w) && Fed(w, s.cips[n].spec) ==> Inline(x, w, s.cips[n].spec).Ok?
  }

  /** No policy is compiled into the entry, and no job is left that would write it or take it away. */
  ghost predicate Foreign(s: State, m: string) { m !in s.cips && m !in s.jobs }

  /** No live policy reads the entry of a policy on its way out. */
  ghost predicate NoneLeaving(s: State) {
    forall n, m :: Live(s, n) && Reads(s.cips[n].spec, m) ==> Live(s, m) || Foreign(s, m)
  }

  /** What live policies read besides each other's entries is there. */
  ghost predicate OthersThere(s: State) {
    forall n, m :: Live(s, n) && Reads(s.cips[n].spec, m) && !Live(s, m) ==> Supplies(ViewOf(s), m)
  }

  ghost predicate ReadsDown(s: State, rank: string -> nat, top: nat) {
    && (forall n :: Live(s, n) ==> rank(n) < top)
    && (forall n, m :: Live(s, n) && Live(s, m) && Reads(s.cips[n].spec, m) ==> rank(m) < rank(n))
  }

  ghost predicate Grounded(x: External, s: State, rank: string -> nat, top: nat) {
    NoneLeaving(s) && OthersThere(s) && ReadsDown(s, rank, top) && forall n :: Compilable(x, s, n)
  }

  // ---------- entries that are up ----------

  /** The entry is there, and no job is bound to take it away. */
  ghost predicate Up(x: External, s: State, n: string) { Supplies(ViewOf(s), n) && NotDoomed(x, s, n) }

  ghost predicate AllUp(x: External, s: State, rank: string -> nat, r: nat) {
    forall n :: Live(s, n) && rank(n) < r ==> Up(x, s, n)
  }

  ghost predicate Stage(x: External, s: State, rank: string -> nat, top: nat, r: nat) {
    Inv(x, s) && Grounded(x, s, rank, top) && AllUp(x, s, rank, r)
  }

  lemma StageFeeds(x: External, s: State, rank: string -> nat, top: nat, r: nat, n: string)
    requires Stage(x, s, rank, top, r) && (Live(s, n) ==> rank(n) <= r)
    ensures Compiles(x, s, n) && (Live(s, n) ==> Fed(ViewOf(s), s.cips[n].spec))
  {
    if Live(s, n) {
      forall m | Reads(s.cips[n].spec, m) ensures Supplies(ViewOf(s), m) {
        assert Live(s, m) || Foreign(s, m);
      }
      assert Compilable(x, s, n) && SameOutside(ViewOf(s), ViewOf(s));
    }
  }

  lemma ForeignStays(x: External, s: State, a: Action, m: string)
    requires Foreign(s, m) && QuietStep(x, s, a)
    ensures Foreign(Apply(x, s, a), m)
    ensures Supplies(ViewOf(s), m) <==> Supplies(ViewOf(Apply(x, s, a)), m)
  {
    ApplyTouches(x, s, a);
    SuppliesIs(s, m);
    SuppliesIs(Apply(x, s, a), m);
  }

  /** A quiet step changes none of this: it is about specs, and about what lies outside. */
  lemma StepKeepsReads(x: External, s: State, a: Action)
    requires NoneLeaving(s) && QuietStep(x, s, a)
    ensures NoneLeaving(Apply(x, s, a)) && (OthersThere(s) <==> OthersThere(Apply(x, s, a)))
  {
    var s' := Apply(x, s, a);
    forall n ensures (Live(s', n) <==> Live(s, n)) && (Live(s, n) ==> s'.cips[n].spec == s.cips[n].spec) {
      StepKeepsLive(x, s, a, n);
    }
    forall n, m | Live(s, n) && Reads(s.cips[n].spec, m) && !Live(s, m)
      ensures Foreign(s', m) && (Supplies(ViewOf(s), m) <==> Supplies(ViewOf(s'), m))
    {
      ForeignStays(x, s, a, m);
    }
  }

  lemma StepKeepsCompilable(x: External, s: State, a: Action, n: string)
    requires QuietStep(x, s, a)
    ensures Compilable(x, s, n) <==> Compilable(x, Apply(x, s, a), n)
  {
    ApplyTouches(x, s, a);
    StepKeepsLive(x, s, a, n);
  }

  lemma StepKeepsGrounded(x: External, s: State, a: Action, rank: string -> nat, top: nat)
    requires Grounded(x, s, rank, top) && QuietStep(x, s, a)
    ensures Grounded(x, Apply(x, s, a), rank, top)
  {
    var s' := Apply(x, s, a);
    StepKeepsReads(x, s, a);
    forall n ensures
      && (Live(s', n) <==> Live(s, n)) && (Live(s, n) ==> s'.cips[n].spec == s.cips[n].spec)
      && Compilable(x, s', n)
    {
      StepKeepsLive(x, s, a, n);
      assert Compilable(x, s, n);
      StepKeepsCompilable(x, s, a, n);
    }
  }

  /** Before the entry is written. */
  predicate Early(j: Job) { j.Fetched? || j.Inlining? || j.Publishing? }

  lemma FetchedIsEarly(x: External, s: State, n: string)
    requires n in s.jobs && s.jobs[n].Fetched? && Sound(x, s, n, s.jobs[n])
    ensures var s' := AdvanceJob(x, s, n, Done); n in s'.jobs && Early(s'.jobs[n])
  {
  }

  lemma PublishingSupplies(x: External, s: State, n: string)
    requires n in s.jobs && s.jobs[n].Publishing? && RendersText(x)
    ensures var s' := AdvanceJob(x, s, n, Done); n in s'.jobs && Supplies(ViewOf(s'), n)
  {
    SuppliesIs(AdvanceJob(x, s, n, Done), n);
  }

  /** A sound job stays sound, and one that is early comes to write the entry. */
  lemma SoundStep(x: External, s: State, n: string)
    requires n in s.jobs && Sound(x, s, n, s.jobs[n]) && Live(s, n) && Compiles(x, s, n) && RendersText(x)
    ensures var s' := AdvanceJob(x, s, n, Done);
      && NotDoomed(x, s', n)
      && (Early(s.jobs[n]) ==> n in s'.jobs && (Early(s'.jobs[n]) || Supplies(ViewOf(s'), n)))
  {
    match s.jobs[n]
    case Fetched(_) =>
      FetchedProgress(x, s, n);
      FetchedIsEarly(x, s, n);
    case Inlining(_, _, _, _, _) =>
      InliningProgress(x, s, n);
      InliningStaysAlike(x, s, n, s.jobs[n], true);
    case Publishing(_, _, _) =>
      Published(x, s, n);
      PublishingSupplies(x, s, n);
    case Reporting(_, _, _, _) => ReportingProgress(x, s, n);
  }

  lemma OwnStepKeepsUp(x: External, s: State, a: Action)
    requires QuietStep(x, s, a) && Live(s, a.name) && Compiles(x, s, a.name) && RendersText(x) && Up(x, s, a.name)
    ensures Up(x, Apply(x, s, a), a.name)
  {
    SuppliesIs(s, a.name);
    SuppliesIs(Apply(x, s, a), a.name);
    if a.Advance? {
      SoundStep(x, s, a.name);
      SoundKeepsEntry(x, s, a.name);
    }
  }

  lemma OtherStepKeepsJob(x: External, s: State, a: Action, rank: string -> nat, top: nat, r: nat, n: string)
    requires Stage(x, s, rank, top, r) && QuietStep(x, s, a) && RendersText(x)
    requires Live(s, n) && rank(n) <= r && n != a.name && n in s.jobs
    ensures Sound(x, s, n, s.jobs[n]) <==> Sound(x, Apply(x, s, a), n, s.jobs[n])
  {
    ApplyTouches(x, s, a);
    StageFeeds(x, s, rank, top, r, n);
    if Reads(s.cips[n].spec, a.name) {
      if Live(s, a.name) {
        StageFeeds(x, s, rank, top, r, a.name);
        OwnStepKeepsUp(x, s, a);
      } else {
        ForeignStays(x, s, a, a.name);
      }
    }
    SparedSound(x, s, Apply(x, s, a), a.name, n);
  }

  lemma StepKeepsUp(x: External, s: State, a: Action, rank: string -> nat, top: nat, r: nat, n: string)
    requires Stage(x, s, rank, top, r) && QuietStep(x, s, a) && RendersText(x)
    requires Live(s, n) && rank(n) <= r && Up(x, s, n)
    ensures Up(x, Apply(x, s, a), n)
  {
    if n == a.name {
      StageFeeds(x, s, rank, top, r, n);
      OwnStepKeepsUp(x, s, a);
    } else {
      ApplyTouches(x, s, a);
      SuppliesIs(s, n);
      SuppliesIs(Apply(x, s, a), n);
      if n in s.jobs {
        OtherStepKeepsJob(x, s, a, rank, top, r, n);
      }
    }
  }

  lemma StepKeepsStage(x: External, s: State, a: Action, rank: string -> nat, top: nat, r: nat)
    requires Stage(x, s, rank, top, r) && QuietStep(x, s, a) && RendersText(x)
    ensures Stage(x, Apply(x, s, a), rank, top, r)
  {
    var s' := Apply(x, s, a);
    StepKeepsInv(x, s, a);
    StepKeepsGrounded(x, s, a, rank, top);
    forall n | Live(s', n) && rank(n) < r ensures Up(x, s', n) {
      StepKeepsLive(x, s, a, n);
      StepKeepsUp(x, s, a, rank, top, r, n);
    }
  }

  // ---------- the way up ----------

  /** How many times a policy has still to be served until its entry is up. */
  ghost function Distance(x: External, s: State, n: string): nat
    requires Live(s, n)
  {
    var all := 2 * |Plan(s.cips[n].spec)| + 7;
    if Up(x, s, n) then 0
    else if n !in s.jobs then all
    else if Sound(x, s, n, s.jobs[n]) && Early(s.jobs[n]) then Left(s.jobs[n])
    else all + Left(s.jobs[n])
  }

  lemma NotUpIsBusy(x: External, s: State, n: string)
    requires Inv(x, s) && Live(s, n) && !Up(x, s, n) && RendersText(x)
    ensures Busy(s, n)
  {
    assert Good(x, s, n);
    SuppliesIs(s, n);
  }

  lemma OwnStepShortens(x: External, s: State, a: Action)
    requires Inv(x, s) && QuietStep(x, s, a) && Live(s, a.name) && Compiles(x, s, a.name) && RendersText(x)
    requires !Up(x, s, a.name)
    ensures Live(Apply(x, s, a), a.name) && Distance(x, Apply(x, s, a), a.name) < Distance(x, s, a.name)
  {
    StepKeepsLive(x, s, a, a.name);
    if a.Start? {
      StartedIsNear(x, s, a.name);
    } else {
      assert Good(x, s, a.name);
      StepShortens(x, s, a.name);
      if Sound(x, s, a.name, s.jobs[a.name]) {
        SoundStep(x, s, a.name);
      }
    }
  }

  lemma StartedIsNear(x: External, s: State, n: string)
    requires n in s.queue && n !in s.jobs && Live(s, n) && !Up(x, s, n)
    ensures Live(StartJob(s, n), n) && Distance(x, StartJob(s, n), n) < Distance(x, s, n)
  {
  }

  lemma OtherStepKeepsDistance(x: External, s: State, a: Action, rank: string -> nat, top: nat, r: nat, n: string)
    requires Stage(x, s, rank, top, r) && QuietStep(x, s, a) && RendersText(x)
    requires Live(s, n) && rank(n) <= r && n != a.name
    ensures Live(Apply(x, s, a), n) && Distance(x, Apply(x, s, a), n) == Distance(x, s, n)
  {
    ApplyTouches(x, s, a);
    SuppliesIs(s, n);
    SuppliesIs(Apply(x, s, a), n);
    if n in s.jobs {
      OtherStepKeepsJob(x, s, a, rank, top, r, n);
    }
  }

  /** No step leads away, and being served leads nearer. */
  lemma StepComesNearer(x: External, s: State, a: Action, rank: string -> nat, top: nat, r: nat, n: string)
    requires Stage(x, s, rank, top, r) && QuietStep(x, s, a) && RendersText(x) && Live(s, n) && rank(n) <= r
    ensures Live(Apply(x, s, a), n) && Distance(x, Apply(x, s, a), n) <= Distance(x, s, n)
    ensures a.name == n && !Up(x, s, n) ==> Distance(x, Apply(x, s, a), n) < Distance(x, s, n)
  {
    if a.name != n {
      OtherStepKeepsDistance(x, s, a, rank, top, r, n);
    } else if Up(x, s, n) {
      StepKeepsUp(x, s, a, rank, top, r, n);
      StepKeepsLive(x, s, a, n);
    } else {
      StageFeeds(x, s, rank, top, r, n);
      OwnStepShortens(x, s, a);
    }
  }

  // ---------- runs ----------

  lemma {:induction false} RunComesNearer(x: External, run: nat -> State, steps: nat -> Action, rank: string -> nat,
                                          top: nat, r: nat, n: string, i: nat, j: nat)
    requires QuietRun(x, run, steps) && RendersText(x) && i <= j
    requires Stage(x, run(i), rank, top, r) && Live(run(i), n) && rank(n) <= r
    ensures Stage(x, run(j), rank, top, r) && Live(run(j), n)
    ensures Distance(x, run(j), n) <= Distance(x, run(i), n)
    decreases j
  {
    hide Stage, Distance, Live, QuietStep;
    if i < j {
      RunComesNearer(x, run, steps, rank, top, r, n, i, j - 1);
      assert Follows(x, run(j - 1), steps(j - 1), run(j - 1 + 1));
      if run(j) != run(j - 1) {
        StepKeepsStage(x, run(j - 1), steps(j - 1), rank, top, r);
        StepComesNearer(x, run(j - 1), steps(j - 1), rank, top, r, n);
      }
    }
  }

  lemma ServedComesNearer(x: External, run: nat -> State, steps: nat -> Action, rank: string -> nat, top: nat, r: nat,
                          n: string, k: nat)
    requires QuietRun(x, run, steps) && RendersText(x) && Serves(run(k), steps(k), n) && !Up(x, run(k), n)
    requires Stage(x, run(k), rank, top, r) && Live(run(k), n) && rank(n) <= r
    ensures Stage(x, run(k + 1), rank, top, r) && Live(run(k + 1), n)
    ensures Distance(x, run(k + 1), n) < Distance(x, run(k), n)
  {
    assert Follows(x, run(k), steps(k), run(k + 1));
    StepComesNearer(x, run(k), steps(k), rank, top, r, n);
    RunKeepsStage(x, run, steps, rank, top, r, k, k + 1);
  }

  lemma {:induction false} ComesUp(x: External, run: nat -> State, steps: nat -> Action, rank: string -> nat, top: nat,
                                   r: nat, n: string, i: nat)
    returns (j: nat)
    requires QuietRun(x, run, steps) && Fair(run, steps) && RendersText(x)
    requires Stage(x, run(i), rank, top, r) && Live(run(i), n) && rank(n) <= r
    ensures i <= j && Up(x, run(j), n)
    decreases Distance(x, run(i), n)
  {
    j := i;
    if !Up(x, run(i), n) {
      NotUpIsBusy(x, run(i), n);
      var k: nat :| i <= k && Serves(run(k), steps(k), n);
      RunComesNearer(x, run, steps, rank, top, r, n, i, k);
      j := k;
      if !Up(x, run(k), n) {
        ServedComesNearer(x, run, steps, rank, top, r, n, k);
        j := ComesUp(x, run, steps, rank, top, r, n, k + 1);
      }
    }
  }

  lemma Risen(x: External, run: nat -> State, steps: nat -> Action, rank: string -> nat, top: nat, r: nat, n: string,
              i: nat, j: nat)
    requires QuietRun(x, run, steps) && RendersText(x) && i <= j
    requires Stage(x, run(i), rank, top, r) && Live(run(j), n) && rank(n) <= r
    ensures Live(run(i), n) && (Up(x, run(i), n) ==> Up(x, run(j), n))
  {
    StaysLive(x, run, steps, n, i, j);
    RunComesNearer(x, run, steps, rank, top, r, n, i, j);
  }

  lemma {:induction false} StaysLive(x: External, run: nat -> State, steps: nat -> Action, n: string, i: nat, j: nat)
    requires QuietRun(x, run, steps) && i <= j
    ensures Live(run(i), n) <==> Live(run(j), n)
    ensures Live(run(i), n) ==> run(j).cips[n].spec == run(i).cips[n].spec
    decreases j
  {
    if i < j {
      StaysLive(x, run, steps, n, i, j - 1);
      assert Follows(x, run(j - 1), steps(j - 1), run(j - 1 + 1));
      if run(j) != run(j - 1) {
        StepKeepsLive(x, run(j - 1), steps(j - 1), n);
      }
    }
  }

  lemma {:induction false} RunKeepsStage(x: External, run: nat -> State, steps: nat -> Action, rank: string -> nat,
                                         top: nat, r: nat, i: nat, j: nat)
    requires QuietRun(x, run, steps) && RendersText(x) && i <= j && Stage(x, run(i), rank, top, r)
    ensures Stage(x, run(j), rank, top, r)
    decreases j
  {
    if i < j {
      RunKeepsStage(x, run, steps, rank, top, r, i, j - 1);
      assert Follows(x, run(j - 1), steps(j - 1), run(j - 1 + 1));
      if run(j) != run(j - 1) {
        StepKeepsStage(x, run(j - 1), steps(j - 1), rank, top, r);
      }
    }
  }

  /** The policies of a rank whose entries are not up. */
  ghost predicate Missing(x: External, s: State, rank: string -> nat, r: nat, n: string) {
    Live(s, n) && rank(n) == r && !Up(x, s, n)
  }

  lemma {:induction false} RankComesUp(x: External, run: nat -> State, steps: nat -> Action, rank: string -> nat,
                                       top: nat, r: nat, i: nat, names: set<string>)
    returns (j: nat)
    requires QuietRun(x, run, steps) && Fair(run, steps) && RendersText(x) && Stage(x, run(i), rank, top, r)
    requires forall n :: Missing(x, run(i), rank, r, n) ==> n in names
    ensures i <= j && Stage(x, run(j), rank, top, r + 1)
    decreases |names|
  {
    if n :| Missing(x, run(i), rank, r, n) {
      var k := ComesUp(x, run, steps, rank, top, r, n, i);
      RunKeepsStage(x, run, steps, rank, top, r, i, k);
      forall m | Missing(x, run(k), rank, r, m) ensures m in names - {n} {
        Risen(x, run, steps, rank, top, r, m, i, k);
        assert Missing(x, run(i), rank, r, m);
      }
      j := RankComesUp(x, run, steps, rank, top, r, k, names - {n});
    } else {
      j := i;
      forall n | Live(run(i), n) && rank(n) < r + 1 ensures Up(x, run(i), n) {
        assert !Missing(x, run(i), rank, r, n);
      }
    }
  }

  lemma {:induction false} AllComeUp(x: External, run: nat -> State, steps: nat -> Action, rank: string -> nat,
                                     top: nat, r: nat, i: nat)
    returns (j: nat)
    requires QuietRun(x, run, steps) && Fair(run, steps) && RendersText(x) && Stage(x, run(i), rank, top, r)
    requires r <= top
    ensures i <= j && Stage(x, run(j), rank, top, top)
    decreases top - r
  {
    j := i;
    if r < top {
      j := RankComesUp(x, run, steps, rank, top, r, i, run(i).cips.Keys);
      j := AllComeUp(x, run, steps, rank, top, r + 1, j);
    }
  }

  lemma LastStageCompiles(x: External, s: State, rank: string -> nat, top: nat)
    requires Stage(x, s, rank, top, top)
    ensures AllCompile(x, s) && Ranked(s, rank, top)
  {
    forall n ensures Compiles(x, s, n) {
      StageFeeds(x, s, rank, top, top, n);
    }
    forall n, m | Live(s, n) && Live(s, m) && Takes(s.cips[n].spec, m) ensures rank(m) < rank(n) {
      TakesReads(s.cips[n].spec, m);
    }
  }

  lemma TakesReads(spec: Spec, m: string)
    requires Takes(spec, m)
    ensures Reads(spec, m)
  {
    var place :| TakesAt(spec, place, m);
    assert ReadsAt(spec, place, m);
  }

  lemma GroundedRunConverges(x: External, run: nat -> State, steps: nat -> Action, rank: string -> nat, top: nat,
                             i: nat)
    requires QuietRun(x, run, steps) && Fair(run, steps) && RendersText(x)
    requires Inv(x, run(i)) && Grounded(x, run(i), rank, top)
    ensures exists n: nat :: i <= n && Converged(x, run(n))
  {
    var j := AllComeUp(x, run, steps, rank, top, 0, i);
    forall k: nat | j <= k ensures AllCompile(x, run(k)) && Ranked(run(k), rank, top) {
      RunKeepsStage(x, run, steps, rank, top, top, j, k);
      LastStageCompiles(x, run(k), rank, top);
    }
    RankedRunConverges(x, run, steps, rank, top, j);
  }
}
