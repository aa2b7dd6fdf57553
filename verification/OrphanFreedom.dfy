/**
 Orphan freedom: every entry belongs to a stored policy that carries the finalizer, over every run with arbitrary
 failures, edits and restarts, exactly as long as nobody else writes an unprotected entry into the ConfigMap of compiled
 policies or takes the finalizer off a policy that has an entry or may yet get one from a job under way.
 */
module OrphanFreedom {
  import opened V1alpha1
  import opened Inlining
  import opened EntryReads
  import opened Reconcile
  import opened QueuedOrSynced

  predicate Held(s: State, name: string) { name in s.cips && OURS in s.cips[name].finalizers }

  /** The visits from the k-th on can succeed, each at a time of its own, though the policy's own entry is not there. */
  ghost predicate CanGoOn(x: External, name: string, spec: Spec, k: nat, partial: Spec)
    decreases |Plan(spec)| - k
  {
    k < |Plan(spec)| ==>
      exists w :: CanVisit(x, w, name, partial, Plan(spec)[k]) &&
        CanGoOn(x, name, spec, k + 1, Exec(x, w, partial, Plan(spec)[k]).value)
  }

  ghost predicate CanVisit(x: External, w: View, name: string, partial: Spec, op: Op) {
    !Supplies(w, name) && Exec(x, w, partial, op).Ok?
  }

  /** The job may yet write its entry. */
  ghost predicate CanPublish(x: External, name: string, j: Job) {
    match j
    case Fetched(orig) => OURS in orig.finalizers && CanGoOn(x, name, orig.spec, 0, orig.spec)
    case Inlining(_, res, partial, k, _) => CanGoOn(x, name, res.spec, k, partial)
    case Publishing(_, _, _) => true
    case _ => false
  }

  /** The job is about to take our finalizer off, and the server will accept that. */
  predicate Unlocking(s: State, name: string) {
    && name in s.jobs && s.jobs[name].Releasing?
    && OURS in s.jobs[name].orig.finalizers && PatchAccepted(s, name, s.jobs[name].orig)
  }

  ghost predicate NoOrphan(x: External, s: State, name: string) {
    && (name in Entries(s) ==> Held(s, name) && !Unlocking(s, name))
    && (name in s.jobs && CanPublish(x, name, s.jobs[name]) ==> Held(s, name))
  }

  ghost predicate NoOrphans(x: External, s: State) { forall name :: NoOrphan(x, s, name) }

  /** Someone other than the controller writes an unprotected entry, or takes our finalizer off where it is needed. */
  ghost predicate Meddles(x: External, s: State, a: Action) {
    || (a.SetImagePolicies? && a.data.Some? && exists n :: n in a.data.value && (!Held(s, n) || Unlocking(s, n)))
    || (a.Touch? && Held(s, a.name) && OURS !in a.finalizers &&
        (a.name in Entries(s) || (a.name in s.jobs && CanPublish(x, a.name, s.jobs[a.name]))))
  }

  // ---------- the controller ----------

  lemma FetchedKeepsOne(x: External, s: State, name: string, reply: Reply)
    requires NoOrphan(x, s, name) && name in s.jobs && s.jobs[name].Fetched?
    ensures NoOrphan(x, AdvanceJob(x, s, name, reply), name)
    ensures Held(s, name) ==> Held(AdvanceJob(x, s, name, reply), name)
  {
    hide CanGoOn;
  }

  lemma OneVisitLess(x: External, s: State, name: string, spec: Spec, k: nat, partial: Spec)
    requires k < |Plan(spec)| && name !in Entries(s) && Exec(x, ViewOf(s), partial, Plan(spec)[k]).Ok?
    requires CanGoOn(x, name, spec, k + 1, Exec(x, ViewOf(s), partial, Plan(spec)[k]).value)
    ensures CanGoOn(x, name, spec, k, partial)
  {
    assert CanVisit(x, ViewOf(s), name, partial, Plan(spec)[k]);
  }

  /** Inlining does not get any nearer to publishing than it could. */
  lemma InliningKeepsOne(x: External, s: State, name: string, reply: Reply)
    requires NoOrphan(x, s, name) && name in s.jobs && s.jobs[name].Inlining?
    ensures NoOrphan(x, AdvanceJob(x, s, name, reply), name)
    ensures Held(s, name) ==> Held(AdvanceJob(x, s, name, reply), name)
  {
    var j, s' := s.jobs[name], AdvanceJob(x, s, name, reply);
    InlineNextOnlyReads(x, s, name, j, reply);
    if name !in Entries(s) && CanPublish(x, name, s'.jobs[name]) && !CanPublish(x, name, j) {
      OneVisitLess(x, s, name, j.res.spec, j.k, j.partial);
    }
  }

  lemma WriteKeepsOne(x: External, s: State, name: string, reply: Reply)
    requires NoOrphan(x, s, name) && name in s.jobs
    requires s.jobs[name].Publishing? || s.jobs[name].Withdrawing? || s.jobs[name].Finalizing?
    ensures NoOrphan(x, AdvanceJob(x, s, name, reply), name)
    ensures Held(s, name) ==> Held(AdvanceJob(x, s, name, reply), name)
  {
    hide CanGoOn;
    EntryWriteKeepsObjects(x, s, name, reply);
  }

  lemma ReportKeepsFinalizers(s: State, name: string, j: Job, reply: Reply)
    requires j.Reporting?
    ensures var s' := Report(s, name, j, reply);
      s'.cm == s.cm && name !in s'.jobs && (Held(s, name) ==> Held(s', name))
  {
  }

  lemma ReportKeepsOne(x: External, s: State, name: string, reply: Reply)
    requires NoOrphan(x, s, name) && name in s.jobs && s.jobs[name].Reporting?
    ensures NoOrphan(x, AdvanceJob(x, s, name, reply), name)
    ensures Held(s, name) ==> Held(AdvanceJob(x, s, name, reply), name)
  {
    hide CanGoOn, Held, Report;
    ReportKeepsFinalizers(s, name, s.jobs[name], reply);
  }

  lemma ReleaseKeepsOne(x: External, s: State, name: string, reply: Reply)
    requires NoOrphan(x, s, name) && name in s.jobs && s.jobs[name].Releasing?
    ensures NoOrphan(x, AdvanceJob(x, s, name, reply), name)
    ensures Held(s, name) && !Held(AdvanceJob(x, s, name, reply), name) ==>
      name !in Entries(s) && name !in Entries(AdvanceJob(x, s, name, reply))
  {
    hide CanGoOn;
  }

  lemma AdvanceKeepsOne(x: External, s: State, name: string, reply: Reply)
    requires NoOrphan(x, s, name) && name in s.jobs
    ensures NoOrphan(x, AdvanceJob(x, s, name, reply), name)
    ensures Held(s, name) && !Held(AdvanceJob(x, s, name, reply), name) ==>
      s.jobs[name].Releasing? && name !in Entries(s) && name !in Entries(AdvanceJob(x, s, name, reply))
  {
    hide CanGoOn;
    var j := s.jobs[name];
    match j
    case Fetched(_) => FetchedKeepsOne(x, s, name, reply);
    case Inlining(_, _, _, _, _) => InliningKeepsOne(x, s, name, reply);
    case Reporting(_, _, _, _) => ReportKeepsOne(x, s, name, reply);
    case Releasing(_) => ReleaseKeepsOne(x, s, name, reply);
    case _ => WriteKeepsOne(x, s, name, reply);
  }

  // ---------- everybody ----------

  lemma OtherKeepsOne(x: External, s: State, s': State, touched: string, name: string)
    requires OnlyTouches(s, s', touched) && name != touched && NoOrphan(x, s, name)
    ensures NoOrphan(x, s', name)
    ensures Held(s, name) ==> Held(s', name)
  {
    hide CanGoOn;
  }

  lemma TouchKeepsOne(x: External, s: State, a: Action)
    requires a.Touch? && NoOrphan(x, s, a.name) && VersionsOk(s, a.name) && Enabled(s, a) && !Meddles(x, s, a)
    ensures NoOrphan(x, Apply(x, s, a), a.name)
  {
    hide CanGoOn;
  }

  lemma ForeignWriteKeepsOne(x: External, s: State, a: Action, name: string)
    requires a.SetImagePolicies? && NoOrphan(x, s, name) && !Meddles(x, s, a)
    ensures NoOrphan(x, Apply(x, s, a), name)
  {
    hide CanGoOn;
    var s' := Apply(x, s, a);
    if name in Entries(s') {
      assert Held(s, name) && !Unlocking(s, name);
    }
  }

  lemma EnvironmentKeepsOne(x: External, s: State, a: Action, name: string)
    requires NoOrphan(x, s, name) && VersionsOk(s, name) && Enabled(s, a)
    requires !a.Touch? && !a.SetImagePolicies? && !a.Advance? && (OnOnePolicy(a) ==> a.name == name)
    ensures NoOrphan(x, Apply(x, s, a), name)
    ensures Held(s, name) ==> Held(Apply(x, s, a), name)
  {
    hide CanGoOn;
  }

  /** One step of anybody but a meddler makes no orphan. */
  lemma StepKeepsOne(x: External, s: State, a: Action, name: string)
    requires NoOrphan(x, s, name) && VersionsOk(s, name) && Enabled(s, a) && !Meddles(x, s, a)
    ensures NoOrphan(x, Apply(x, s, a), name)
  {
    hide CanGoOn;
    if OnOnePolicy(a) && a.name != name {
      ApplyTouches(x, s, a);
      OtherKeepsOne(x, s, Apply(x, s, a), a.name, name);
    } else if a.Advance? {
      AdvanceKeepsOne(x, s, name, a.reply);
    } else if a.Touch? {
      TouchKeepsOne(x, s, a);
    } else if a.SetImagePolicies? {
      ForeignWriteKeepsOne(x, s, a, name);
    } else {
      EnvironmentKeepsOne(x, s, a, name);
    }
  }

  /** The controller lets go of a policy in its release step alone, and only after the entry has gone. */
  lemma ReleasedAfterEntry(x: External, s: State, a: Action, name: string)
    requires NoOrphan(x, s, name) && VersionsOk(s, name) && Enabled(s, a) && !a.Touch?
    requires Held(s, name) && !Held(Apply(x, s, a), name)
    ensures a.Advance? && a.name == name && s.jobs[name].Releasing?
    ensures name !in Entries(s) && name !in Entries(Apply(x, s, a))
  {
    hide CanGoOn;
    if OnOnePolicy(a) && a.name != name {
      ApplyTouches(x, s, a);
      OtherKeepsOne(x, s, Apply(x, s, a), a.name, name);
    } else if a.Advance? {
      AdvanceKeepsOne(x, s, name, a.reply);
    } else if !a.SetImagePolicies? {
      EnvironmentKeepsOne(x, s, a, name);
    }
  }

  lemma MeddlingOrphans(x: External, s: State, a: Action)
    requires Enabled(s, a) && Meddles(x, s, a)
    ensures !NoOrphans(x, Apply(x, s, a))
  {
    hide CanGoOn;
    var s' := Apply(x, s, a);
    if a.Touch? {
      assert !NoOrphan(x, s', a.name);
    } else {
      var n :| n in a.data.value && (!Held(s, n) || Unlocking(s, n));
      assert !NoOrphan(x, s', n);
    }
  }

  /** Exact for every action: orphan freedom outlives it if and only if it is no meddling. */
  lemma StepKeepsNoOrphansIff(x: External, s: State, a: Action)
    requires Inv(x, s) && NoOrphans(x, s) && Enabled(s, a)
    ensures NoOrphans(x, Apply(x, s, a)) <==> !Meddles(x, s, a)
  {
    if Meddles(x, s, a) {
      MeddlingOrphans(x, s, a);
    } else {
      forall name ensures NoOrphan(x, Apply(x, s, a), name) {
        assert NoOrphan(x, s, name) && Good(x, s, name);
        StepKeepsOne(x, s, a, name);
      }
    }
  }

  // ---------- runs ----------

  /** No step of the run meddles. */
  ghost predicate LeftAlone(x: External, s: State, actions: seq<Action>)
    requires IsRun(x, s, actions)
    decreases |actions|
  {
    actions != [] ==> !Meddles(x, s, actions[0]) && LeftAlone(x, Apply(x, s, actions[0]), actions[1..])
  }

  /** Orphan freedom holds in every state of the run. */
  ghost predicate NeverOrphaned(x: External, s: State, actions: seq<Action>)
    requires IsRun(x, s, actions)
    decreases |actions|
  {
    NoOrphans(x, s) && (actions != [] ==> NeverOrphaned(x, Apply(x, s, actions[0]), actions[1..]))
  }

  /** Over whole runs: orphan freedom holds throughout if and only if no step meddles. */
  lemma {:induction false} NeverOrphanedIff(x: External, s: State, actions: seq<Action>)
    requires Inv(x, s) && NoOrphans(x, s) && IsRun(x, s, actions)
    ensures NeverOrphaned(x, s, actions) <==> LeftAlone(x, s, actions)
    ensures NeverOrphaned(x, s, actions) ==> NoOrphans(x, After(x, s, actions))
    decreases |actions|
  {
    if actions != [] {
      StepKeepsNoOrphansIff(x, s, actions[0]);
      if !Meddles(x, s, actions[0]) {
        StepKeepsInv(x, s, actions[0]);
        NeverOrphanedIff(x, Apply(x, s, actions[0]), actions[1..]);
      }
    }
  }

  /** From the start: no entry without its policy, and no policy without the finalizer that protects the entry. */
  lemma EntriesNeverOrphaned(x: External, s: State, actions: seq<Action>, name: string)
    requires Init(s) && (forall n :: n in Entries(s) ==> Held(s, n)) && IsRun(x, s, actions)
    requires LeftAlone(x, s, actions)
    requires name in Entries(After(x, s, actions))
    ensures Held(After(x, s, actions), name)
  {
    NeverOrphanedIff(x, s, actions);
    assert NoOrphan(x, After(x, s, actions), name);
  }

  /** Somebody takes the finalizer off a policy that is being deleted: the object goes at once and its entry is left. */
  lemma StrippedFinalizerOrphans(x: External, s: State, name: string, status: Status)
    requires name in s.cips && s.cips[name].deleting && name in Entries(s)
    ensures var a := Touch(name, [], status);
      Enabled(s, a) && name in Entries(Apply(x, s, a)) && name !in Apply(x, s, a).cips && !NoOrphans(x, Apply(x, s, a))
  {
    assert !NoOrphan(x, Apply(x, s, Touch(name, [], status)), name);
  }
}
