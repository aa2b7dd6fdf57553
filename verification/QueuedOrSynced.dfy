/**
 The invariant of the reconcile loop: in every reachable state each stored ClusterImagePolicy is queued, is being
 worked on from copies that are still current, or is settled. Settled means, for a live policy, that it
 carries the finalizer, reports success, and that its ConfigMap entry is the compilation of what is stored now.
 */
module QueuedOrSynced {
  import opened Wrappers
  import opened V1alpha1
  import opened Inlining
  import opened Reconcile

  // ---------- the invariant ----------

  ghost predicate Tracked(s: State, name: string, refs: set<Ref>) {
    forall ref :: ref in refs ==> (ref, name) in s.trackers
  }

  /** The first k visits, repeated now, would give `partial` again, and any change to what they read will be noticed. */
  ghost predicate InlinedSoFar(x: External, s: State, name: string, spec: Spec, k: nat, partial: Spec) {
    && k <= |Plan(spec)|
    && ExecPrefix(x, ViewOf(s), spec, k) == Ok(partial)
    && Tracked(s, name, RefsRead(x, ViewOf(s), spec, k))
  }

  /** The entry is the compilation of the stored policy under the secrets and ConfigMaps of this state. */
  ghost predicate Synced(x: External, s: State, name: string)
    requires name in s.cips
  {
    var compiled := Inline(x, ViewOf(s), s.cips[name].spec);
    && compiled.Ok?
    && name in Entries(s)
    && Entries(s)[name] == x.render(s.cips[name].uid, s.cips[name].version, compiled.value)
  }

  ghost predicate Watched(x: External, s: State, name: string)
    requires name in s.cips
  {
    var spec := s.cips[name].spec;
    Tracked(s, name, RefsRead(x, ViewOf(s), spec, |Plan(spec)|))
  }

  ghost predicate Settled(x: External, s: State, name: string)
    requires name in s.cips
  {
    var cip := s.cips[name];
    if cip.deleting then OURS !in cip.finalizers && name !in Entries(s)
    else OURS in cip.finalizers && cip.status == OkStatus(cip.generation) && Synced(x, s, name) && Watched(x, s, name)
  }

  ghost predicate ReadyToPublish(s: State, name: string, orig: Cip, res: Cip)
    requires name in s.cips
  {
    s.cips[name] == res && !res.deleting && OURS in res.finalizers && res.status == orig.status
  }

  /** The job works on current copies, or is bound to fail and so to queue its key again. */
  ghost predicate Fresh(x: External, s: State, name: string, j: Job)
    requires name in s.cips
  {
    match j
    case Fetched(orig) => s.cips[name] == orig && !orig.deleting
    case Inlining(orig, res, partial, k, tracked) =>
      && ReadyToPublish(s, name, orig, res)
      && InlinedSoFar(x, s, name, res.spec, k, partial)
      && (tracked && k < |Plan(res.spec)| && RefOf(partial, Plan(res.spec)[k]).Some? ==>
            (RefOf(partial, Plan(res.spec)[k]).value, name) in s.trackers)
    case Withdrawing(_, _, _) => true
    case Publishing(orig, res, compiled) =>
      && ReadyToPublish(s, name, orig, res)
      && InlinedSoFar(x, s, name, res.spec, |Plan(res.spec)|, compiled)
    case Reporting(orig, res, status, failed) =>
      failed || (ReadyToPublish(s, name, orig, res) && status == OkStatus(res.generation) && Synced(x, s, name) &&
        Watched(x, s, name))
    case Finalizing(orig) => s.cips[name] == orig && orig.deleting
    case Releasing(orig) => s.cips[name] == orig && orig.deleting && name !in Entries(s)
  }

  /** Versions identify contents, and no version is from the future. */
  ghost predicate Dated(s: State, name: string, copy: Cip) {
    && copy.version <= s.clock
    && (name in s.cips && s.cips[name].version == copy.version ==> s.cips[name] == copy)
  }

  ghost predicate VersionsOk(s: State, name: string) {
    && (name in s.cips ==> s.cips[name].version <= s.clock)
    && (name in s.jobs ==> Dated(s, name, s.jobs[name].orig))
    && (name in s.jobs && s.jobs[name].Inlining? ==> s.jobs[name].k <= |Plan(s.jobs[name].res.spec)|)
  }

  ghost predicate Attended(x: External, s: State, name: string) {
    name in s.cips ==>
      || name in s.queue
      || (if name in s.jobs then Fresh(x, s, name, s.jobs[name]) else Settled(x, s, name))
  }

  ghost predicate Good(x: External, s: State, name: string) { VersionsOk(s, name) && Attended(x, s, name) }

  ghost predicate Inv(x: External, s: State) { forall name :: Good(x, s, name) }

  // ---------- names a step does not touch ----------

  lemma OthersStayGood(x: External, s: State, s': State, name: string, other: string)
    requires OnlyTouches(s, s', name) && other != name
    requires Good(x, s, other)
    ensures Good(x, s', other)
  {
  }

  // ---------- changes of watched objects ----------

  lemma UnreadChange(x: External, s: State, s': State, name: string, spec: Spec, k: nat, ref: Ref)
    requires k <= |Plan(spec)|
    requires Tracked(s, name, RefsRead(x, ViewOf(s), spec, k)) && (ref, name) !in s.trackers
    requires forall r :: r != ref ==> Lookup(ViewOf(s), r) == Lookup(ViewOf(s'), r)
    ensures ExecPrefix(x, ViewOf(s'), spec, k) == ExecPrefix(x, ViewOf(s), spec, k)
    ensures RefsRead(x, ViewOf(s'), spec, k) == RefsRead(x, ViewOf(s), spec, k)
  {
    SameWhereRead(x, ViewOf(s), ViewOf(s'), spec, k);
  }

  /** A watched object changes, and what this name has read is not it. */
  lemma UnreadChangeStaysFresh(x: External, s: State, s': State, ref: Ref, name: string)
    requires name in s.cips && name in s.jobs && Fresh(x, s, name, s.jobs[name]) && (ref, name) !in s.trackers
    requires s' == s.(secrets := s'.secrets, configMaps := s'.configMaps, queue := s.queue + TrackersOf(s, ref))
    requires forall r :: r != ref ==> Lookup(ViewOf(s), r) == Lookup(ViewOf(s'), r)
    ensures Fresh(x, s', name, s.jobs[name])
  {
    match s.jobs[name]
    case Inlining(_, res, _, k, _) => UnreadChange(x, s, s', name, res.spec, k, ref);
    case Publishing(_, res, _) => UnreadChange(x, s, s', name, res.spec, |Plan(res.spec)|, ref);
    case Reporting(_, res, _, failed) =>
      if !failed {
        UnreadChange(x, s, s', name, res.spec, |Plan(res.spec)|, ref);
      }
    case _ =>
  }

  lemma UnreadChangeIsHarmless(x: External, s: State, s': State, ref: Ref, name: string)
    requires Attended(x, s, name) && (ref, name) !in s.trackers
    requires s' == s.(secrets := s'.secrets, configMaps := s'.configMaps, queue := s.queue + TrackersOf(s, ref))
    requires forall r :: r != ref ==> Lookup(ViewOf(s), r) == Lookup(ViewOf(s'), r)
    ensures Attended(x, s', name)
  {
    if name in s.cips && name !in s.queue {
      if name !in s.jobs {
        if !s.cips[name].deleting {
          UnreadChange(x, s, s', name, s.cips[name].spec, |Plan(s.cips[name].spec)|, ref);
        }
      } else {
        UnreadChangeStaysFresh(x, s, s', ref, name);
      }
    }
  }

  /** A watched object changes: whoever read it is queued, everybody else still has what the new state would give. */
  lemma WatchedChange(x: External, s: State, s': State, ref: Ref, name: string)
    requires Good(x, s, name)
    requires s' == s.(secrets := s'.secrets, configMaps := s'.configMaps, queue := s.queue + TrackersOf(s, ref))
    requires forall r :: r != ref ==> Lookup(ViewOf(s), r) == Lookup(ViewOf(s'), r)
    ensures Good(x, s', name)
  {
    if (ref, name) in s.trackers {
      assert (ref, name).1 in TrackersOf(s, ref);
    } else {
      UnreadChangeIsHarmless(x, s, s', ref, name);
    }
  }

  // ---------- the steps ----------

  lemma PutGood(x: External, s: State, name: string, cip: Cip)
    requires VersionsOk(s, name)
    ensures Good(x, Put(s, name, cip), name)
  {
  }

  lemma EnsureFinalizerGood(x: External, s: State, name: string, reply: Reply)
    requires Good(x, s, name) && name in s.jobs && s.jobs[name].Fetched?
    ensures Good(x, AdvanceJob(x, s, name, reply), name)
  {
  }

  lemma FinishGood(x: External, s: State, name: string, failed: bool)
    requires VersionsOk(s, name)
    requires failed || name in s.queue || (name in s.cips ==> Settled(x, s, name))
    ensures Good(x, Finish(s, name, failed), name)
  {
  }

  lemma PutFinishGood(x: External, s: State, name: string, cip: Cip, failed: bool)
    requires VersionsOk(s, name)
    ensures var s' := Finish(Put(s, name, cip), name, failed); Good(x, s', name)
  {
  }

  lemma ToGood(x: External, s: State, name: string, job: Job)
    requires VersionsOk(s, name) && Dated(s, name, job.orig)
    requires job.Inlining? ==> job.k <= |Plan(job.res.spec)|
    requires name in s.queue || (name in s.cips ==> Fresh(x, s, name, job))
    ensures Good(x, To(s, name, job), name)
  {
  }

  /** Tracking first: once the reference is tracked, reading it later is safe. */
  lemma TrackGood(x: External, s: State, name: string, j: Job, ref: Ref)
    requires Good(x, s, name) && name in s.jobs && s.jobs[name] == j && j.Inlining? && j.k < |Plan(j.res.spec)|
    requires RefOf(j.partial, Plan(j.res.spec)[j.k]) == Some(ref)
    ensures var s' := To(s.(trackers := s.trackers + {(ref, name)}), name, j.(tracked := true));
      Good(x, s', name)
  {
  }

  lemma ReadGood(x: External, s: State, name: string, j: Job, partial: Spec)
    requires Good(x, s, name) && name in s.jobs && s.jobs[name] == j && j.Inlining? && j.k < |Plan(j.res.spec)|
    requires RefOf(j.partial, Plan(j.res.spec)[j.k]).Some? ==> j.tracked
    requires Exec(x, ViewOf(s), j.partial, Plan(j.res.spec)[j.k]) == Ok(partial)
    ensures var s' := To(s, name, j.(partial := partial, k := j.k + 1, tracked := false));
      Good(x, s', name)
  {
  }

  lemma InlineNextGood(x: External, s: State, name: string, reply: Reply)
    requires Good(x, s, name) && name in s.jobs && s.jobs[name].Inlining?
    ensures Good(x, AdvanceJob(x, s, name, reply), name)
  {
    var j := s.jobs[name];
    if j.k == |Plan(j.res.spec)| {
      ToGood(x, s, name, Publishing(j.orig, j.res, j.partial));
    } else {
      var op := Plan(j.res.spec)[j.k];
      var ref := RefOf(j.partial, op);
      if reply != Done && Pending(j.partial, op) {
        ToGood(x, s, name, Withdrawing(j.orig, j.res, InlineFailedStatus(j.res, op, Unavailable)));
      } else if ref.Some? && !j.tracked {
        TrackGood(x, s, name, j, ref.value);
      } else {
        match Exec(x, ViewOf(s), j.partial, op)
        case Err(e) => ToGood(x, s, name, Withdrawing(j.orig, j.res, InlineFailedStatus(j.res, op, e)));
        case Ok(partial) => ReadGood(x, s, name, j, partial);
      }
    }
  }

  lemma WithdrawFailedGood(x: External, s: State, name: string, reply: Reply)
    requires Good(x, s, name) && name in s.jobs && s.jobs[name].Withdrawing?
    ensures Good(x, AdvanceJob(x, s, name, reply), name)
  {
  }

  lemma PublishGood(x: External, s: State, name: string, reply: Reply)
    requires Good(x, s, name) && name in s.jobs && s.jobs[name].Publishing?
    ensures Good(x, AdvanceJob(x, s, name, reply), name)
  {
  }

  lemma ReportGood(x: External, s: State, name: string, reply: Reply)
    requires Good(x, s, name) && name in s.jobs && s.jobs[name].Reporting?
    ensures Good(x, AdvanceJob(x, s, name, reply), name)
  {
    var j := s.jobs[name];
    if j.status == j.orig.status {
      FinishGood(x, s, name, j.failed);
    } else if reply == Rejected || name !in s.cips {
      FinishGood(x, s, name, true);
    } else if s.cips[name].status == j.status {
      FinishGood(x, s, name, j.failed);
    } else {
      PutFinishGood(x, s, name, s.cips[name].(status := j.status), j.failed || reply == Lost);
    }
  }

  lemma FinalizeGood(x: External, s: State, name: string, reply: Reply)
    requires Good(x, s, name) && name in s.jobs && s.jobs[name].Finalizing?
    ensures Good(x, AdvanceJob(x, s, name, reply), name)
  {
  }

  lemma ReleaseGood(x: External, s: State, name: string, reply: Reply)
    requires Good(x, s, name) && name in s.jobs && s.jobs[name].Releasing?
    ensures Good(x, AdvanceJob(x, s, name, reply), name)
  {
  }

  lemma AdvanceGood(x: External, s: State, name: string, reply: Reply)
    requires Good(x, s, name) && name in s.jobs
    ensures Good(x, AdvanceJob(x, s, name, reply), name)
  {
    match s.jobs[name]
    case Fetched(_) => EnsureFinalizerGood(x, s, name, reply);
    case Inlining(_, _, _, _, _) => InlineNextGood(x, s, name, reply);
    case Withdrawing(_, _, _) => WithdrawFailedGood(x, s, name, reply);
    case Publishing(_, _, _) => PublishGood(x, s, name, reply);
    case Reporting(_, _, _, _) => ReportGood(x, s, name, reply);
    case Finalizing(_) => FinalizeGood(x, s, name, reply);
    case Releasing(_) => ReleaseGood(x, s, name, reply);
  }

  lemma StartGood(x: External, s: State, name: string)
    requires VersionsOk(s, name) && name !in s.jobs
    ensures Good(x, StartJob(s, name), name)
  {
  }

  lemma TouchedStaysGood(x: External, s: State, a: Action)
    requires Inv(x, s) && Enabled(s, a) && OnOnePolicy(a)
    ensures Good(x, Apply(x, s, a), a.name)
  {
    assert Good(x, s, a.name);
    match a
    case Start(name) => StartGood(x, s, name);
    case Advance(name, reply) => AdvanceGood(x, s, name, reply);
    case Create(name, spec, finalizers) =>
      PutGood(x, s, name, Cip(s.clock + 1, 0, 1, spec, finalizers, false, NO_STATUS));
    case Edit(name, spec) =>
      PutGood(x, s, name, s.cips[name].(spec := spec, generation := s.cips[name].generation + 1));
    case Touch(name, finalizers, status) =>
      PutGood(x, s, name, s.cips[name].(finalizers := finalizers, status := status));
    case Delete(name) =>
      PutGood(x, s, name, s.cips[name].(deleting := true, generation := s.cips[name].generation + 1));
  }

  /** Every action of the controller and of its environment keeps the invariant. */
  lemma StepKeepsInv(x: External, s: State, a: Action)
    requires Inv(x, s) && Enabled(s, a)
    ensures Inv(x, Apply(x, s, a))
  {
    var s' := Apply(x, s, a);
    forall name ensures Good(x, s', name) {
      assert Good(x, s, name);
      if OnOnePolicy(a) {
        TouchedStaysGood(x, s, a);
        ApplyTouches(x, s, a);
        if name != a.name { OthersStayGood(x, s, s', a.name, name); }
      } else {
        match a
        case SetSecret(secret, _) => WatchedChange(x, s, s', SecretNamed(secret), name);
        case SetConfigMap(cm, _) => WatchedChange(x, s, s', ConfigMapNamed(cm), name);
        case SetImagePolicies(_) =>
        case Resync => assert ViewOf(s) == ViewOf(s');
        case Restart =>
      }
    }
  }

  lemma {:induction false} RunKeepsInv(x: External, s: State, actions: seq<Action>)
    requires Inv(x, s) && IsRun(x, s, actions)
    ensures Inv(x, After(x, s, actions))
    decreases |actions|
  {
    if actions != [] {
      StepKeepsInv(x, s, actions[0]);
      RunKeepsInv(x, Apply(x, s, actions[0]), actions[1..]);
    }
  }

  /**
   Queued or synced: after any run from any start, a live policy that is neither queued nor being worked on has an entry
   equal to the compilation of its current spec under the current secrets and ConfigMaps.
   */
  lemma QueuedOrSyncedAlways(x: External, s: State, actions: seq<Action>, name: string)
    requires Init(s) && IsRun(x, s, actions)
    requires var s' := After(x, s, actions);
      name in s'.cips && !s'.cips[name].deleting && name !in s'.queue && name !in s'.jobs
    ensures var s' := After(x, s, actions);
      var cip := s'.cips[name];
      var compiled := Inline(x, ViewOf(s'), cip.spec);
      && compiled.Ok? && name in Entries(s')
      && Entries(s')[name] == x.render(cip.uid, cip.version, compiled.value)
      && OURS in cip.finalizers
      && cip.status.observedGeneration == cip.generation
      && cip.status.keysInlined == True && cip.status.policiesInlined == True && cip.status.cmUpdated == True
  {
    RunKeepsInv(x, s, actions);
    assert Good(x, After(x, s, actions), name);
  }
}
