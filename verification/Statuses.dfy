/**
 What the controller writes to the objects it reconciles: a status that tells how far the compilation came and why no
 further, success only after publishing, and of the finalizers its own alone.
 */
module Statuses {
  import opened Wrappers
  import opened V1alpha1
  import opened Inlining
  import opened Reconcile
  import opened QueuedOrSynced

  predicate AllTrue(status: Status) {
    status.keysInlined == True && status.policiesInlined == True && status.cmUpdated == True
  }

  /** A condition that nothing was found out about: as it was, or else unknown. */
  predicate Carried(before: Condition, after: Condition) { after == if before == Unset then Unknown else before }

  // ---------- one step of a job ----------

  /** The visit fails for the error: by what it reads, or because what it asks for is not answered. */
  ghost predicate FailsFor(x: External, s: State, j: Job, reply: Reply, e: InlineError)
    requires j.Inlining?
  {
    && j.k < |Plan(j.res.spec)|
    && (|| Exec(x, ViewOf(s), j.partial, Plan(j.res.spec)[j.k]) == Err(e)
        || (reply != Done && Pending(j.partial, Plan(j.res.spec)[j.k]) && e == Unavailable))
  }

  /** The kind of visit that failed is reported as failed, with its error; what was not tried is not made out true. */
  ghost predicate TellsFailure(res: Cip, op: Op, e: InlineError, status: Status) {
    && status.observedGeneration == res.generation
    && Carried(res.status.cmUpdated, status.cmUpdated)
    && if op.KeySecret? || op.CaCertSecret? || op.KeyKms? then
         status.keysInlined == False(NotInlined(e)) && Carried(res.status.policiesInlined, status.policiesInlined)
       else
         status.keysInlined == True && status.policiesInlined == False(NotInlined(e))
  }

  lemma FailedVisit(x: External, s: State, name: string, reply: Reply)
    requires name in s.jobs && s.jobs[name].Inlining?
    ensures var j, s' := s.jobs[name], AdvanceJob(x, s, name, reply);
      name in s'.jobs && s'.jobs[name].Withdrawing? ==>
        var j' := s'.jobs[name];
        && j'.orig == j.orig && j'.res == j.res && j.k < |Plan(j.res.spec)|
        && exists e :: FailsFor(x, s, j, reply, e) && TellsFailure(j.res, Plan(j.res.spec)[j.k], e, j'.status)
  {
    var j, s' := s.jobs[name], AdvanceJob(x, s, name, reply);
    InlineNextOnlyReads(x, s, name, j, reply);
    if s'.jobs[name].Withdrawing? {
      var op := Plan(j.res.spec)[j.k];
      if reply != Done && Pending(j.partial, op) {
        assert FailsFor(x, s, j, reply, Unavailable);
      } else {
        assert FailsFor(x, s, j, reply, Exec(x, ViewOf(s), j.partial, op).error);
      }
    }
  }

  /** A failed compilation takes the entry away, if the server lets it, and is reported as it was found. */
  lemma FailureIsReported(x: External, s: State, name: string, reply: Reply)
    requires name in s.jobs && s.jobs[name].Withdrawing?
    ensures var j, s' := s.jobs[name], AdvanceJob(x, s, name, reply);
      && name in s'.jobs && s'.jobs[name] == Reporting(j.orig, j.res, j.status, true)
      && (reply != Rejected ==> name !in Entries(s'))
      && (reply == Rejected ==> Entries(s') == Entries(s))
  {
  }

  /** All is reported well exactly if the entry is written and that is known; otherwise the write is reported failed. */
  lemma PublicationIsReported(x: External, s: State, name: string, reply: Reply)
    requires name in s.jobs && s.jobs[name].Publishing?
    ensures var j, s' := s.jobs[name], AdvanceJob(x, s, name, reply);
      && name in s'.jobs && s'.jobs[name].Reporting?
      && s'.jobs[name].orig == j.orig && s'.jobs[name].res == j.res
      && var status := s'.jobs[name].status;
         && status.observedGeneration == j.res.generation
         && status.keysInlined == True && status.policiesInlined == True
         && (if reply == Done then status.cmUpdated == True else status.cmUpdated == False(NotWritten))
         && (s'.jobs[name].failed <==> reply != Done)
         && (reply != Rejected ==>
               name in Entries(s') && Entries(s')[name] == x.render(j.res.uid, j.res.version, j.compiled))
  {
  }

  /** The job makes a call whose answer decides whether the key is done with. */
  predicate Calls(s: State, name: string, j: Job) {
    match j
    case Fetched(orig) => OURS !in orig.finalizers
    case Finalizing(_) => s.cm.Some?
    case Releasing(orig) => OURS in orig.finalizers
    case Reporting(orig, _, status, _) => status != orig.status && (name in s.cips ==> s.cips[name].status != status)
    case _ => false
  }

  /** What was not confirmed is tried again from the start, and so is a policy whose failure was reported. */
  lemma FailureIsRetried(x: External, s: State, name: string, reply: Reply)
    requires name in s.jobs
    requires (Calls(s, name, s.jobs[name]) && reply != Done) || (s.jobs[name].Reporting? && s.jobs[name].failed)
    ensures var s' := AdvanceJob(x, s, name, reply); name !in s'.jobs && name in s'.queue
  {
  }

  // ---------- what is written to objects ----------

  /** The object but for its status and our finalizer; every write has a new version. */
  ghost predicate OnlyOurs(before: Cip, after: Cip) {
    && after == before.(version := after.version, status := after.status, finalizers := after.finalizers)
    && (after == before || after.version > before.version)
    && forall f :: f != OURS ==> (f in after.finalizers <==> f in before.finalizers)
  }

  lemma AdvanceWrites(x: External, s: State, name: string, reply: Reply)
    requires VersionsOk(s, name) && name in s.jobs
    ensures var s' := AdvanceJob(x, s, name, reply);
      name in s'.cips ==>
        && name in s.cips && OnlyOurs(s.cips[name], s'.cips[name])
        && (s'.cips[name].status != s.cips[name].status ==>
              s.jobs[name].Reporting? && s'.cips[name].status == s.jobs[name].status)
  {
    hide Publish, WithdrawFailed, Finalize;
    var j := s.jobs[name];
    match j
    case Inlining(_, _, _, _, _) => InlineNextOnlyReads(x, s, name, j, reply);
    case Fetched(_) => FetchedWrites(s, name, j.orig, reply);
    case Reporting(_, _, _, _) => ReportWrites(s, name, j, reply);
    case Releasing(_) => ReleaseWrites(s, name, j, reply);
    case _ => EntryWriteKeepsObjects(x, s, name, reply);
  }

  lemma FetchedWrites(s: State, name: string, orig: Cip, reply: Reply)
    requires VersionsOk(s, name) && Dated(s, name, orig)
    ensures var s' := EnsureFinalizer(s, name, orig, reply);
      name in s'.cips ==>
        && name in s.cips && OnlyOurs(s.cips[name], s'.cips[name])
        && s'.cips[name].status == s.cips[name].status
  {
  }

  lemma ReportWrites(s: State, name: string, j: Job, reply: Reply)
    requires VersionsOk(s, name) && j.Reporting?
    ensures var s' := Report(s, name, j, reply);
      name in s'.cips ==>
        && name in s.cips && OnlyOurs(s.cips[name], s'.cips[name])
        && (s'.cips[name].status == s.cips[name].status || s'.cips[name].status == j.status)
  {
  }

  lemma ReleaseWrites(s: State, name: string, j: Job, reply: Reply)
    requires VersionsOk(s, name) && j.Releasing? && Dated(s, name, j.orig)
    ensures var s' := Release(s, name, j, reply);
      name in s'.cips ==>
        && name in s.cips && OnlyOurs(s.cips[name], s'.cips[name])
        && s'.cips[name].status == s.cips[name].status
  {
  }

  /** The controller leaves specs, generations, deletions and the finalizers of others as they are. */
  lemma ControllerWritesOnlyOurs(x: External, s: State, a: Action, n: string)
    requires Inv(x, s) && Enabled(s, a) && (a.Start? || a.Advance?) && n in Apply(x, s, a).cips
    ensures n in s.cips && OnlyOurs(s.cips[n], Apply(x, s, a).cips[n])
  {
    assert Good(x, s, a.name);
    if a.Advance? && a.name == n {
      AdvanceWrites(x, s, n, a.reply);
    } else {
      ApplyTouches(x, s, a);
    }
  }

  /** A policy starts out reporting nothing. */
  lemma CreationReportsNothing(x: External, s: State, name: string, spec: Spec, finalizers: seq<string>)
    requires name !in s.cips
    ensures var s' := Apply(x, s, Create(name, spec, finalizers));
      && name in s'.cips && s'.cips[name].spec == spec && s'.cips[name].finalizers == finalizers
      && var status := s'.cips[name].status;
         status.keysInlined == Unset && status.policiesInlined == Unset && status.cmUpdated == Unset
  {
  }

  // ---------- success is reported only after publishing ----------

  /** In the j-th step of the run, the entry was written from what the job had compiled, and the answer came. */
  ghost predicate PublishedAt(x: External, s: State, actions: seq<Action>, j: nat, name: string, orig: Cip, res: Cip)
    requires IsRun(x, s, actions)
  {
    && j < |actions| && actions[j] == Advance(name, Done)
    && var t := Through(x, s, actions, j);
       && name in t.jobs && t.jobs[name].Publishing? && t.jobs[name].orig == orig && t.jobs[name].res == res
       && var u := Through(x, s, actions, j + 1);
          name in Entries(u) && Entries(u)[name] == x.render(res.uid, res.version, t.jobs[name].compiled)
  }

  /** A job about to report a failure does not report success, and one about to report success has published. */
  ghost predicate Honest(x: External, s: State, actions: seq<Action>, k: nat, name: string)
    requires IsRun(x, s, actions)
  {
    var t := Through(x, s, actions, k);
    name in t.jobs ==>
      var j := t.jobs[name];
      && (j.Withdrawing? ==> !AllTrue(j.status))
      && (j.Reporting? && AllTrue(j.status) ==>
            && !j.failed && j.status.observedGeneration == j.res.generation
            && exists i: nat :: i < k && PublishedAt(x, s, actions, i, name, j.orig, j.res))
  }

  /** Only the answered publication makes a job that reports success. */
  lemma SuccessFromPublishing(x: External, s: State, name: string, reply: Reply)
    requires name in s.jobs && (s.jobs[name].Withdrawing? ==> !AllTrue(s.jobs[name].status))
    ensures var s' := AdvanceJob(x, s, name, reply);
      name in s'.jobs ==>
        var j := s'.jobs[name];
        && (j.Withdrawing? ==> !AllTrue(j.status))
        && (j.Reporting? && AllTrue(j.status) ==>
              s.jobs[name].Publishing? && reply == Done && s.jobs[name].orig == j.orig && s.jobs[name].res == j.res)
  {
    match s.jobs[name]
    case Inlining(_, _, _, _, _) =>
      FailedVisit(x, s, name, reply);
      InlineNextOnlyReads(x, s, name, s.jobs[name], reply);
    case Withdrawing(_, _, _) => FailureIsReported(x, s, name, reply);
    case Publishing(_, _, _) => PublicationIsReported(x, s, name, reply);
    case _ =>
  }

  lemma StepStaysHonest(x: External, s: State, actions: seq<Action>, k: nat, name: string)
    requires IsRun(x, s, actions) && k < |actions| && Honest(x, s, actions, k, name)
    ensures Honest(x, s, actions, k + 1, name)
  {
    hide Through, AdvanceJob, AllTrue;
    ThroughSteps(x, s, actions, k);
    var t, a := Through(x, s, actions, k), actions[k];
    if a.Advance? && a.name == name {
      SuccessFromPublishing(x, t, name, a.reply);
      if t.jobs[name].Publishing? && a.reply == Done {
        PublicationIsReported(x, t, name, a.reply);
        assert PublishedAt(x, s, actions, k, name, t.jobs[name].orig, t.jobs[name].res);
      }
    } else if OnOnePolicy(a) && a.name != name {
      ApplyTouches(x, t, a);
    }
  }

  lemma {:induction false} RunIsHonest(x: External, s: State, actions: seq<Action>, k: nat, name: string)
    requires Init(s) && IsRun(x, s, actions) && k <= |actions|
    ensures Honest(x, s, actions, k, name)
  {
    if k > 0 {
      RunIsHonest(x, s, actions, k - 1, name);
      StepStaysHonest(x, s, actions, k - 1, name);
    }
  }

  /**
   Over every run, success newly appears in the status of a policy only if the reporting job has published before, from
   the copy whose generation the status names.
   */
  lemma SuccessIsPublished(x: External, s: State, actions: seq<Action>, k: nat, name: string)
    requires Init(s) && IsRun(x, s, actions) && k < |actions| && actions[k].Advance? && actions[k].name == name
    requires var t, u := Through(x, s, actions, k), Through(x, s, actions, k + 1);
      name in t.cips && name in u.cips && u.cips[name].status != t.cips[name].status && AllTrue(u.cips[name].status)
    ensures var t, u := Through(x, s, actions, k), Through(x, s, actions, k + 1);
      && name in t.jobs && t.jobs[name].Reporting?
      && u.cips[name].status.observedGeneration == t.jobs[name].res.generation
      && exists i: nat :: i < k && PublishedAt(x, s, actions, i, name, t.jobs[name].orig, t.jobs[name].res)
  {
    ThroughSteps(x, s, actions, k);
    ThroughKeepsInv(x, s, actions, k);
    var t := Through(x, s, actions, k);
    assert Good(x, t, name);
    AdvanceWrites(x, t, name, actions[k].reply);
    RunIsHonest(x, s, actions, k, name);
  }

  lemma {:induction false} ThroughKeepsInv(x: External, s: State, actions: seq<Action>, k: nat)
    requires Inv(x, s) && IsRun(x, s, actions)
    ensures Inv(x, Through(x, s, actions, k))
    decreases |actions|
  {
    if k > 0 && actions != [] {
      StepKeepsInv(x, s, actions[0]);
      ThroughKeepsInv(x, Apply(x, s, actions[0]), actions[1..], k - 1);
    }
  }
}
