/**
 The ClusterImagePolicy controller as a state machine. A key taken from the work queue becomes a job
 that advances one API call or lister read at a time, interleaved with other jobs, with user edits and
 with restarts. Every API call may be rejected, or take effect and still be reported as failed.
 */
module Reconcile {
  import opened Wrappers
  import opened V1alpha1
  import opened Inlining
  import opened Finalizers

  const OURS := "clusterimagepolicies.policy.sigstore.dev"

  datatype Failure = NotInlined(error: InlineError) | NotWritten

  datatype Condition = Unset | Unknown | True | False(why: Failure)

  datatype Status = Status(
    observedGeneration: nat,
    keysInlined: Condition,
    policiesInlined: Condition,
    cmUpdated: Condition)

  /** A stored ClusterImagePolicy. `version` is its resourceVersion; `deleting` its deletion timestamp being set. */
  datatype Cip = Cip(
    uid: nat,
    version: nat,
    generation: nat,
    spec: Spec,
    finalizers: seq<string>,
    deleting: bool,
    status: Status)

  /** How far the worker that holds a key has come; `orig` is the lister's copy, `res` the copy being reconciled. */
  datatype Job =
    | Fetched(orig: Cip)
    | Inlining(orig: Cip, res: Cip, partial: Spec, k: nat, tracked: bool)
    | Withdrawing(orig: Cip, res: Cip, status: Status)
    | Publishing(orig: Cip, res: Cip, compiled: Spec)
    | Reporting(orig: Cip, res: Cip, status: Status, failed: bool)
    | Finalizing(orig: Cip)
    | Releasing(orig: Cip)

  datatype State = State(
    cips: map<string, Cip>,
    cm: Option<map<string, string>>,
    secrets: map<string, map<string, string>>,
    configMaps: map<string, map<string, string>>,
    queue: set<string>,
    trackers: set<(Ref, string)>,
    jobs: map<string, Job>,
    clock: nat)

  /** What the API server, or the network before or behind it, makes of a call. */
  datatype Reply = Done | Rejected | Lost

  datatype Action =
    // the environment
    | Create(name: string, spec: Spec, finalizers: seq<string>)
    | Edit(name: string, spec: Spec)
    | Touch(name: string, finalizers: seq<string>, status: Status)
    | Delete(name: string)
    | SetSecret(name: string, data: Option<map<string, string>>)
    | SetConfigMap(name: string, data: Option<map<string, string>>)
    | SetImagePolicies(data: Option<map<string, string>>)
    | Resync
    | Restart
    // the controller
    | Start(name: string)
    | Advance(name: string, reply: Reply)

  const NO_STATUS := Status(0, Unset, Unset, Unset)

  // ---------- reading the cluster ----------

  function Entries(s: State): map<string, string> { if s.cm.Some? then s.cm.value else map[] }

  /** The ConfigMap lister serves the image policies under their own name too. */
  function ViewOf(s: State): View {
    View(s.secrets, if s.cm.Some? then s.configMaps[IMAGE_POLICIES := s.cm.value] else s.configMaps - {IMAGE_POLICIES})
  }

  function TrackersOf(s: State, ref: Ref): set<string> { set t | t in s.trackers && t.0 == ref :: t.1 }

  // ---------- writing the cluster: every write raises the informer events it causes ----------

  /** Stores an object under a fresh version; a deleted object without finalizers is gone. */
  function Put(s: State, name: string, cip: Cip): State {
    var stored := cip.(version := s.clock + 1);
    s.(cips := if cip.deleting && cip.finalizers == [] then s.cips - {name} else s.cips[name := stored],
       clock := s.clock + 1,
       queue := s.queue + {name})
  }

  /** A ConfigMap write; without a difference there is no patch and no event. */
  function PutEntries(s: State, cm: Option<map<string, string>>): State {
    if s.cm == cm then s
    else s.(cm := cm, queue := s.queue + s.cips.Keys + TrackersOf(s, ConfigMapNamed(IMAGE_POLICIES)))
  }

  function Withdraw(s: State, name: string): State {
    if s.cm.None? then s else PutEntries(s, Some(s.cm.value - {name}))
  }

  function SetOrDrop(m: map<string, map<string, string>>, name: string, data: Option<map<string, string>>)
    : map<string, map<string, string>>
  {
    if data.Some? then m[name := data.value] else m - {name}
  }

  // ---------- conditions ----------

  function Initialized(c: Condition): Condition { if c == Unset then Unknown else c }

  function InlineFailedStatus(res: Cip, op: Op, e: InlineError): Status {
    if OfKeys(op) then
      Status(res.generation, False(NotInlined(e)), Initialized(res.status.policiesInlined),
        Initialized(res.status.cmUpdated))
    else
      Status(res.generation, True, False(NotInlined(e)), Initialized(res.status.cmUpdated))
  }

  function WriteFailedStatus(res: Cip): Status { Status(res.generation, True, True, False(NotWritten)) }

  function OkStatus(generation: nat): Status { Status(generation, True, True, True) }

  // ---------- the end of a job ----------

  function Finish(s: State, name: string, failed: bool): State {
    s.(jobs := s.jobs - {name}, queue := if failed then s.queue + {name} else s.queue)
  }

  function To(s: State, name: string, job: Job): State { s.(jobs := s.jobs[name := job]) }

  // ---------- the steps of a job ----------

  /** The merge patch names the version it was computed from; the server refuses it for any other. */
  predicate PatchAccepted(s: State, name: string, observed: Cip) {
    name in s.cips && s.cips[name].version == observed.version
  }

  function EnsureFinalizer(s: State, name: string, orig: Cip, reply: Reply): State {
    if OURS in orig.finalizers then To(s, name, Inlining(orig, orig, orig.spec, 0, false))
    else if reply == Rejected || !PatchAccepted(s, name, orig) then Finish(s, name, true)
    else
      var s1 := Put(s, name, s.cips[name].(finalizers := orig.finalizers + [OURS]));
      if reply == Lost || name !in s1.cips then Finish(s1, name, true)
      else To(s1, name, Inlining(orig, s1.cips[name], s1.cips[name].spec, 0, false))
  }

  ghost function InlineNext(x: External, s: State, name: string, j: Job, reply: Reply): State
    requires j.Inlining?
  {
    if j.k >= |Plan(j.res.spec)| then To(s, name, Publishing(j.orig, j.res, j.partial))
    else
      var op := Plan(j.res.spec)[j.k];
      var ref := RefOf(j.partial, op);
      if reply != Done && Pending(j.partial, op) then
        To(s, name, Withdrawing(j.orig, j.res, InlineFailedStatus(j.res, op, Unavailable)))
      else if ref.Some? && !j.tracked then
        // The reference is tracked before it is read.
        To(s.(trackers := s.trackers + {(ref.value, name)}), name, j.(tracked := true))
      else
        match Exec(x, ViewOf(s), j.partial, op)
        case Err(e) => To(s, name, Withdrawing(j.orig, j.res, InlineFailedStatus(j.res, op, e)))
        case Ok(partial) => To(s, name, j.(partial := partial, k := j.k + 1, tracked := false))
  }

  function WithdrawFailed(s: State, name: string, j: Job, reply: Reply): State
    requires j.Withdrawing?
  {
    To(if reply == Rejected then s else Withdraw(s, name), name, Reporting(j.orig, j.res, j.status, true))
  }

  function Publish(x: External, s: State, name: string, j: Job, reply: Reply): State
    requires j.Publishing?
  {
    if reply == Rejected then To(s, name, Reporting(j.orig, j.res, WriteFailedStatus(j.res), true))
    else
      var s1 := PutEntries(s, Some(Entries(s)[name := x.render(j.res.uid, j.res.version, j.compiled)]));
      if reply == Lost then To(s1, name, Reporting(j.orig, j.res, WriteFailedStatus(j.res), true))
      else To(s1, name, Reporting(j.orig, j.res, OkStatus(j.res.generation), false))
  }

  /** The status is written on the latest object: the first attempt is, or is retried with, that object. */
  function Report(s: State, name: string, j: Job, reply: Reply): State
    requires j.Reporting?
  {
    if j.status == j.orig.status then Finish(s, name, j.failed)
    else if reply == Rejected || name !in s.cips then Finish(s, name, true)
    else if s.cips[name].status == j.status then Finish(s, name, j.failed)
    else
      var s1 := Put(s, name, s.cips[name].(status := j.status));
      Finish(s1, name, j.failed || reply == Lost)
  }

  function Finalize(s: State, name: string, j: Job, reply: Reply): State
    requires j.Finalizing?
  {
    if reply == Rejected && s.cm.Some? then Finish(s, name, true)
    else
      var s1 := Withdraw(s, name);
      if reply == Lost && s.cm.Some? then Finish(s1, name, true) else To(s1, name, Releasing(j.orig))
  }

  ghost function Release(s: State, name: string, j: Job, reply: Reply): State
    requires j.Releasing?
  {
    if OURS !in j.orig.finalizers then Finish(s, name, false)
    else if reply == Rejected || !PatchAccepted(s, name, j.orig) then Finish(s, name, true)
    else
      Finish(Put(s, name, s.cips[name].(finalizers := Listed(Names(j.orig.finalizers) - {OURS}))), name, reply == Lost)
  }

  ghost function AdvanceJob(x: External, s: State, name: string, reply: Reply): State
    requires name in s.jobs
  {
    var j := s.jobs[name];
    match j
    case Fetched(orig) => EnsureFinalizer(s, name, orig, reply)
    case Inlining(_, _, _, _, _) => InlineNext(x, s, name, j, reply)
    case Withdrawing(_, _, _) => WithdrawFailed(s, name, j, reply)
    case Publishing(_, _, _) => Publish(x, s, name, j, reply)
    case Reporting(_, _, _, _) => Report(s, name, j, reply)
    case Finalizing(_) => Finalize(s, name, j, reply)
    case Releasing(_) => Release(s, name, j, reply)
  }

  function StartJob(s: State, name: string): State {
    var s1 := s.(queue := s.queue - {name});
    if name !in s.cips then s1
    else if s.cips[name].deleting then To(s1, name, Finalizing(s.cips[name]))
    else To(s1, name, Fetched(s.cips[name]))
  }

  // ---------- the transition relation ----------

  predicate Enabled(s: State, a: Action) {
    match a
    case Create(name, _, _) => name !in s.cips
    case Edit(name, _) => name in s.cips
    case Touch(name, _, _) => name in s.cips
    case Delete(name) => name in s.cips && !s.cips[name].deleting
    case SetSecret(_, _) => true
    case SetConfigMap(name, _) => name != IMAGE_POLICIES
    case SetImagePolicies(_) => true
    case Resync => true
    case Restart => true
    // The work queue never hands a key to two workers.
    case Start(name) => name in s.queue && name !in s.jobs
    case Advance(name, _) => name in s.jobs
  }

  ghost function Apply(x: External, s: State, a: Action): State
    requires Enabled(s, a)
  {
    match a
    case Create(name, spec, finalizers) => Put(s, name, Cip(s.clock + 1, 0, 1, spec, finalizers, false, NO_STATUS))
    case Edit(name, spec) => Put(s, name, s.cips[name].(spec := spec, generation := s.cips[name].generation + 1))
    case Touch(name, finalizers, status) => Put(s, name, s.cips[name].(finalizers := finalizers, status := status))
    case Delete(name) => Put(s, name, s.cips[name].(deleting := true, generation := s.cips[name].generation + 1))
    case SetSecret(name, data) =>
      s.(secrets := SetOrDrop(s.secrets, name, data), queue := s.queue + TrackersOf(s, SecretNamed(name)))
    case SetConfigMap(name, data) =>
      s.(configMaps := SetOrDrop(s.configMaps, name, data), queue := s.queue + TrackersOf(s, ConfigMapNamed(name)))
    case SetImagePolicies(data) => PutEntries(s, data)
    case Resync => s.(queue := s.queue + s.cips.Keys)
    // The jobs and the tracker live in memory; the informers list every object again.
    case Restart => s.(jobs := map[], trackers := {}, queue := s.cips.Keys)
    case Start(name) => StartJob(s, name)
    case Advance(name, reply) => AdvanceJob(x, s, name, reply)
  }

  // ---------- what a step leaves alone ----------

  /** Nothing but `name` changes, events aside; and if the shared ConfigMap changes, every policy is queued. */
  ghost predicate OnlyTouches(s: State, s': State, name: string) {
    && (forall n :: n != name ==> (n in s.cips <==> n in s'.cips) && (n in s.cips ==> s.cips[n] == s'.cips[n]))
    && (forall n :: n != name ==> (n in s.jobs <==> n in s'.jobs) && (n in s.jobs ==> s.jobs[n] == s'.jobs[n]))
    && (forall n :: n != name ==>
         (n in Entries(s) <==> n in Entries(s')) && (n in Entries(s) ==> Entries(s)[n] == Entries(s')[n]))
    && s.secrets == s'.secrets && s.configMaps == s'.configMaps
    && s.trackers <= s'.trackers && s.clock <= s'.clock
    && s.queue - {name} <= s'.queue
    && (s.cm == s'.cm || s.cips.Keys - {name} <= s'.queue)
  }

  /** An inlining step reads; it writes nothing to the cluster and stays with the copies it has. */
  lemma InlineNextOnlyReads(x: External, s: State, name: string, j: Job, reply: Reply)
    requires name in s.jobs && s.jobs[name] == j && j.Inlining?
    ensures var s' := InlineNext(x, s, name, j, reply);
      && s' == s.(jobs := s'.jobs, trackers := s'.trackers)
      && s.trackers <= s'.trackers
      && name in s'.jobs && s'.jobs == s.jobs[name := s'.jobs[name]]
      && var j' := s'.jobs[name];
         (j'.Inlining? || j'.Withdrawing? || j'.Publishing?) && j'.orig == j.orig && j'.res == j.res
  {
    if j.k < |Plan(j.res.spec)| {
      match Exec(x, ViewOf(s), j.partial, Plan(j.res.spec)[j.k])
      case Ok(_) =>
      case Err(_) =>
    }
  }

  lemma EntryWriteKeepsObjects(x: External, s: State, name: string, reply: Reply)
    requires name in s.jobs && (s.jobs[name].Publishing? || s.jobs[name].Withdrawing? || s.jobs[name].Finalizing?)
    ensures AdvanceJob(x, s, name, reply).cips == s.cips
  {
  }

  lemma TouchesTwice(s: State, s1: State, s2: State, name: string)
    requires OnlyTouches(s, s1, name) && OnlyTouches(s1, s2, name)
    ensures OnlyTouches(s, s2, name)
  {
  }

  lemma PutTouches(s: State, name: string, cip: Cip)
    ensures OnlyTouches(s, Put(s, name, cip), name)
  {
  }

  lemma ToTouches(s: State, name: string, job: Job)
    ensures OnlyTouches(s, To(s, name, job), name)
  {
  }

  lemma FinishTouches(s: State, name: string, failed: bool)
    ensures OnlyTouches(s, Finish(s, name, failed), name)
  {
  }

  lemma PutEntryTouches(s: State, name: string, text: string)
    ensures OnlyTouches(s, PutEntries(s, Some(Entries(s)[name := text])), name)
  {
  }

  lemma WithdrawTouches(s: State, name: string)
    ensures OnlyTouches(s, Withdraw(s, name), name)
  {
  }

  lemma PutFinishTouches(s: State, name: string, cip: Cip, failed: bool)
    ensures OnlyTouches(s, Finish(Put(s, name, cip), name, failed), name)
  {
  }

  lemma EnsureFinalizerTouches(s: State, name: string, orig: Cip, reply: Reply)
    ensures OnlyTouches(s, EnsureFinalizer(s, name, orig, reply), name)
  {
    if OURS in orig.finalizers {
      ToTouches(s, name, Inlining(orig, orig, orig.spec, 0, false));
    } else if reply == Rejected || !PatchAccepted(s, name, orig) {
      FinishTouches(s, name, true);
    } else {
      var cip := s.cips[name].(finalizers := orig.finalizers + [OURS]);
      PutFinishTouches(s, name, cip, true);
      PutTouches(s, name, cip);
      var s1 := Put(s, name, cip);
      if name in s1.cips {
        ToTouches(s1, name, Inlining(orig, s1.cips[name], s1.cips[name].spec, 0, false));
        TouchesTwice(s, s1, To(s1, name, Inlining(orig, s1.cips[name], s1.cips[name].spec, 0, false)), name);
      }
    }
  }

  lemma PublishTouches(x: External, s: State, name: string, j: Job, reply: Reply)
    requires j.Publishing?
    ensures OnlyTouches(s, Publish(x, s, name, j, reply), name)
  {
    var text := x.render(j.res.uid, j.res.version, j.compiled);
    var s1 := if reply == Rejected then s else PutEntries(s, Some(Entries(s)[name := text]));
    var j' := if reply == Done then Reporting(j.orig, j.res, OkStatus(j.res.generation), false)
              else Reporting(j.orig, j.res, WriteFailedStatus(j.res), true);
    PutEntryTouches(s, name, text);
    ToTouches(s1, name, j');
    if reply != Rejected {
      TouchesTwice(s, s1, To(s1, name, j'), name);
    }
  }

  lemma ReportTouches(s: State, name: string, j: Job, reply: Reply)
    requires j.Reporting?
    ensures OnlyTouches(s, Report(s, name, j, reply), name)
  {
    FinishTouches(s, name, j.failed);
    FinishTouches(s, name, true);
    if name in s.cips {
      PutFinishTouches(s, name, s.cips[name].(status := j.status), j.failed || reply == Lost);
    }
  }

  lemma WithdrawFailedTouches(s: State, name: string, j: Job, reply: Reply)
    requires j.Withdrawing?
    ensures OnlyTouches(s, WithdrawFailed(s, name, j, reply), name)
  {
    var j' := Reporting(j.orig, j.res, j.status, true);
    WithdrawTouches(s, name);
    ToTouches(s, name, j');
    ToTouches(Withdraw(s, name), name, j');
    TouchesTwice(s, Withdraw(s, name), To(Withdraw(s, name), name, j'), name);
  }

  lemma FinalizeTouches(s: State, name: string, j: Job, reply: Reply)
    requires j.Finalizing?
    ensures OnlyTouches(s, Finalize(s, name, j, reply), name)
  {
    var s1 := Withdraw(s, name);
    WithdrawTouches(s, name);
    FinishTouches(s, name, true);
    FinishTouches(s1, name, true);
    TouchesTwice(s, s1, Finish(s1, name, true), name);
    ToTouches(s1, name, Releasing(j.orig));
    TouchesTwice(s, s1, To(s1, name, Releasing(j.orig)), name);
  }

  lemma ReleaseTouches(s: State, name: string, j: Job, reply: Reply)
    requires j.Releasing?
    ensures OnlyTouches(s, Release(s, name, j, reply), name)
  {
    FinishTouches(s, name, false);
    FinishTouches(s, name, true);
    if name in s.cips {
      var finalizers := Listed(Names(j.orig.finalizers) - {OURS});
      PutFinishTouches(s, name, s.cips[name].(finalizers := finalizers), reply == Lost);
    }
  }

  lemma AdvanceTouches(x: External, s: State, name: string, reply: Reply)
    requires name in s.jobs
    ensures OnlyTouches(s, AdvanceJob(x, s, name, reply), name)
  {
    var j := s.jobs[name];
    match j
    case Fetched(orig) => EnsureFinalizerTouches(s, name, orig, reply);
    case Inlining(_, _, _, _, _) => InlineNextOnlyReads(x, s, name, j, reply);
    case Withdrawing(_, _, _) => WithdrawFailedTouches(s, name, j, reply);
    case Publishing(_, _, _) => PublishTouches(x, s, name, j, reply);
    case Reporting(_, _, _, _) => ReportTouches(s, name, j, reply);
    case Finalizing(_) => FinalizeTouches(s, name, j, reply);
    case Releasing(_) => ReleaseTouches(s, name, j, reply);
  }

  /** The action concerns the one policy it names. */
  predicate OnOnePolicy(a: Action) {
    a.Create? || a.Edit? || a.Touch? || a.Delete? || a.Start? || a.Advance?
  }

  lemma StartTouches(s: State, name: string)
    ensures OnlyTouches(s, StartJob(s, name), name)
  {
    var s1 := s.(queue := s.queue - {name});
    assert OnlyTouches(s, s1, name);
    if name in s.cips {
      var job := if s.cips[name].deleting then Finalizing(s.cips[name]) else Fetched(s.cips[name]);
      ToTouches(s1, name, job);
      TouchesTwice(s, s1, To(s1, name, job), name);
    }
  }

  lemma EditTouches(x: External, s: State, a: Action)
    requires Enabled(s, a) && (a.Create? || a.Edit? || a.Touch? || a.Delete?)
    ensures OnlyTouches(s, Apply(x, s, a), a.name)
  {
    var cip := match a
      case Create(_, spec, finalizers) => Cip(s.clock + 1, 0, 1, spec, finalizers, false, NO_STATUS)
      case Edit(name, spec) => s.cips[name].(spec := spec, generation := s.cips[name].generation + 1)
      case Touch(name, finalizers, status) => s.cips[name].(finalizers := finalizers, status := status)
      case Delete(name) => s.cips[name].(deleting := true, generation := s.cips[name].generation + 1);
    assert Apply(x, s, a) == Put(s, a.name, cip);
    PutTouches(s, a.name, cip);
  }

  lemma ApplyTouches(x: External, s: State, a: Action)
    requires Enabled(s, a) && OnOnePolicy(a)
    ensures OnlyTouches(s, Apply(x, s, a), a.name)
  {
    if a.Start? {
      StartTouches(s, a.name);
    } else if a.Advance? {
      AdvanceTouches(x, s, a.name, a.reply);
    } else {
      EditTouches(x, s, a);
    }
  }

  // ---------- runs ----------

  ghost predicate IsRun(x: External, s: State, actions: seq<Action>)
    decreases |actions|
  {
    actions != [] ==> Enabled(s, actions[0]) && IsRun(x, Apply(x, s, actions[0]), actions[1..])
  }

  ghost function After(x: External, s: State, actions: seq<Action>): State
    requires IsRun(x, s, actions)
    decreases |actions|
  {
    if actions == [] then s else After(x, Apply(x, s, actions[0]), actions[1..])
  }

  /** The controller starts against any cluster content: all it knows is that the informers queue every object. */
  predicate Init(s: State) {
    && s.jobs == map[] && s.trackers == {} && s.queue == s.cips.Keys
    && forall n :: n in s.cips ==> s.cips[n].version <= s.clock
  }

  lemma Prepend(x: External, s: State, a: Action, rest: seq<Action>)
    requires Enabled(s, a) && IsRun(x, Apply(x, s, a), rest)
    ensures IsRun(x, s, [a] + rest) && After(x, s, [a] + rest) == After(x, Apply(x, s, a), rest)
  {
    assert ([a] + rest)[1..] == rest;
  }

  lemma {:induction false} RunThen(x: External, s: State, first: seq<Action>, more: seq<Action>)
    requires IsRun(x, s, first) && IsRun(x, After(x, s, first), more)
    ensures IsRun(x, s, first + more) && After(x, s, first + more) == After(x, After(x, s, first), more)
    decreases |first|
  {
    if first == [] {
      assert first + more == more;
    } else {
      RunThen(x, Apply(x, s, first[0]), first[1..], more);
      assert first + more == [first[0]] + (first[1..] + more);
      Prepend(x, s, first[0], first[1..] + more);
    }
  }

  /** The states that a list of actions passes through. */
  ghost function Through(x: External, s: State, actions: seq<Action>, k: nat): State
    requires IsRun(x, s, actions)
    decreases |actions|
  {
    if k == 0 || actions == [] then s else Through(x, Apply(x, s, actions[0]), actions[1..], k - 1)
  }

  lemma {:induction false} ThroughSteps(x: External, s: State, actions: seq<Action>, k: nat)
    requires IsRun(x, s, actions) && k < |actions|
    ensures Enabled(Through(x, s, actions, k), actions[k])
    ensures Through(x, s, actions, k + 1) == Apply(x, Through(x, s, actions, k), actions[k])
    decreases |actions|
  {
    if k > 0 {
      ThroughSteps(x, Apply(x, s, actions[0]), actions[1..], k - 1);
    }
  }

  lemma {:induction false} ThroughEnds(x: External, s: State, actions: seq<Action>)
    requires IsRun(x, s, actions)
    ensures Through(x, s, actions, |actions|) == After(x, s, actions)
    decreases |actions|
  {
    if actions != [] {
      ThroughEnds(x, Apply(x, s, actions[0]), actions[1..]);
    }
  }

  // ---------- where the source panics ----------

  /** The text of a remote attestation policy cannot be had, and there is no top-level remote policy to be logged. */
  ghost predicate AtPanic(x: External, j: Job) {
    && j.Inlining? && j.k < |Plan(j.res.spec)|
    && var op := Plan(j.res.spec)[j.k];
       && op.AttestationRemote? && Pending(j.partial, op)
       && InlineRemote(x, AttestationPolicy(j.partial, op.i, op.j)).Err?
       && (j.partial.policy.None? || j.partial.policy.value.remote.None?)
  }

  /**
   There the process dies, which is a restart: entry and status stay, and the key is queued again. The job fails here
   instead, so that the entry goes in its next step; a restart is possible in this state as in every other.
   */
  lemma PanicIsRestart(x: External, s: State, name: string)
    requires name in s.jobs && AtPanic(x, s.jobs[name])
    ensures var j := s.jobs[name];
      exists status ::
        && Apply(x, s, Advance(name, Done)) == To(s, name, Withdrawing(j.orig, j.res, status))
        && status.keysInlined == True && status.policiesInlined == False(NotInlined(NilDereference))
    ensures var dead := Apply(x, s, Restart);
      && dead.cm == s.cm && dead.cips == s.cips && dead.jobs == map[]
      && (name in s.cips ==> name in dead.queue)
  {
  }
}
