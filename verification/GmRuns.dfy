/**
 Calls of the GM verifier that run at the same time and share one memory. Every access to the memory and every answer of
 the remote module is a step of its own, between which other calls, the clock and the library may act.
 */
module GmRuns {
  import opened Wrappers
  import opened GmCacheKey
  import opened GmVerify

  /** `lag` bounds the time from a positive answer to its storing. */
  datatype Settings = Settings(lib: Library, enabled: bool, ttl: nat, lag: nat)

  /** Where a call stands with its current signature. */
  datatype Phase = Ready | Asking | Storing(answered: int)

  datatype Accepted = Accepted(index: nat, at: int)

  datatype Session = Session(
    ref: GMSignatureRef,
    digest: string,
    sigs: seq<Signature>,
    next: nat,
    phase: Phase,
    accepted: seq<Accepted>)

  /** A positive answer of the module: for which key, and when. */
  datatype Given = Given(key: string, at: int)

  datatype State = State(now: int, entries: map<string, int>, given: seq<Given>, sessions: map<nat, Session>)

  datatype Action =
    | Tick(d: nat)
    | Drop(key: string)
    | Begin(id: nat, ref: GMSignatureRef, digest: string, sigs: seq<Signature>)
    | Look(id: nat)
    | Hear(id: nat, answer: Answer)
    | Save(id: nat)

  function GateOf(cfg: Settings, c: Session, i: nat): Result<Bytes, SignatureError>
    requires i < |c.sigs|
  {
    Gate(cfg.lib, c.ref, c.digest, c.sigs[i])
  }

  function KeyOf(cfg: Settings, c: Session, i: nat): string
    requires i < |c.sigs| && GateOf(cfg, c, i).Ok?
  {
    Key(cfg.lib, c.ref.signer, GateOf(cfg, c, i).value)
  }

  // ---------- steps ----------

  ghost predicate Enabled(cfg: Settings, s: State, a: Action) {
    match a
    case Tick(_) => true
    case Drop(_) => true
    case Begin(id, _, _, _) => id !in s.sessions
    case Look(id) => id in s.sessions && s.sessions[id].next < |s.sessions[id].sigs| && s.sessions[id].phase.Ready?
    case Hear(id, _) => id in s.sessions && s.sessions[id].phase.Asking?
    case Save(id) =>
      id in s.sessions && s.sessions[id].phase.Storing? &&
      s.now <= s.sessions[id].phase.answered + cfg.lag
  }

  function Accept(c: Session, now: int): Session {
    c.(next := c.next + 1, phase := Ready, accepted := c.accepted + [Accepted(c.next, now)])
  }

  function Reject(c: Session): Session { c.(next := c.next + 1, phase := Ready) }

  predicate Hit(cfg: Settings, s: State, key: string) {
    cfg.enabled && key in s.entries && s.now <= s.entries[key] + cfg.ttl
  }

  /** The gates and the memory. */
  function Looked(cfg: Settings, s: State, c: Session): Session
    requires c.next < |c.sigs|
  {
    if GateOf(cfg, c, c.next).Err? then Reject(c)
    else if Hit(cfg, s, KeyOf(cfg, c, c.next)) then Accept(c, s.now)
    else c.(phase := Asking)
  }

  function Heard(s: State, c: Session, answer: Answer): Session {
    if answer.Positive? then c.(phase := Storing(s.now)) else Reject(c)
  }

  ghost predicate Sane(cfg: Settings, c: Session) {
    && (!c.phase.Ready? ==> c.next < |c.sigs| && GateOf(cfg, c, c.next).Ok?)
    && (forall a | a in c.accepted :: a.index < c.next)
    && c.next <= |c.sigs|
  }

  ghost predicate AllSane(cfg: Settings, s: State) { forall id | id in s.sessions :: Sane(cfg, s.sessions[id]) }

  function Apply(cfg: Settings, s: State, a: Action): State
    requires AllSane(cfg, s) && Enabled(cfg, s, a)
  {
    match a
    case Tick(d) => s.(now := s.now + d)
    case Drop(key) => s.(entries := s.entries - {key})
    case Begin(id, ref, digest, sigs) => s.(sessions := s.sessions[id := Session(ref, digest, sigs, 0, Ready, [])])
    case Look(id) => s.(sessions := s.sessions[id := Looked(cfg, s, s.sessions[id])])
    case Hear(id, answer) =>
      var c := s.sessions[id];
      State(s.now, s.entries, if answer.Positive? then s.given + [Given(KeyOf(cfg, c, c.next), s.now)] else s.given,
            s.sessions[id := Heard(s, c, answer)])
    case Save(id) =>
      var c := s.sessions[id];
      s.(entries := if cfg.enabled then s.entries[KeyOf(cfg, c, c.next) := s.now] else s.entries,
         sessions := s.sessions[id := Accept(c, s.now)])
  }

  lemma StepStaysSane(cfg: Settings, s: State, a: Action)
    requires AllSane(cfg, s) && Enabled(cfg, s, a)
    ensures AllSane(cfg, Apply(cfg, s, a))
  {
  }

  ghost predicate IsRun(cfg: Settings, s: State, run: seq<Action>)
    decreases |run|
  {
    AllSane(cfg, s) && (run != [] ==> Enabled(cfg, s, run[0]) && IsRun(cfg, Apply(cfg, s, run[0]), run[1..]))
  }

  ghost function After(cfg: Settings, s: State, run: seq<Action>): State
    requires IsRun(cfg, s, run)
    decreases |run|
  {
    if run == [] then s else After(cfg, Apply(cfg, s, run[0]), run[1..])
  }

  /** Nothing is remembered and no call has begun. */
  ghost predicate Init(s: State) { s.entries == map[] && s.given == [] && s.sessions == map[] }

  // ---------- trust is bounded in time ----------

  /** Some positive answer for the key lies at most `age` before the time. */
  ghost predicate Backed(s: State, key: string, time: int, age: int) {
    exists g | g in s.given :: g.key == key && g.at <= time <= g.at + age
  }

  ghost predicate Earned(cfg: Settings, s: State, c: Session) {
    && Sane(cfg, c)
    && (c.phase.Storing? ==> Given(KeyOf(cfg, c, c.next), c.phase.answered) in s.given && c.phase.answered <= s.now)
    && (forall a | a in c.accepted ::
         GateOf(cfg, c, a.index).Ok? && Backed(s, KeyOf(cfg, c, a.index), a.at, cfg.lag + cfg.ttl))
  }

  ghost predicate Bounded(cfg: Settings, s: State) {
    && (forall k | k in s.entries :: Backed(s, k, s.entries[k], cfg.lag) && s.entries[k] <= s.now)
    && (forall id | id in s.sessions :: Earned(cfg, s, s.sessions[id]))
  }

  /** More answers and later times take nothing away. */
  lemma EarnedStays(cfg: Settings, s: State, s': State, c: Session)
    requires Earned(cfg, s, c) && s.now <= s'.now && forall g | g in s.given :: g in s'.given
    ensures Earned(cfg, s', c)
  {
  }

  lemma LookEarns(cfg: Settings, s: State, c: Session)
    requires Bounded(cfg, s) && Earned(cfg, s, c) && c.next < |c.sigs| && c.phase.Ready?
    ensures Earned(cfg, s, Looked(cfg, s, c))
  {
    if GateOf(cfg, c, c.next).Ok? && Hit(cfg, s, KeyOf(cfg, c, c.next)) {
      var key := KeyOf(cfg, c, c.next);
      var g :| g in s.given && g.key == key && g.at <= s.entries[key] <= g.at + cfg.lag;
      assert Backed(s, key, s.now, cfg.lag + cfg.ttl);
    }
  }

  lemma SaveEarns(cfg: Settings, s: State, c: Session)
    requires Earned(cfg, s, c) && c.phase.Storing? && s.now <= c.phase.answered + cfg.lag
    ensures Earned(cfg, s, Accept(c, s.now))
    ensures Backed(s, KeyOf(cfg, c, c.next), s.now, cfg.lag)
  {
  }

  lemma OthersStayEarned(cfg: Settings, s: State, s': State)
    requires Bounded(cfg, s) && s.now <= s'.now && forall g | g in s.given :: g in s'.given
    ensures forall id | id in s.sessions :: Earned(cfg, s', s.sessions[id])
    ensures forall k | k in s.entries :: Backed(s', k, s.entries[k], cfg.lag)
  {
  }

  lemma LookKeepsBounded(cfg: Settings, s: State, id: nat)
    requires Bounded(cfg, s) && Enabled(cfg, s, Look(id))
    ensures Bounded(cfg, Apply(cfg, s, Look(id)))
  {
    var s' := Apply(cfg, s, Look(id));
    OthersStayEarned(cfg, s, s');
    LookEarns(cfg, s, s.sessions[id]);
    EarnedStays(cfg, s, s', Looked(cfg, s, s.sessions[id]));
  }

  lemma HearKeepsBounded(cfg: Settings, s: State, id: nat, answer: Answer)
    requires Bounded(cfg, s) && Enabled(cfg, s, Hear(id, answer))
    ensures Bounded(cfg, Apply(cfg, s, Hear(id, answer)))
  {
    var s' := Apply(cfg, s, Hear(id, answer));
    OthersStayEarned(cfg, s, s');
    assert answer.Positive? ==> s'.given[|s.given|] in s'.given;
  }

  lemma SaveKeepsBounded(cfg: Settings, s: State, id: nat)
    requires Bounded(cfg, s) && Enabled(cfg, s, Save(id))
    ensures Bounded(cfg, Apply(cfg, s, Save(id)))
  {
    var s', c := Apply(cfg, s, Save(id)), s.sessions[id];
    OthersStayEarned(cfg, s, s');
    SaveEarns(cfg, s, c);
    EarnedStays(cfg, s, s', Accept(c, s.now));
    assert Backed(s', KeyOf(cfg, c, c.next), s.now, cfg.lag);
  }

  lemma StepKeepsBounded(cfg: Settings, s: State, a: Action)
    requires Bounded(cfg, s) && Enabled(cfg, s, a)
    ensures Bounded(cfg, Apply(cfg, s, a))
  {
    match a
    case Look(id) => LookKeepsBounded(cfg, s, id);
    case Hear(id, answer) => HearKeepsBounded(cfg, s, id, answer);
    case Save(id) => SaveKeepsBounded(cfg, s, id);
    case _ => OthersStayEarned(cfg, s, Apply(cfg, s, a));
  }

  lemma {:induction false} RunKeepsBounded(cfg: Settings, s: State, run: seq<Action>)
    requires IsRun(cfg, s, run) && Bounded(cfg, s)
    ensures Bounded(cfg, After(cfg, s, run))
    decreases |run|
  {
    if run != [] {
      StepKeepsBounded(cfg, s, run[0]);
      RunKeepsBounded(cfg, Apply(cfg, s, run[0]), run[1..]);
    }
  }

  /**
   In every run, each accepted signature passed the gates, and the module answered positively for its key at most one
   time to live (and the lag of storing) before it was accepted; and every key held was answered positively.
   */
  lemma TrustIsBounded(cfg: Settings, s: State, run: seq<Action>, id: nat, a: Accepted)
    requires Init(s) && IsRun(cfg, s, run)
    requires var t := After(cfg, s, run); id in t.sessions && a in t.sessions[id].accepted
    ensures var t := After(cfg, s, run); var c := t.sessions[id];
      && a.index < |c.sigs| && GateOf(cfg, c, a.index).Ok?
      && SignerAgrees(c.ref, c.sigs[a.index].annotations.value)
      && (c.digest != "" ==> cfg.lib.claimedDigest(c.sigs[a.index].payload.value) == Some(c.digest))
      && (exists g | g in t.given :: g.key == KeyOf(cfg, c, a.index) && g.at <= a.at <= g.at + cfg.lag + cfg.ttl)
      && (forall k | k in t.entries :: exists g | g in t.given :: g.key == k)
  {
    RunKeepsBounded(cfg, s, run);
    var t := After(cfg, s, run);
    var c := t.sessions[id];
    assert Earned(cfg, t, c);
    GateMeans(cfg.lib, c.ref, c.digest, c.sigs[a.index], GateOf(cfg, c, a.index).value);
    assert Backed(t, KeyOf(cfg, c, a.index), a.at, cfg.lag + cfg.ttl);
    forall k | k in t.entries ensures exists g | g in t.given :: g.key == k {
      assert Backed(t, k, t.entries[k], cfg.lag);
    }
  }
}
