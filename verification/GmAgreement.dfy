/**
 What the memory changes. The key of a remembered answer holds signature and signer; the module is asked about the
 payload as well, and at the address the policy names. Calls with memory accept what calls without it accept exactly as
 long as no remembered answer is used for a question with another answer.
 */
module GmAgreement {
  import opened Wrappers
  import opened GmCacheKey
  import opened GmVerify
  import opened GmRuns

  function AsCall(cfg: Settings, c: Session): Call { Call(cfg.lib, c.ref, c.digest, c.sigs, Exchange([], [], [])) }

  function Indices(accepted: seq<Accepted>): seq<nat> {
    seq(|accepted|, i requires 0 <= i < |accepted| => accepted[i].index)
  }

  ghost predicate TruthfulStep(cfg: Settings, s: State, a: Action, hsm: Module)
    requires AllSane(cfg, s) && Enabled(cfg, s, a)
  {
    a.Hear? ==>
      var c := s.sessions[a.id];
      a.answer == if hsm.verdict(UseAt(AsCall(cfg, c), c.next)) then Positive else Negative
  }

  /** The module always answers, and by what it is asked alone. */
  ghost predicate TruthfulRun(cfg: Settings, s: State, run: seq<Action>, hsm: Module)
    requires IsRun(cfg, s, run)
    decreases |run|
  {
    run != [] ==> TruthfulStep(cfg, s, run[0], hsm) && TruthfulRun(cfg, Apply(cfg, s, run[0]), run[1..], hsm)
  }

  // ---------- nothing deserving is missed ----------

  /** In order, and every deserving signature passed so far among them. */
  ghost predicate Complete(cfg: Settings, c: Session, hsm: Module) {
    && Sane(cfg, c)
    && Increasing(Indices(c.accepted), c.next)
    && (forall i | 0 <= i < c.next :: Deserves(AsCall(cfg, c), i, hsm) ==> i in Indices(c.accepted))
    && (c.phase.Storing? ==> Deserves(AsCall(cfg, c), c.next, hsm))
  }

  ghost predicate AllComplete(cfg: Settings, s: State, hsm: Module) {
    forall id | id in s.sessions :: Complete(cfg, s.sessions[id], hsm)
  }

  lemma AcceptIsComplete(cfg: Settings, c: Session, now: int, hsm: Module)
    requires Complete(cfg, c, hsm) && c.next < |c.sigs|
    ensures Complete(cfg, Accept(c, now), hsm)
  {
    var before, after := Indices(c.accepted), Indices(Accept(c, now).accepted);
    assert after == before + [c.next];
  }

  lemma RejectIsComplete(cfg: Settings, c: Session, hsm: Module)
    requires Complete(cfg, c, hsm) && c.next < |c.sigs| && !Deserves(AsCall(cfg, c), c.next, hsm)
    ensures Complete(cfg, Reject(c), hsm)
  {
  }

  lemma LookIsComplete(cfg: Settings, s: State, c: Session, hsm: Module)
    requires Complete(cfg, c, hsm) && c.next < |c.sigs|
    ensures Complete(cfg, Looked(cfg, s, c), hsm)
  {
    if GateOf(cfg, c, c.next).Err? {
      RejectIsComplete(cfg, c, hsm);
    } else if Hit(cfg, s, KeyOf(cfg, c, c.next)) {
      AcceptIsComplete(cfg, c, s.now, hsm);
    }
  }

  lemma HearIsComplete(cfg: Settings, s: State, c: Session, answer: Answer, hsm: Module)
    requires Complete(cfg, c, hsm) && c.phase.Asking?
    requires answer == if hsm.verdict(UseAt(AsCall(cfg, c), c.next)) then Positive else Negative
    ensures Complete(cfg, Heard(s, c, answer), hsm)
  {
    if !answer.Positive? {
      RejectIsComplete(cfg, c, hsm);
    }
  }

  lemma StepStaysComplete(cfg: Settings, s: State, a: Action, hsm: Module)
    requires AllSane(cfg, s) && AllComplete(cfg, s, hsm) && Enabled(cfg, s, a) && TruthfulStep(cfg, s, a, hsm)
    ensures AllComplete(cfg, Apply(cfg, s, a), hsm)
  {
    match a
    case Look(id) => LookIsComplete(cfg, s, s.sessions[id], hsm);
    case Hear(id, answer) => HearIsComplete(cfg, s, s.sessions[id], answer, hsm);
    case Save(id) => AcceptIsComplete(cfg, s.sessions[id], s.now, hsm);
    case Begin(id, ref, digest, sigs) =>
      assert Indices([]) == [];
    case _ =>
  }

  lemma {:induction false} RunStaysComplete(cfg: Settings, s: State, run: seq<Action>, hsm: Module)
    requires IsRun(cfg, s, run) && TruthfulRun(cfg, s, run, hsm) && AllComplete(cfg, s, hsm)
    ensures AllComplete(cfg, After(cfg, s, run), hsm)
    decreases |run|
  {
    if run != [] {
      StepStaysComplete(cfg, s, run[0], hsm);
      RunStaysComplete(cfg, Apply(cfg, s, run[0]), run[1..], hsm);
    }
  }

  /**
   In every run with a truthful module, a call accepts what a call without memory accepts, in the same order, if and
   only if the module would confirm each accepted signature for its own payload: those accepted by a hit, that is.
   */
  lemma CachedAgreesIff(cfg: Settings, s: State, run: seq<Action>, hsm: Module, id: nat)
    requires Init(s) && IsRun(cfg, s, run) && TruthfulRun(cfg, s, run, hsm) && id in After(cfg, s, run).sessions
    ensures var c := After(cfg, s, run).sessions[id];
      c.next <= |c.sigs| &&
      (Indices(c.accepted) == Deserving(AsCall(cfg, c), hsm, c.next) <==>
       forall i | i in Indices(c.accepted) :: i < c.next && Deserves(AsCall(cfg, c), i, hsm))
  {
    RunStaysComplete(cfg, s, run, hsm);
    var c := After(cfg, s, run).sessions[id];
    AgreesIff(AsCall(cfg, c), hsm, c.next, Indices(c.accepted));
  }

  // ---------- questions that keys tell apart ----------

  /** The questions that the calls of a run may put. */
  ghost predicate Raises(cfg: Settings, a: Action, u: Use) {
    a.Begin? && exists i | 0 <= i < |a.sigs| ::
      Gate(cfg.lib, a.ref, a.digest, a.sigs[i]).Ok? &&
      u == Use(a.ref, Gate(cfg.lib, a.ref, a.digest, a.sigs[i]).value, a.sigs[i].payload.value)
  }

  ghost predicate AllRaised(cfg: Settings, run: seq<Action>, hsm: Module) {
    forall a, u :: a in run && Raises(cfg, a, u) ==> u in hsm.uses
  }

  ghost predicate Known(c: Call, hsm: Module) {
    forall i | 0 <= i < |c.sigs| :: Passed(c, i) ==> UseAt(c, i) in hsm.uses
  }

  /** Every question is known, and nothing undeserving was accepted. */
  ghost predicate Clean(cfg: Settings, c: Session, hsm: Module) {
    && Sane(cfg, c)
    && Known(AsCall(cfg, c), hsm)
    && (forall a | a in c.accepted :: Deserves(AsCall(cfg, c), a.index, hsm))
    && (c.phase.Storing? ==> Deserves(AsCall(cfg, c), c.next, hsm))
  }

  ghost predicate AllClean(cfg: Settings, s: State, hsm: Module) {
    SoundMemory(cfg.lib, hsm, s.entries) && forall id | id in s.sessions :: Clean(cfg, s.sessions[id], hsm)
  }

  lemma LookIsClean(cfg: Settings, s: State, c: Session, hsm: Module)
    requires SoundMemory(cfg.lib, hsm, s.entries) && Clean(cfg, c, hsm) && c.next < |c.sigs|
    ensures Clean(cfg, Looked(cfg, s, c), hsm)
  {
    assert AsCall(cfg, Looked(cfg, s, c)) == AsCall(cfg, c);
    if GateOf(cfg, c, c.next).Ok? {
      assert UseAt(AsCall(cfg, c), c.next) in hsm.uses;
    }
  }

  lemma SaveIsSound(cfg: Settings, s: State, c: Session, hsm: Module)
    requires SoundMemory(cfg.lib, hsm, s.entries) && Coherent(cfg.lib, hsm) && Clean(cfg, c, hsm) && c.phase.Storing?
    ensures SoundMemory(cfg.lib, hsm, s.entries[KeyOf(cfg, c, c.next) := s.now])
  {
    assert UseAt(AsCall(cfg, c), c.next) in hsm.uses;
  }

  lemma HearIsClean(cfg: Settings, s: State, c: Session, answer: Answer, hsm: Module)
    requires Clean(cfg, c, hsm) && c.phase.Asking?
    requires answer == if hsm.verdict(UseAt(AsCall(cfg, c), c.next)) then Positive else Negative
    ensures Clean(cfg, Heard(s, c, answer), hsm)
  {
    assert AsCall(cfg, Heard(s, c, answer)) == AsCall(cfg, c);
  }

  lemma AcceptIsClean(cfg: Settings, c: Session, now: int, hsm: Module)
    requires Clean(cfg, c, hsm) && c.phase.Storing?
    ensures Clean(cfg, Accept(c, now), hsm)
  {
    assert AsCall(cfg, Accept(c, now)) == AsCall(cfg, c);
  }

  lemma BeginIsClean(cfg: Settings, a: Action, hsm: Module)
    requires a.Begin? && AllRaised(cfg, [a], hsm)
    ensures Clean(cfg, Session(a.ref, a.digest, a.sigs, 0, Ready, []), hsm)
  {
    var c := Session(a.ref, a.digest, a.sigs, 0, Ready, []);
    forall i | 0 <= i < |c.sigs| && Passed(AsCall(cfg, c), i) ensures UseAt(AsCall(cfg, c), i) in hsm.uses {
      assert a in [a] && Raises(cfg, a, UseAt(AsCall(cfg, c), i));
    }
  }

  lemma StepStaysClean(cfg: Settings, s: State, a: Action, hsm: Module)
    requires AllSane(cfg, s) && AllClean(cfg, s, hsm) && (cfg.enabled ==> Coherent(cfg.lib, hsm))
    requires Enabled(cfg, s, a) && TruthfulStep(cfg, s, a, hsm) && AllRaised(cfg, [a], hsm)
    ensures AllClean(cfg, Apply(cfg, s, a), hsm)
  {
    match a
    case Look(id) => LookIsClean(cfg, s, s.sessions[id], hsm);
    case Hear(id, answer) => HearIsClean(cfg, s, s.sessions[id], answer, hsm);
    case Save(id) =>
      if cfg.enabled {
        SaveIsSound(cfg, s, s.sessions[id], hsm);
      }
      AcceptIsClean(cfg, s.sessions[id], s.now, hsm);
    case Begin(_, _, _, _) => BeginIsClean(cfg, a, hsm);
    case _ =>
  }

  lemma {:induction false} RunStaysClean(cfg: Settings, s: State, run: seq<Action>, hsm: Module)
    requires IsRun(cfg, s, run) && TruthfulRun(cfg, s, run, hsm) && AllRaised(cfg, run, hsm)
    requires AllClean(cfg, s, hsm) && (cfg.enabled ==> Coherent(cfg.lib, hsm))
    ensures AllClean(cfg, After(cfg, s, run), hsm)
    decreases |run|
  {
    if run != [] {
      assert run[0] in run && forall a :: a in run[1..] ==> a in run;
      StepStaysClean(cfg, s, run[0], hsm);
      RunStaysClean(cfg, Apply(cfg, s, run[0]), run[1..], hsm);
    }
  }

  /**
   If there is no memory, or the questions that the run raises have the same answer whenever they have the same key,
   every call accepts, from whatever the memory holds by then, what a call without memory accepts, in the same order.
   */
  lemma CachedIsUncached(cfg: Settings, s: State, run: seq<Action>, hsm: Module, id: nat)
    requires Init(s) && IsRun(cfg, s, run) && TruthfulRun(cfg, s, run, hsm) && AllRaised(cfg, run, hsm)
    requires (cfg.enabled ==> Coherent(cfg.lib, hsm)) && id in After(cfg, s, run).sessions
    ensures var c := After(cfg, s, run).sessions[id];
      c.next <= |c.sigs| && Indices(c.accepted) == Deserving(AsCall(cfg, c), hsm, c.next)
  {
    RunStaysClean(cfg, s, run, hsm);
    CachedAgreesIff(cfg, s, run, hsm, id);
    var c := After(cfg, s, run).sessions[id];
    forall i | i in Indices(c.accepted) ensures i < c.next && Deserves(AsCall(cfg, c), i, hsm) {
      var k :| 0 <= k < |c.accepted| && c.accepted[k].index == i;
      assert c.accepted[k] in c.accepted;
    }
  }

  /** In particular when keys tell the questions of the run apart and each signature comes with one payload. */
  lemma CachedIsUncachedIfToldApart(cfg: Settings, s: State, run: seq<Action>, hsm: Module, id: nat)
    requires Init(s) && IsRun(cfg, s, run) && TruthfulRun(cfg, s, run, hsm) && id in After(cfg, s, run).sessions
    requires AllRaised(cfg, run, hsm) && forall u, u' :: u in hsm.uses && u' in hsm.uses ==> ToldApart(cfg.lib, u, u')
    ensures var c := After(cfg, s, run).sessions[id];
      c.next <= |c.sigs| && Indices(c.accepted) == Deserving(AsCall(cfg, c), hsm, c.next)
  {
    CoherentIfToldApart(cfg.lib, hsm);
    CachedIsUncached(cfg, s, run, hsm, id);
  }

  // ---------- one signature with two payloads ----------

  lemma Prepend(cfg: Settings, s: State, a: Action, rest: seq<Action>, hsm: Module)
    requires AllSane(cfg, s) && Enabled(cfg, s, a) && TruthfulStep(cfg, s, a, hsm)
    requires IsRun(cfg, Apply(cfg, s, a), rest) && TruthfulRun(cfg, Apply(cfg, s, a), rest, hsm)
    ensures IsRun(cfg, s, [a] + rest) && TruthfulRun(cfg, s, [a] + rest, hsm)
    ensures After(cfg, s, [a] + rest) == After(cfg, Apply(cfg, s, a), rest)
  {
    assert ([a] + rest)[1..] == rest;
  }

  ghost predicate Runs(cfg: Settings, s: State, run: seq<Action>, hsm: Module) {
    IsRun(cfg, s, run) && TruthfulRun(cfg, s, run, hsm)
  }

  /** A call with one signature, for an image given by a digest. */
  datatype Offer = Offer(ref: GMSignatureRef, digest: string, sig: Signature)

  function Fresh(o: Offer): Session { Session(o.ref, o.digest, [o.sig], 0, Ready, []) }

  /** The call puts the question to the module, if it is not answered from memory. */
  ghost predicate Puts(cfg: Settings, o: Offer, u: Use) {
    && Gate(cfg.lib, o.ref, o.digest, o.sig) == Ok(u.bytes)
    && u.ref == o.ref && o.sig.payload == Ok(u.payload)
  }

  /** A call begins and looks its one signature up. */
  lemma BeginAndLook(cfg: Settings, s: State, id: nat, o: Offer, rest: seq<Action>, hsm: Module)
    requires AllSane(cfg, s) && id !in s.sessions
    requires Runs(cfg, s.(sessions := s.sessions[id := Looked(cfg, s, Fresh(o))]), rest, hsm)
    ensures var run := [Begin(id, o.ref, o.digest, [o.sig])] + ([Look(id)] + rest);
      Runs(cfg, s, run, hsm) &&
        After(cfg, s, run) == After(cfg, s.(sessions := s.sessions[id := Looked(cfg, s, Fresh(o))]), rest)
  {
    var c := Fresh(o);
    var s1 := s.(sessions := s.sessions[id := c]);
    var s2 := s.(sessions := s.sessions[id := Looked(cfg, s, c)]);
    assert Apply(cfg, s, Begin(id, o.ref, o.digest, [o.sig])) == s1;
    assert Looked(cfg, s1, c) == Looked(cfg, s, c) && Apply(cfg, s1, Look(id)) == s2;
    Prepend(cfg, s1, Look(id), rest, hsm);
    Prepend(cfg, s, Begin(id, o.ref, o.digest, [o.sig]), [Look(id)] + rest, hsm);
  }

  /** The module confirms the signature, and that is remembered. */
  lemma HearAndSave(cfg: Settings, s: State, id: nat, rest: seq<Action>, hsm: Module)
    requires AllSane(cfg, s) && cfg.enabled && id in s.sessions && s.sessions[id].phase.Asking?
    requires var c := s.sessions[id]; hsm.verdict(UseAt(AsCall(cfg, c), c.next))
    requires Runs(cfg, Saved(cfg, s, id), rest, hsm)
    ensures var run := [Hear(id, Positive)] + ([Save(id)] + rest);
      Runs(cfg, s, run, hsm) && After(cfg, s, run) == After(cfg, Saved(cfg, s, id), rest)
  {
    hide Gate, Key;
    var c := s.sessions[id];
    var s1 := Apply(cfg, s, Hear(id, Positive));
    assert Apply(cfg, s1, Save(id)).sessions == Saved(cfg, s, id).sessions;
    assert Apply(cfg, s1, Save(id)) == Saved(cfg, s, id);
    Prepend(cfg, s1, Save(id), rest, hsm);
    Prepend(cfg, s, Hear(id, Positive), [Save(id)] + rest, hsm);
  }

  function Saved(cfg: Settings, s: State, id: nat): State
    requires id in s.sessions && s.sessions[id].next < |s.sessions[id].sigs| &&
      GateOf(cfg, s.sessions[id], s.sessions[id].next).Ok?
  {
    var c := s.sessions[id];
    var key := KeyOf(cfg, c, c.next);
    State(s.now, s.entries[key := s.now], s.given + [Given(key, s.now)], s.sessions[id := Accept(c, s.now)])
  }

  function SecondCall(q: Offer): seq<Action> { [Begin(1, q.ref, q.digest, [q.sig])] + ([Look(1)] + []) }

  /** One call is confirmed by the module and remembered; then comes another. */
  function TwoCalls(p: Offer, q: Offer): seq<Action> {
    [Begin(0, p.ref, p.digest, [p.sig])] + ([Look(0)] + ([Hear(0, Positive)] + ([Save(0)] + SecondCall(q))))
  }

  /** The first call asks, as nothing is remembered. */
  lemma FirstAsks(cfg: Settings, s: State, p: Offer, u: Use)
    requires Init(s) && Puts(cfg, p, u)
    ensures Looked(cfg, s, Fresh(p)) == Fresh(p).(phase := Asking)
  {
  }

  /** The second is answered from the memory. */
  lemma SecondIsHit(cfg: Settings, s: State, q: Offer, u: Use)
    requires cfg.enabled && Puts(cfg, q, u)
    requires KeyOfUse(cfg.lib, u) in s.entries && s.entries[KeyOfUse(cfg.lib, u)] == s.now
    ensures Looked(cfg, s, Fresh(q)) == Fresh(q).(next := 1, accepted := [Accepted(0, s.now)])
  {
  }

  lemma SecondRuns(cfg: Settings, s: State, q: Offer, u: Use, hsm: Module)
    requires AllSane(cfg, s) && 1 !in s.sessions && cfg.enabled && Puts(cfg, q, u)
    requires KeyOfUse(cfg.lib, u) in s.entries && s.entries[KeyOfUse(cfg.lib, u)] == s.now
    ensures var run := SecondCall(q);
      && Runs(cfg, s, run, hsm) && 1 in After(cfg, s, run).sessions
      && After(cfg, s, run).sessions[1] == Fresh(q).(next := 1, accepted := [Accepted(0, s.now)])
  {
    SecondIsHit(cfg, s, q, u);
    BeginAndLook(cfg, s, 1, q, [], hsm);
  }

  /** After the first call was confirmed. */
  lemma FirstIsSaved(cfg: Settings, s: State, p: Offer, u: Use, hsm: Module) returns (saved: State)
    requires Init(s) && cfg.enabled && Puts(cfg, p, u) && hsm.verdict(u)
    ensures AllSane(cfg, saved) && 1 !in saved.sessions && saved.now == s.now
    ensures KeyOfUse(cfg.lib, u) in saved.entries && saved.entries[KeyOfUse(cfg.lib, u)] == s.now
    ensures forall rest :: Runs(cfg, saved, rest, hsm) ==>
      var run := [Begin(0, p.ref, p.digest, [p.sig])] + ([Look(0)] + ([Hear(0, Positive)] + ([Save(0)] + rest)));
      Runs(cfg, s, run, hsm) && After(cfg, s, run) == After(cfg, saved, rest)
  {
    FirstAsks(cfg, s, p, u);
    var asking := s.(sessions := s.sessions[0 := Looked(cfg, s, Fresh(p))]);
    saved := Saved(cfg, asking, 0);
    forall rest | Runs(cfg, saved, rest, hsm) ensures
      var run := [Begin(0, p.ref, p.digest, [p.sig])] + ([Look(0)] + ([Hear(0, Positive)] + ([Save(0)] + rest)));
      Runs(cfg, s, run, hsm) && After(cfg, s, run) == After(cfg, saved, rest)
    {
      HearAndSave(cfg, asking, 0, rest, hsm);
      BeginAndLook(cfg, s, 0, p, [Hear(0, Positive)] + ([Save(0)] + rest), hsm);
    }
  }

  /**
   Two questions with one key, of which the module answers the first positively and the second not: the second is
   accepted from the memory all the same, and a call without memory accepts nothing.
   */
  lemma SecondIsAccepted(cfg: Settings, s: State, p: Offer, u: Use, q: Offer, u': Use, hsm: Module)
    requires Init(s) && cfg.enabled && Puts(cfg, p, u) && Puts(cfg, q, u')
    requires KeyOfUse(cfg.lib, u) == KeyOfUse(cfg.lib, u') && hsm.verdict(u) && !hsm.verdict(u')
    ensures var run := TwoCalls(p, q);
      && Runs(cfg, s, run, hsm) && 1 in After(cfg, s, run).sessions
      && var c := After(cfg, s, run).sessions[1];
         && c == Fresh(q).(next := 1, accepted := c.accepted)
         && Indices(c.accepted) == [0] && Deserving(AsCall(cfg, c), hsm, 1) == []
  {
    var saved := FirstIsSaved(cfg, s, p, u, hsm);
    SecondRuns(cfg, saved, q, u', hsm);
    var c := Fresh(q).(next := 1, accepted := [Accepted(0, s.now)]);
    assert !Deserves(AsCall(cfg, c), 0, hsm) && Deserving(AsCall(cfg, c), hsm, 0) == [];
  }

  /** One signature with two payloads, each claiming the digest of its image. */
  lemma SecondPayloadIsAccepted(cfg: Settings, s: State, p: Offer, q: Offer, bytes: Bytes, payload: Bytes,
                                payload': Bytes, hsm: Module)
    requires Init(s) && cfg.enabled && q.ref == p.ref
    requires Puts(cfg, p, Use(p.ref, bytes, payload)) && Puts(cfg, q, Use(q.ref, bytes, payload'))
    requires hsm.verdict(Use(p.ref, bytes, payload)) && !hsm.verdict(Use(q.ref, bytes, payload'))
    ensures var run := TwoCalls(p, q);
      && Runs(cfg, s, run, hsm) && 1 in After(cfg, s, run).sessions
      && var c := After(cfg, s, run).sessions[1];
         c.sigs == [q.sig] && Indices(c.accepted) == [0] && Deserving(AsCall(cfg, c), hsm, 1) == []
  {
    SecondIsAccepted(cfg, s, p, Use(p.ref, bytes, payload), q, Use(q.ref, bytes, payload'), hsm);
  }

  /** One signature and one payload under two policies, which name modules at two addresses or for two tenants. */
  lemma SecondAddressIsAccepted(cfg: Settings, s: State, p: Offer, url: string, tenant: string, bytes: Bytes,
                                payload: Bytes, hsm: Module)
    requires Init(s) && cfg.enabled && Puts(cfg, p, Use(p.ref, bytes, payload))
    requires var ref := p.ref.(verifyURL := url, tenantId := tenant);
      hsm.verdict(Use(p.ref, bytes, payload)) && !hsm.verdict(Use(ref, bytes, payload))
    ensures var q := p.(ref := p.ref.(verifyURL := url, tenantId := tenant));
      var run := TwoCalls(p, q);
      && Runs(cfg, s, run, hsm) && 1 in After(cfg, s, run).sessions
      && var c := After(cfg, s, run).sessions[1];
         c.ref == q.ref && c.sigs == [p.sig] && Indices(c.accepted) == [0] && Deserving(AsCall(cfg, c), hsm, 1) == []
  {
    var q := p.(ref := p.ref.(verifyURL := url, tenantId := tenant));
    SecondIsAccepted(cfg, s, p, Use(p.ref, bytes, payload), q, Use(q.ref, bytes, payload), hsm);
  }

  // ---------- the exact condition ----------

  /** Some call can come to put the question. */
  ghost predicate Askable(cfg: Settings, u: Use) { exists o :: Puts(cfg, o, u) }

  ghost predicate AgreesAt(cfg: Settings, s: State, run: seq<Action>, hsm: Module, id: nat)
    requires IsRun(cfg, s, run)
  {
    id in After(cfg, s, run).sessions ==>
      var c := After(cfg, s, run).sessions[id];
      c.next <= |c.sigs| && Indices(c.accepted) == Deserving(AsCall(cfg, c), hsm, c.next)
  }

  /** In every run with the module that raises known questions only, every call agrees with one without memory. */
  ghost predicate AlwaysAgrees(cfg: Settings, s: State, hsm: Module) {
    forall run, id :: Runs(cfg, s, run, hsm) && AllRaised(cfg, run, hsm) ==> AgreesAt(cfg, s, run, hsm, id)
  }

  lemma OnlyRaises(cfg: Settings, p: Offer, u: Use, q: Offer, u': Use, hsm: Module)
    requires Puts(cfg, p, u) && Puts(cfg, q, u') && u in hsm.uses && u' in hsm.uses
    ensures AllRaised(cfg, TwoCalls(p, q), hsm)
  {
    forall a, v | a in TwoCalls(p, q) && Raises(cfg, a, v) ensures v in hsm.uses {
      assert a == Begin(0, p.ref, p.digest, [p.sig]) || a == Begin(1, q.ref, q.digest, [q.sig]);
      assert v == u || v == u';
    }
  }

  lemma IncoherentDisagrees(cfg: Settings, s: State, hsm: Module, u: Use, u': Use)
    requires Init(s) && cfg.enabled && u in hsm.uses && u' in hsm.uses && Askable(cfg, u) && Askable(cfg, u')
    requires KeyOfUse(cfg.lib, u) == KeyOfUse(cfg.lib, u') && hsm.verdict(u) && !hsm.verdict(u')
    ensures !AlwaysAgrees(cfg, s, hsm)
  {
    var p :| Puts(cfg, p, u);
    var q :| Puts(cfg, q, u');
    SecondIsAccepted(cfg, s, p, u, q, u', hsm);
    OnlyRaises(cfg, p, u, q, u', hsm);
    assert !AgreesAt(cfg, s, TwoCalls(p, q), hsm, 1);
  }

  /**
   Memory never makes a difference, in whatever run, if and only if it is off or the questions that may come up have the
   same answer whenever they have the same key.
   */
  lemma AlwaysAgreesIffCoherent(cfg: Settings, s: State, hsm: Module)
    requires Init(s) && forall u :: u in hsm.uses ==> Askable(cfg, u)
    ensures AlwaysAgrees(cfg, s, hsm) <==> (cfg.enabled ==> Coherent(cfg.lib, hsm))
  {
    if cfg.enabled ==> Coherent(cfg.lib, hsm) {
      forall run, id | Runs(cfg, s, run, hsm) && AllRaised(cfg, run, hsm) ensures AgreesAt(cfg, s, run, hsm, id) {
        if id in After(cfg, s, run).sessions {
          CachedIsUncached(cfg, s, run, hsm, id);
        }
      }
    } else {
      var u, u' :| u in hsm.uses && u' in hsm.uses && KeyOfUse(cfg.lib, u) == KeyOfUse(cfg.lib, u')
                   && hsm.verdict(u) && !hsm.verdict(u');
      IncoherentDisagrees(cfg, s, hsm, u, u');
    }
  }
}
