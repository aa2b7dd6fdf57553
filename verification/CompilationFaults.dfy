/**
 Why a spec does not compile: the fault of the first place, in the order of the visits, whose reference leads nowhere.
 */
module CompilationFaults {
  import opened Wrappers
  import opened V1alpha1
  import opened Inlining
  import opened EntryReads
  import opened CompiledSpec

  // ---------- what can be wrong with a reference ----------

  predicate SecretFault(x: External, v: View, name: string, e: InlineError) {
    if name !in v.secrets then e == SecretMissing(name)
    else if v.secrets[name] == map[] then e == SecretEmpty(name)
    else if |v.secrets[name]| > 1 then e == SecretAmbiguous(name)
    else e == SecretNotPem(name) && forall text | text in v.secrets[name].Values :: !x.pemOk(text)
  }

  predicate MapFault(v: View, ref: ConfigMapReference, e: InlineError) {
    if ref.name !in v.configMaps then e == ConfigMapMissing(ref.name)
    else if v.configMaps[ref.name] == map[] then e == ConfigMapEmpty(ref.name)
    else
      && e == ConfigMapKeyMissing(ref.name, ref.key)
      && (ref.key in v.configMaps[ref.name] ==> v.configMaps[ref.name][ref.key] == "")
  }

  predicate WebFault(x: External, r: RemotePolicy, e: InlineError) {
    match x.fetch(r.url)
    case None => e == RemoteUnavailable(r.url)
    case Some(text) => x.sha256(text) != r.sha256sum && e == RemoteChanged(r.url)
  }

  predicate KmsFault(x: External, key: KeyRef, e: InlineError) {
    x.kmsKey(key.kms, key.hashAlgorithm).None? && e == KmsUnavailable(key.kms)
  }

  /** The error with which the place stops the compilation of the spec, if it does. */
  ghost predicate Fault(x: External, v: View, s: Spec, op: Op, e: InlineError) {
    match op
    case KeySecret(i) =>
      HasKey(s, i) && var key := s.authorities[i].key.value;
      key.secretRef.Some? && SecretFault(x, v, key.secretRef.value.name, e)
    case CaCertSecret(i) =>
      HasCaCert(s, i) && var key := s.authorities[i].keyless.value.caCert.value;
      key.secretRef.Some? && SecretFault(x, v, key.secretRef.value.name, e)
    case KeyKms(i) =>
      HasKey(s, i) && var key := s.authorities[i].key.value; HasScheme(key.kms) && KmsFault(x, key, e)
    case AttestationConfigMap(i, j) =>
      HasAttestationPolicy(s, i, j) && var ref := AttestationPolicy(s, i, j).configMapRef;
      ref.Some? && MapFault(v, ref.value, e)
    case AttestationRemote(i, j) =>
      HasAttestationPolicy(s, i, j) && var remote := AttestationPolicy(s, i, j).remote;
      remote.Some? &&
      // The message names the URL of the top-level remote policy; where there is none, the process dies.
      if s.policy.Some? && s.policy.value.remote.Some? then WebFault(x, remote.value, e)
      else e == NilDereference && exists why :: WebFault(x, remote.value, why)
    case TopConfigMap =>
      s.policy.Some? && s.policy.value.configMapRef.Some? && MapFault(v, s.policy.value.configMapRef.value, e)
    case TopRemote =>
      s.policy.Some? && s.policy.value.remote.Some? && WebFault(x, s.policy.value.remote.value, e)
  }

  // ---------- one reference ----------

  lemma SecretFails(x: External, v: View, b: KeyRef, e: InlineError)
    ensures SecretRead(x, v, b) == Err(e) <==> b.secretRef.Some? && SecretFault(x, v, b.secretRef.value.name, e)
  {
    if b.secretRef.Some? && b.secretRef.value.name in v.secrets {
      var m := v.secrets[b.secretRef.value.name];
      assert m == map[] <==> |m| == 0;
      if |m| == 1 {
        SoleValue(m);
        assert OnlyValue(m) in m.Values;
      }
    }
  }

  lemma GivenIsNoFault(x: External, v: View, name: string, text: string, e: InlineError)
    requires SecretGives(x, v, name, text)
    ensures !SecretFault(x, v, name, e)
  {
    assert text in v.secrets[name].Values;
  }

  lemma KeyFails(x: External, v: View, a: KeyRef, b: KeyRef, secretDone: bool, kmsDone: bool, e: InlineError)
    requires KeyBecomes(x, v, a, b, secretDone, kmsDone)
    ensures SecretRead(x, v, b) == Err(e) <==> a.secretRef.Some? && SecretFault(x, v, a.secretRef.value.name, e)
    ensures KmsRead(x, b) == Err(e) <==> HasScheme(a.kms) && KmsFault(x, a, e)
  {
    SecretFails(x, v, b, e);
    if secretDone && a.secretRef.Some? {
      var text :| SecretGives(x, v, a.secretRef.value.name, text);
      GivenIsNoFault(x, v, a.secretRef.value.name, text, e);
    }
    SchemeIs(b.kms);
    EmptyHasNoScheme();
  }

  lemma CertFails(x: External, v: View, a: KeyRef, b: KeyRef, done: bool, e: InlineError)
    requires CertBecomes(x, v, a, b, done)
    ensures SecretRead(x, v, b) == Err(e) <==> a.secretRef.Some? && SecretFault(x, v, a.secretRef.value.name, e)
  {
    SecretFails(x, v, b, e);
    if done && a.secretRef.Some? {
      GivenIsNoFault(x, v, a.secretRef.value.name, b.data, e);
    }
  }

  lemma PolicyFails(x: External, v: View, a: Policy, b: Policy, mapDone: bool, webDone: bool, e: InlineError)
    requires PolicyBecomes(x, v, a, b, mapDone, webDone)
    ensures MapRead(v, b) == Err(e) <==> a.configMapRef.Some? && MapFault(v, a.configMapRef.value, e)
    ensures WebRead(x, b) == Err(e) <==> a.remote.Some? && WebFault(x, a.remote.value, e)
  {
  }

  // ---------- one visit ----------

  /** Whatever was visited before, the place stops the compilation with its own fault or not at all. */
  lemma VisitFails(x: External, v: View, s: Spec, t: Spec, op: Op, done: Progress, e: InlineError)
    requires SpecBecomes(x, v, s, t, done) && (op.AttestationRemote? ==> !Has(done, TopRemote))
    ensures Exec(x, v, t, op) == Err(e) <==> Fault(x, v, s, op, e)
  {
    hide KeyBecomes, CertBecomes, PolicyBecomes, SecretFault, MapFault, WebFault, KmsFault, HasScheme;
    if op.TopConfigMap? || op.TopRemote? {
      if s.policy.Some? {
        PolicyFails(x, v, s.policy.value, t.policy.value, Has(done, TopConfigMap), Has(done, TopRemote), e);
      }
    } else if op.i < |s.authorities| {
      var a, b := s.authorities[op.i], t.authorities[op.i];
      assert AuthorityBecomes(x, v, a, b, op.i, done);
      match op
      case CaCertSecret(i) =>
        if HasCaCert(s, i) {
          CertFails(x, v, a.keyless.value.caCert.value, b.keyless.value.caCert.value, Has(done, op), e);
        }
      case KeySecret(i) => KeyVisitFails(x, v, s, t, op, done, e);
      case KeyKms(i) => KeyVisitFails(x, v, s, t, op, done, e);
      case _ => AttestationVisitFails(x, v, s, t, op, done, e);
    }
  }

  lemma KeyVisitFails(x: External, v: View, s: Spec, t: Spec, op: Op, done: Progress, e: InlineError)
    requires SpecBecomes(x, v, s, t, done) && (op.KeySecret? || op.KeyKms?) && op.i < |s.authorities|
    ensures Exec(x, v, t, op) == Err(e) <==> Fault(x, v, s, op, e)
  {
    hide KeyBecomes, CertBecomes, PolicyBecomes, SecretFault, MapFault, WebFault, KmsFault, HasScheme;
    var a, b := s.authorities[op.i], t.authorities[op.i];
    assert AuthorityBecomes(x, v, a, b, op.i, done);
    if a.key.Some? {
      KeyFails(x, v, a.key.value, b.key.value, Has(done, KeySecret(op.i)), Has(done, KeyKms(op.i)), e);
    }
  }

  lemma AttestationVisitFails(x: External, v: View, s: Spec, t: Spec, op: Op, done: Progress, e: InlineError)
    requires SpecBecomes(x, v, s, t, done) && (op.AttestationConfigMap? || op.AttestationRemote?)
    requires op.i < |s.authorities| && (op.AttestationRemote? ==> !Has(done, TopRemote))
    ensures Exec(x, v, t, op) == Err(e) <==> Fault(x, v, s, op, e)
  {
    hide Exec, Fault;
    var a, b := s.authorities[op.i], t.authorities[op.i];
    assert AuthorityBecomes(x, v, a, b, op.i, done);
    if HasAttestationPolicy(s, op.i, op.j) {
      assert AttestationBecomes(x, v, a.attestations[op.j], b.attestations[op.j], op.i, op.j, done);
      TextVisitFails(x, v, s, t, op, Has(done, AttestationConfigMap(op.i, op.j)),
                     Has(done, AttestationRemote(op.i, op.j)), e);
    } else {
      NoPolicyNoFault(x, v, s, t, op, e);
    }
  }

  lemma NoPolicyNoFault(x: External, v: View, s: Spec, t: Spec, op: Op, e: InlineError)
    requires op.AttestationConfigMap? || op.AttestationRemote?
    requires !HasAttestationPolicy(s, op.i, op.j) && !HasAttestationPolicy(t, op.i, op.j)
    ensures Exec(x, v, t, op).Ok? && !Fault(x, v, s, op, e)
  {
  }

  lemma TextVisitFails(x: External, v: View, s: Spec, t: Spec, op: Op, mapDone: bool, webDone: bool, e: InlineError)
    requires op.AttestationConfigMap? || op.AttestationRemote?
    requires HasAttestationPolicy(s, op.i, op.j) && HasAttestationPolicy(t, op.i, op.j)
    requires var p, q := AttestationPolicy(s, op.i, op.j), AttestationPolicy(t, op.i, op.j);
      PolicyBecomes(x, v, p, q, mapDone, webDone)
    requires op.AttestationRemote? ==>
      (s.policy.Some? && s.policy.value.remote.Some? <==> t.policy.Some? && t.policy.value.remote.Some?)
    ensures Exec(x, v, t, op) == Err(e) <==> Fault(x, v, s, op, e)
  {
    hide PolicyBecomes, MapFault, WebFault;
    var p, q := AttestationPolicy(s, op.i, op.j), AttestationPolicy(t, op.i, op.j);
    forall why ensures
      && (MapRead(v, q) == Err(why) <==> p.configMapRef.Some? && MapFault(v, p.configMapRef.value, why))
      && (WebRead(x, q) == Err(why) <==> p.remote.Some? && WebFault(x, p.remote.value, why))
    {
      PolicyFails(x, v, p, q, mapDone, webDone, why);
    }
  }

  // ---------- all visits ----------

  lemma TopIsLast(s: Spec, k: nat)
    requires k < |Plan(s)|
    ensures !Has(Visited(Plan(s), k), TopRemote)
  {
    var keys, policies := KeyOps(|s.authorities|), PolicyOps(s.authorities, |s.authorities|);
    forall m | 0 <= m < k ensures Plan(s)[m] != TopRemote {
      if m < |keys| {
        KeyOpsOfKeys(|s.authorities|, m);
      } else if m < |keys| + |policies| {
        PolicyOpsBelow(s.authorities, |s.authorities|, m - |keys|);
      }
    }
  }

  lemma VisitInPlan(x: External, v: View, s: Spec, k: nat, e: InlineError)
    requires k < |Plan(s)| && ExecPrefix(x, v, s, k).Ok?
    ensures ExecPrefix(x, v, s, k + 1) == Err(e) <==> Fault(x, v, s, Plan(s)[k], e)
  {
    hide SpecBecomes, Fault, Exec;
    PrefixBecomes(x, v, s, k);
    TopIsLast(s, k);
    VisitFails(x, v, s, ExecPrefix(x, v, s, k).value, Plan(s)[k], Visited(Plan(s), k), e);
  }

  ghost predicate FirstFault(x: External, v: View, s: Spec, k: nat, e: InlineError)
    requires k < |Plan(s)|
  {
    Fault(x, v, s, Plan(s)[k], e) && forall m, why | 0 <= m < k :: !Fault(x, v, s, Plan(s)[m], why)
  }

  lemma {:induction false} PrefixFails(x: External, v: View, s: Spec, n: nat)
    requires n <= |Plan(s)|
    ensures ExecPrefix(x, v, s, n).Ok? ==> forall m, why | 0 <= m < n :: !Fault(x, v, s, Plan(s)[m], why)
    ensures ExecPrefix(x, v, s, n).Err? ==>
      exists k | 0 <= k < n :: FirstFault(x, v, s, k, ExecPrefix(x, v, s, n).error)
  {
    hide Fault, Exec, Plan;
    if n > 0 {
      PrefixFails(x, v, s, n - 1);
      if ExecPrefix(x, v, s, n - 1).Ok? {
        forall why ensures ExecPrefix(x, v, s, n) == Err(why) <==> Fault(x, v, s, Plan(s)[n - 1], why) {
          VisitInPlan(x, v, s, n - 1, why);
        }
        forall m, why | ExecPrefix(x, v, s, n).Ok? && 0 <= m < n ensures !Fault(x, v, s, Plan(s)[m], why) {
          assert m == n - 1 ==> ExecPrefix(x, v, s, n) != Err(why);
        }
        if ExecPrefix(x, v, s, n).Err? {
          assert FirstFault(x, v, s, n - 1, ExecPrefix(x, v, s, n).error);
        }
      } else {
        var k :| 0 <= k < n - 1 && FirstFault(x, v, s, k, ExecPrefix(x, v, s, n - 1).error);
        assert ExecPrefix(x, v, s, n) == ExecPrefix(x, v, s, n - 1);
      }
    }
  }

  /** A compilation fails exactly with the fault of the first place of the plan that has one. */
  lemma FailsIff(x: External, v: View, s: Spec, e: InlineError)
    ensures Inline(x, v, s) == Err(e) <==> exists k | 0 <= k < |Plan(s)| :: FirstFault(x, v, s, k, e)
  {
    hide Fault, ExecPrefix, Plan;
    PrefixFails(x, v, s, |Plan(s)|);
    forall k | 0 <= k < |Plan(s)| && FirstFault(x, v, s, k, e) ensures Inline(x, v, s) == Err(e) {
      var m :| 0 <= m < |Plan(s)| && FirstFault(x, v, s, m, Inline(x, v, s).error);
      PrefixFails(x, v, s, k);
      VisitInPlan(x, v, s, k, e);
      VisitInPlan(x, v, s, k, Inline(x, v, s).error);
    }
  }
}
