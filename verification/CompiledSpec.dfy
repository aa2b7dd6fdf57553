/**
 What compiling a spec makes of it, said of the spec alone: every key and certificate holds the only value of its secret
 or the public key of its KMS, every policy the text under its key or the remote text with the pinned digest, all else
 is as it was; and compiling succeeds exactly if all of that can be had.
 */
module CompiledSpec {
  import opened Wrappers
  import opened V1alpha1
  import opened Inlining
  import opened EntryReads

  // ---------- where texts come from ----------

  ghost predicate HasScheme(kms: string) {
    exists before: string, after: string :: kms == before + "://" + after
  }

  /** The secret has one entry, and that is the text, of a public key. */
  predicate SecretGives(x: External, v: View, name: string, text: string) {
    name in v.secrets && |v.secrets[name]| == 1 && v.secrets[name].Values == {text} && x.pemOk(text)
  }

  predicate MapGives(v: View, ref: ConfigMapReference, text: string) {
    && ref.name in v.configMaps && ref.key in v.configMaps[ref.name]
    && v.configMaps[ref.name][ref.key] == text && text != ""
  }

  predicate WebGives(x: External, r: RemotePolicy, text: string) {
    x.fetch(r.url) == Some(text) && x.sha256(text) == r.sha256sum
  }

  predicate KmsGives(x: External, key: KeyRef, text: string) { x.kmsKey(key.kms, key.hashAlgorithm) == Some(text) }

  // ---------- before and after ----------

  /** The visits made so far; everything is done when no place is left, whether or not there was anything to do. */
  datatype Progress = Made(ops: set<Op>) | Everything

  predicate Has(done: Progress, op: Op) { done.Everything? || op in done.ops }

  function With(done: Progress, op: Op): (more: Progress)
    ensures forall o :: Has(more, o) <==> Has(done, o) || o == op
  {
    if done.Everything? then done else Made(done.ops + {op})
  }

  /**
   A key after the visits of its secret and of its KMS, as far as they are done: the KMS has the last word, and the
   secret must be there all the same.
   */
  ghost predicate KeyBecomes(x: External, v: View, a: KeyRef, b: KeyRef, secretDone: bool, kmsDone: bool) {
    && (kmsDone ==> secretDone)
    && b == a.(data := b.data, secretRef := if secretDone then None else a.secretRef,
               kms := if kmsDone && HasScheme(a.kms) then "" else a.kms)
    && (secretDone && a.secretRef.Some? ==> exists text :: SecretGives(x, v, a.secretRef.value.name, text))
    && if kmsDone && HasScheme(a.kms) then KmsGives(x, a, b.data)
       else if secretDone && a.secretRef.Some? then SecretGives(x, v, a.secretRef.value.name, b.data)
       else b.data == a.data
  }

  ghost predicate CertBecomes(x: External, v: View, a: KeyRef, b: KeyRef, done: bool) {
    && b == a.(data := b.data, secretRef := if done then None else a.secretRef)
    && if done && a.secretRef.Some? then SecretGives(x, v, a.secretRef.value.name, b.data) else b.data == a.data
  }

  /** A policy after the visits of its ConfigMap and of its remote text: the remote text has the last word. */
  ghost predicate PolicyBecomes(x: External, v: View, a: Policy, b: Policy, mapDone: bool, webDone: bool) {
    && (webDone ==> mapDone)
    && b == a.(data := b.data, configMapRef := if mapDone then None else a.configMapRef,
               remote := if webDone then None else a.remote)
    && (mapDone && a.configMapRef.Some? ==> exists text :: MapGives(v, a.configMapRef.value, text))
    && if webDone && a.remote.Some? then WebGives(x, a.remote.value, b.data)
       else if mapDone && a.configMapRef.Some? then MapGives(v, a.configMapRef.value, b.data)
       else b.data == a.data
  }

  ghost predicate OptionalPolicyBecomes(x: External, v: View, a: Option<Policy>, b: Option<Policy>, mapDone: bool,
                                        webDone: bool) {
    (a.None? <==> b.None?) && (a.Some? ==> PolicyBecomes(x, v, a.value, b.value, mapDone, webDone))
  }

  ghost predicate OptionalKeyBecomes(x: External, v: View, a: Option<KeyRef>, b: Option<KeyRef>, secretDone: bool,
                                     kmsDone: bool) {
    (a.None? <==> b.None?) && (a.Some? ==> KeyBecomes(x, v, a.value, b.value, secretDone, kmsDone))
  }

  ghost predicate KeylessBecomes(x: External, v: View, a: Option<KeylessRef>, b: Option<KeylessRef>, done: bool) {
    && (a.None? <==> b.None?)
    && (a.Some? ==>
          && b.value == a.value.(caCert := b.value.caCert)
          && (a.value.caCert.None? <==> b.value.caCert.None?)
          && (a.value.caCert.Some? ==> CertBecomes(x, v, a.value.caCert.value, b.value.caCert.value, done)))
  }

  /** The spec after some of the visits: what is not mentioned here has not changed. */
  ghost predicate SpecBecomes(x: External, v: View, s: Spec, t: Spec, done: Progress) {
    && t == s.(authorities := t.authorities, policy := t.policy) && |t.authorities| == |s.authorities|
    && OptionalPolicyBecomes(x, v, s.policy, t.policy, Has(done, TopConfigMap), Has(done, TopRemote))
    && forall i | 0 <= i < |s.authorities| :: AuthorityBecomes(x, v, s.authorities[i], t.authorities[i], i, done)
  }

  ghost predicate AuthorityBecomes(x: External, v: View, a: Authority, b: Authority, i: nat, done: Progress) {
    && b == a.(key := b.key, keyless := b.keyless, attestations := b.attestations)
    && OptionalKeyBecomes(x, v, a.key, b.key, Has(done, KeySecret(i)), Has(done, KeyKms(i)))
    && KeylessBecomes(x, v, a.keyless, b.keyless, Has(done, CaCertSecret(i)))
    && |b.attestations| == |a.attestations|
    && forall j | 0 <= j < |a.attestations| ::
         AttestationBecomes(x, v, a.attestations[j], b.attestations[j], i, j, done)
  }

  ghost predicate AttestationBecomes(x: External, v: View, a: Attestation, b: Attestation, i: nat, j: nat,
                                     done: Progress) {
    && b == a.(policy := b.policy)
    && OptionalPolicyBecomes(x, v, a.policy, b.policy, Has(done, AttestationConfigMap(i, j)),
                             Has(done, AttestationRemote(i, j)))
  }

  // ---------- what can be had ----------

  ghost predicate KeyResolves(x: External, v: View, key: KeyRef) {
    && (key.secretRef.Some? ==> exists text :: SecretGives(x, v, key.secretRef.value.name, text))
    && (HasScheme(key.kms) ==> exists text :: KmsGives(x, key, text))
  }

  ghost predicate CertResolves(x: External, v: View, key: KeyRef) {
    key.secretRef.Some? ==> exists text :: SecretGives(x, v, key.secretRef.value.name, text)
  }

  ghost predicate PolicyResolves(x: External, v: View, p: Policy) {
    && (p.configMapRef.Some? ==> exists text :: MapGives(v, p.configMapRef.value, text))
    && (p.remote.Some? ==> exists text :: WebGives(x, p.remote.value, text))
  }

  /** Every reference of the spec leads to a text that will do. */
  ghost predicate Resolves(x: External, v: View, s: Spec) {
    && (s.policy.Some? ==> PolicyResolves(x, v, s.policy.value))
    && (forall i | 0 <= i < |s.authorities| :: AuthorityResolves(x, v, s.authorities[i]))
  }

  ghost predicate AuthorityResolves(x: External, v: View, a: Authority) {
    && (a.key.Some? ==> KeyResolves(x, v, a.key.value))
    && (a.keyless.Some? && a.keyless.value.caCert.Some? ==> CertResolves(x, v, a.keyless.value.caCert.value))
    && (forall j | 0 <= j < |a.attestations| :: a.attestations[j].policy.Some? ==>
         PolicyResolves(x, v, a.attestations[j].policy.value))
  }

  // ---------- one place ----------

  lemma SchemeIs(kms: string)
    ensures Contains(kms, "://") <==> HasScheme(kms)
  {
    if Contains(kms, "://") {
      var i :| 0 <= i <= |kms| && At(kms, i, "://");
      assert kms == kms[..i] + "://" + kms[i + 3..];
    }
    if HasScheme(kms) {
      var before, after :| kms == before + "://" + after;
      assert At(kms, |before|, "://");
    }
  }

  lemma SoleValue(m: map<string, string>)
    requires |m| == 1
    ensures forall value :: value in m.Values <==> value == OnlyValue(m)
  {
    var k :| k in m && OnlyValue(m) == m[k];
    assert |m.Keys - {k}| == 0;
    forall other | other in m ensures other == k {
      assert other !in m.Keys - {k};
    }
    assert m[k] in m.Values;
    forall value | value in m.Values ensures value == m[k] {
      var other :| other in m && m[other] == value;
    }
  }

  lemma SecretIs(x: External, v: View, key: KeyRef)
    requires key.secretRef.Some?
    ensures var name := key.secretRef.value.name;
      var r := InlineSecret(x, Lookup(v, SecretNamed(name)), key);
      && (r.Ok? <==> exists text :: SecretGives(x, v, name, text))
      && (r.Ok? ==> SecretGives(x, v, name, r.value.data) && r.value == key.(data := r.value.data, secretRef := None))
  {
    var name := key.secretRef.value.name;
    if name in v.secrets && |v.secrets[name]| == 1 {
      var value := OnlyValue(v.secrets[name]);
      SoleValue(v.secrets[name]);
      assert x.pemOk(value) ==> SecretGives(x, v, name, value);
      forall text | SecretGives(x, v, name, text) ensures text == value {
        assert text in {value};
      }
    }
  }

  lemma ConfigMapIs(v: View, p: Policy)
    requires p.configMapRef.Some?
    ensures var ref := p.configMapRef.value;
      var r := InlineConfigMap(Lookup(v, ConfigMapNamed(ref.name)), p);
      && (r.Ok? <==> exists text :: MapGives(v, ref, text))
      && (r.Ok? ==> MapGives(v, ref, r.value.data) && r.value == p.(data := r.value.data, configMapRef := None))
  {
    var ref := p.configMapRef.value;
    if InlineConfigMap(Lookup(v, ConfigMapNamed(ref.name)), p).Ok? {
      assert MapGives(v, ref, v.configMaps[ref.name][ref.key]);
    }
  }

  lemma RemoteIs(x: External, p: Policy)
    requires p.remote.Some?
    ensures var r := InlineRemote(x, p);
      && (r.Ok? <==> exists text :: WebGives(x, p.remote.value, text))
      && (r.Ok? ==> WebGives(x, p.remote.value, r.value.data) && r.value == p.(data := r.value.data, remote := None))
  {
    if x.fetch(p.remote.value.url).Some? {
      assert InlineRemote(x, p).Ok? ==> WebGives(x, p.remote.value, x.fetch(p.remote.value.url).value);
    }
  }

  lemma KmsIs(x: External, key: KeyRef)
    ensures var r := InlineKms(x, key);
      && (r.Ok? <==> exists text :: KmsGives(x, key, text))
      && (r.Ok? ==> KmsGives(x, key, r.value.data) && r.value == key.(data := r.value.data, kms := ""))
  {
    if InlineKms(x, key).Ok? {
      assert KmsGives(x, key, InlineKms(x, key).value.data);
    }
  }

  // ---------- one visit ----------

  /** A place is visited for its second reference only after it was visited for its first. */
  ghost predicate InOrder(op: Op, done: Progress) {
    match op
    case KeyKms(i) => Has(done, KeySecret(i))
    case AttestationRemote(i, j) => Has(done, AttestationConfigMap(i, j))
    case TopRemote => Has(done, TopConfigMap)
    case _ => true
  }

  /** The key after its secret is read, if that is pending; and so on for the other references. */
  ghost function SecretRead(x: External, v: View, b: KeyRef): Result<KeyRef, InlineError> {
    if b.secretRef.None? then Ok(b) else InlineSecret(x, Lookup(v, SecretNamed(b.secretRef.value.name)), b)
  }

  ghost function KmsRead(x: External, b: KeyRef): Result<KeyRef, InlineError> {
    if Contains(b.kms, "://") then InlineKms(x, b) else Ok(b)
  }

  function MapRead(v: View, b: Policy): Result<Policy, InlineError> {
    if b.configMapRef.None? then Ok(b) else InlineConfigMap(Lookup(v, ConfigMapNamed(b.configMapRef.value.name)), b)
  }

  function WebRead(x: External, b: Policy): Result<Policy, InlineError> {
    if b.remote.None? then Ok(b) else InlineRemote(x, b)
  }

  lemma SecretStep(x: External, v: View, a: KeyRef, b: KeyRef, secretDone: bool, kmsDone: bool)
    requires KeyBecomes(x, v, a, b, secretDone, kmsDone)
    ensures SecretRead(x, v, b).Ok? ==> KeyBecomes(x, v, a, SecretRead(x, v, b).value, true, kmsDone)
    ensures KeyResolves(x, v, a) ==> SecretRead(x, v, b).Ok?
  {
    if b.secretRef.Some? {
      SecretIs(x, v, b);
    }
  }

  lemma KmsStep(x: External, v: View, a: KeyRef, b: KeyRef, kmsDone: bool)
    requires KeyBecomes(x, v, a, b, true, kmsDone)
    ensures KmsRead(x, b).Ok? ==> KeyBecomes(x, v, a, KmsRead(x, b).value, true, true)
    ensures KeyResolves(x, v, a) ==> KmsRead(x, b).Ok?
  {
    SchemeIs(a.kms);
    EmptyHasNoScheme();
    KmsIs(x, b);
    if HasScheme(a.kms) && !kmsDone && KeyResolves(x, v, a) {
      var text :| KmsGives(x, a, text);
      assert KmsGives(x, b, text);
    }
  }

  lemma CertStep(x: External, v: View, a: KeyRef, b: KeyRef, done: bool)
    requires CertBecomes(x, v, a, b, done)
    ensures SecretRead(x, v, b).Ok? ==> CertBecomes(x, v, a, SecretRead(x, v, b).value, true)
    ensures CertResolves(x, v, a) ==> SecretRead(x, v, b).Ok?
  {
    if b.secretRef.Some? {
      SecretIs(x, v, b);
    }
  }

  lemma MapStep(x: External, v: View, a: Policy, b: Policy, mapDone: bool, webDone: bool)
    requires PolicyBecomes(x, v, a, b, mapDone, webDone)
    ensures MapRead(v, b).Ok? ==> PolicyBecomes(x, v, a, MapRead(v, b).value, true, webDone)
    ensures PolicyResolves(x, v, a) ==> MapRead(v, b).Ok?
  {
    if b.configMapRef.Some? {
      ConfigMapIs(v, b);
    }
  }

  lemma WebStep(x: External, v: View, a: Policy, b: Policy, webDone: bool)
    requires PolicyBecomes(x, v, a, b, true, webDone)
    ensures WebRead(x, b).Ok? ==> PolicyBecomes(x, v, a, WebRead(x, b).value, true, true)
    ensures PolicyResolves(x, v, a) ==> WebRead(x, b).Ok?
  {
    if b.remote.Some? {
      RemoteIs(x, b);
    }
  }

  // ---------- one visit, in the spec ----------

  /** Authorities without the visited place stay as they are. */
  lemma OthersStay(x: External, v: View, a: Authority, b: Authority, i: nat, op: Op, done: Progress)
    requires AuthorityBecomes(x, v, a, b, i, done) && (op.TopConfigMap? || op.TopRemote? || op.i != i)
    ensures AuthorityBecomes(x, v, a, b, i, With(done, op))
  {
    forall j | 0 <= j < |a.attestations|
      ensures AttestationBecomes(x, v, a.attestations[j], b.attestations[j], i, j, With(done, op))
    {
      assert AttestationBecomes(x, v, a.attestations[j], b.attestations[j], i, j, done);
    }
  }

  /** A visit of one authority: enough to look at that one. */
  lemma InOneAuthority(x: External, v: View, s: Spec, t: Spec, u: Spec, op: Op, done: Progress)
    requires SpecBecomes(x, v, s, t, done) && !op.TopConfigMap? && !op.TopRemote?
    requires u == t.(authorities := u.authorities) && |u.authorities| == |t.authorities|
    requires forall i | 0 <= i < |t.authorities| && i != op.i :: u.authorities[i] == t.authorities[i]
    requires op.i < |s.authorities| ==>
      AuthorityBecomes(x, v, s.authorities[op.i], u.authorities[op.i], op.i, With(done, op))
    ensures SpecBecomes(x, v, s, u, With(done, op))
  {
    hide OptionalPolicyBecomes, AttestationBecomes, OptionalKeyBecomes, KeylessBecomes;
    forall i | 0 <= i < |s.authorities|
      ensures AuthorityBecomes(x, v, s.authorities[i], u.authorities[i], i, With(done, op))
    {
      assert AuthorityBecomes(x, v, s.authorities[i], t.authorities[i], i, done);
      if i != op.i {
        OthersStay(x, v, s.authorities[i], t.authorities[i], i, op, done);
      }
    }
  }

  ghost function KeyRead(x: External, v: View, key: KeyRef, op: Op): Result<KeyRef, InlineError> {
    if op.KeyKms? then KmsRead(x, key) else SecretRead(x, v, key)
  }

  ghost function PolicyRead(x: External, v: View, p: Policy, op: Op): Result<Policy, InlineError> {
    if op.AttestationConfigMap? || op.TopConfigMap? then MapRead(v, p) else WebRead(x, p)
  }

  /** The authority after the visit of one of its places. */
  ghost function AuthorityRead(x: External, v: View, b: Authority, op: Op): Result<Authority, InlineError>
    requires !op.TopConfigMap? && !op.TopRemote?
  {
    if op.KeySecret? || op.KeyKms? then
      if b.key.None? then Ok(b) else
      match KeyRead(x, v, b.key.value, op)
      case Ok(k) => Ok(b.(key := Some(k)))
      case Err(e) => Err(e)
    else if op.CaCertSecret? then
      if b.keyless.None? || b.keyless.value.caCert.None? then Ok(b) else
      match KeyRead(x, v, b.keyless.value.caCert.value, op)
      case Ok(k) => Ok(b.(keyless := Some(b.keyless.value.(caCert := Some(k)))))
      case Err(e) => Err(e)
    else
      if op.j >= |b.attestations| || b.attestations[op.j].policy.None? then Ok(b) else
      match PolicyRead(x, v, b.attestations[op.j].policy.value, op)
      case Ok(p) => Ok(b.(attestations := b.attestations[op.j := b.attestations[op.j].(policy := Some(p))]))
      case Err(e) => Err(e)
  }

  lemma ExecInAuthority(x: External, v: View, t: Spec, op: Op)
    requires !op.TopConfigMap? && !op.TopRemote?
    ensures op.i >= |t.authorities| ==> Exec(x, v, t, op) == Ok(t)
    ensures op.i < |t.authorities| ==>
      var r := AuthorityRead(x, v, t.authorities[op.i], op);
      && (Exec(x, v, t, op).Ok? <==> r.Ok?)
      && (r.Ok? ==> Exec(x, v, t, op).value == t.(authorities := t.authorities[op.i := r.value]))
  {
    if op.i < |t.authorities| {
      assert t.authorities[op.i := t.authorities[op.i]] == t.authorities;
      var b := t.authorities[op.i];
      if (op.AttestationConfigMap? || op.AttestationRemote?) && op.j < |b.attestations| {
        assert b.attestations[op.j := b.attestations[op.j]] == b.attestations;
      }
    }
  }

  lemma KeyVisit(x: External, v: View, a: Authority, b: Authority, op: Op, done: Progress)
    requires (op.KeySecret? || op.KeyKms?) && AuthorityBecomes(x, v, a, b, op.i, done) && InOrder(op, done)
    ensures AuthorityRead(x, v, b, op).Ok? ==>
      AuthorityBecomes(x, v, a, AuthorityRead(x, v, b, op).value, op.i, With(done, op))
    ensures AuthorityResolves(x, v, a) ==> AuthorityRead(x, v, b, op).Ok?
  {
    hide KeyBecomes, PolicyBecomes, CertBecomes, KeyResolves, PolicyResolves, CertResolves;
    if b.key.Some? {
      if op.KeySecret? {
        SecretStep(x, v, a.key.value, b.key.value, Has(done, KeySecret(op.i)), Has(done, KeyKms(op.i)));
      } else {
        KmsStep(x, v, a.key.value, b.key.value, Has(done, KeyKms(op.i)));
      }
    }
    AttestationsStay(x, v, a, b, op.i, op, done);
  }

  lemma AttestationsStay(x: External, v: View, a: Authority, b: Authority, i: nat, op: Op, done: Progress)
    requires AuthorityBecomes(x, v, a, b, i, done)
    ensures forall j | 0 <= j < |a.attestations| && op != AttestationConfigMap(i, j) && op != AttestationRemote(i, j) ::
      AttestationBecomes(x, v, a.attestations[j], b.attestations[j], i, j, With(done, op))
  {
    forall j | 0 <= j < |a.attestations| && op != AttestationConfigMap(i, j) && op != AttestationRemote(i, j)
      ensures AttestationBecomes(x, v, a.attestations[j], b.attestations[j], i, j, With(done, op))
    {
      assert AttestationBecomes(x, v, a.attestations[j], b.attestations[j], i, j, done);
    }
  }

  lemma CertVisit(x: External, v: View, a: Authority, b: Authority, op: Op, done: Progress)
    requires op.CaCertSecret? && AuthorityBecomes(x, v, a, b, op.i, done)
    ensures AuthorityRead(x, v, b, op).Ok? ==>
      AuthorityBecomes(x, v, a, AuthorityRead(x, v, b, op).value, op.i, With(done, op))
    ensures AuthorityResolves(x, v, a) ==> AuthorityRead(x, v, b, op).Ok?
  {
    hide KeyBecomes, PolicyBecomes, CertBecomes, KeyResolves, PolicyResolves, CertResolves;
    if b.keyless.Some? && b.keyless.value.caCert.Some? {
      CertStep(x, v, a.keyless.value.caCert.value, b.keyless.value.caCert.value, Has(done, op));
    }
    AttestationsStay(x, v, a, b, op.i, op, done);
  }

  lemma AttestationVisit(x: External, v: View, a: Authority, b: Authority, op: Op, done: Progress)
    requires op.AttestationConfigMap? || op.AttestationRemote?
    requires AuthorityBecomes(x, v, a, b, op.i, done) && InOrder(op, done)
    ensures AuthorityRead(x, v, b, op).Ok? ==>
      AuthorityBecomes(x, v, a, AuthorityRead(x, v, b, op).value, op.i, With(done, op))
    ensures AuthorityResolves(x, v, a) ==> AuthorityRead(x, v, b, op).Ok?
  {
    hide KeyBecomes, PolicyBecomes, CertBecomes, KeyResolves, PolicyResolves, CertResolves, With, Has;
    if op.j < |a.attestations| {
      assert AttestationBecomes(x, v, a.attestations[op.j], b.attestations[op.j], op.i, op.j, done);
      if a.attestations[op.j].policy.Some? {
        var p, q := a.attestations[op.j].policy.value, b.attestations[op.j].policy.value;
        if op.AttestationConfigMap? {
          MapStep(x, v, p, q, Has(done, op), Has(done, AttestationRemote(op.i, op.j)));
        } else {
          WebStep(x, v, p, q, Has(done, op));
        }
      }
    }
    AttestationsStay(x, v, a, b, op.i, op, done);
  }

  lemma TopVisit(x: External, v: View, s: Spec, t: Spec, op: Op, done: Progress)
    requires SpecBecomes(x, v, s, t, done) && InOrder(op, done) && (op.TopConfigMap? || op.TopRemote?)
    ensures Exec(x, v, t, op).Ok? ==> SpecBecomes(x, v, s, Exec(x, v, t, op).value, With(done, op))
    ensures Resolves(x, v, s) ==> Exec(x, v, t, op).Ok?
  {
    hide AuthorityBecomes, PolicyBecomes, AuthorityResolves, PolicyResolves;
    if s.policy.Some? {
      if op.TopConfigMap? {
        MapStep(x, v, s.policy.value, t.policy.value, Has(done, op), Has(done, TopRemote));
      } else {
        WebStep(x, v, s.policy.value, t.policy.value, Has(done, op));
      }
    }
    forall i | 0 <= i < |s.authorities|
      ensures AuthorityBecomes(x, v, s.authorities[i], t.authorities[i], i, With(done, op))
    {
      OthersStay(x, v, s.authorities[i], t.authorities[i], i, op, done);
    }
  }

  lemma Visit(x: External, v: View, s: Spec, t: Spec, op: Op, done: Progress)
    requires SpecBecomes(x, v, s, t, done) && InOrder(op, done)
    ensures Exec(x, v, t, op).Ok? ==> SpecBecomes(x, v, s, Exec(x, v, t, op).value, With(done, op))
    ensures Resolves(x, v, s) ==> Exec(x, v, t, op).Ok?
  {
    hide Exec, AuthorityRead, AuthorityBecomes, OptionalPolicyBecomes;
    if op.TopConfigMap? || op.TopRemote? {
      TopVisit(x, v, s, t, op, done);
    } else {
      ExecInAuthority(x, v, t, op);
      if op.i < |t.authorities| {
        var a, b := s.authorities[op.i], t.authorities[op.i];
        assert AuthorityBecomes(x, v, a, b, op.i, done);
        match op
        case CaCertSecret(_) => CertVisit(x, v, a, b, op, done);
        case AttestationConfigMap(_, _) => AttestationVisit(x, v, a, b, op, done);
        case AttestationRemote(_, _) => AttestationVisit(x, v, a, b, op, done);
        case _ => KeyVisit(x, v, a, b, op, done);
      }
      if Exec(x, v, t, op).Ok? {
        InOneAuthority(x, v, s, t, Exec(x, v, t, op).value, op, done);
      }
    }
  }

  // ---------- all visits ----------

  lemma {:induction false} KmsFollows(n: nat, k: nat)
    requires k < |KeyOps(n)| && KeyOps(n)[k].KeyKms?
    ensures k > 1 && KeyOps(n)[k - 2] == KeySecret(KeyOps(n)[k].i)
  {
    if k < |KeyOps(n - 1)| {
      KmsFollows(n - 1, k);
    }
  }

  function Visited(ops: seq<Op>, k: nat): Progress
    requires k <= |ops|
  {
    Made(set op | op in ops[..k])
  }

  lemma VisitedNext(ops: seq<Op>, k: nat)
    requires k < |ops|
    ensures Visited(ops, k + 1) == With(Visited(ops, k), ops[k])
  {
    assert ops[..k + 1] == ops[..k] + [ops[k]];
  }

  lemma PlanInOrder(spec: Spec, k: nat)
    requires k < |Plan(spec)|
    ensures InOrder(Plan(spec)[k], Visited(Plan(spec), k))
  {
    var op := Plan(spec)[k];
    var keys := KeyOps(|spec.authorities|);
    match op
    case KeyKms(i) =>
      KmsIsOfKeys(spec, k);
      KmsFollows(|spec.authorities|, k);
      assert Plan(spec)[..k][k - 2] == KeySecret(i);
    case AttestationRemote(i, j) =>
      RemoteFollows(spec, k, Below(i, j));
      assert Plan(spec)[..k][k - 1] == AttestationConfigMap(i, j);
    case TopRemote =>
      RemoteFollows(spec, k, Top);
      assert Plan(spec)[..k][k - 1] == TopConfigMap;
    case _ =>
  }

  lemma KmsIsOfKeys(spec: Spec, k: nat)
    requires k < |Plan(spec)| && Plan(spec)[k].KeyKms?
    ensures k < |KeyOps(|spec.authorities|)| && Plan(spec)[k] == KeyOps(|spec.authorities|)[k]
  {
    var keys, policies := KeyOps(|spec.authorities|), PolicyOps(spec.authorities, |spec.authorities|);
    if |keys| <= k < |keys| + |policies| {
      PolicyOpsBelow(spec.authorities, |spec.authorities|, k - |keys|);
    }
  }

  lemma NothingDone(x: External, v: View, s: Spec)
    ensures SpecBecomes(x, v, s, s, Made({}))
  {
  }

  lemma {:induction false} PrefixBecomes(x: External, v: View, s: Spec, k: nat)
    requires k <= |Plan(s)|
    ensures ExecPrefix(x, v, s, k).Ok? ==>
      SpecBecomes(x, v, s, ExecPrefix(x, v, s, k).value, Visited(Plan(s), k))
    ensures Resolves(x, v, s) ==> ExecPrefix(x, v, s, k).Ok?
  {
    hide SpecBecomes, Resolves, InOrder, Exec, Plan;
    if k == 0 {
      assert Visited(Plan(s), 0) == Made({});
      NothingDone(x, v, s);
    } else {
      PrefixBecomes(x, v, s, k - 1);
      VisitedNext(Plan(s), k - 1);
      var done := Visited(Plan(s), k - 1);
      if ExecPrefix(x, v, s, k - 1).Ok? {
        PlanInOrder(s, k - 1);
        Visit(x, v, s, ExecPrefix(x, v, s, k - 1).value, Plan(s)[k - 1], done);
      }
    }
  }

  lemma FinishedKey(x: External, v: View, a: Option<KeyRef>, b: Option<KeyRef>, i: nat, done: Progress)
    requires OptionalKeyBecomes(x, v, a, b, Has(done, KeySecret(i)), Has(done, KeyKms(i)))
    requires a.Some? && a.value.secretRef.Some? ==> Has(done, KeySecret(i))
    requires a.Some? && HasScheme(a.value.kms) ==> Has(done, KeyKms(i))
    ensures OptionalKeyBecomes(x, v, a, b, true, true)
  {
  }

  lemma FinishedPolicy(x: External, v: View, a: Option<Policy>, b: Option<Policy>, mapDone: bool, webDone: bool)
    requires OptionalPolicyBecomes(x, v, a, b, mapDone, webDone)
    requires a.Some? && a.value.configMapRef.Some? ==> mapDone
    requires a.Some? && a.value.remote.Some? ==> webDone
    ensures OptionalPolicyBecomes(x, v, a, b, true, true)
  {
  }

  lemma Finished(x: External, v: View, s: Spec, t: Spec, done: Progress)
    requires SpecBecomes(x, v, s, t, done) && forall op :: Pending(s, op) ==> Has(done, op)
    ensures SpecBecomes(x, v, s, t, Everything)
  {
    assert Pending(s, TopConfigMap) ==> Has(done, TopConfigMap);
    assert Pending(s, TopRemote) ==> Has(done, TopRemote);
    FinishedPolicy(x, v, s.policy, t.policy, Has(done, TopConfigMap), Has(done, TopRemote));
    forall i | 0 <= i < |s.authorities|
      ensures AuthorityBecomes(x, v, s.authorities[i], t.authorities[i], i, Everything)
    {
      FinishedAuthority(x, v, s, t, i, done);
    }
  }

  lemma FinishedAuthority(x: External, v: View, s: Spec, t: Spec, i: nat, done: Progress)
    requires SpecBecomes(x, v, s, t, done) && i < |s.authorities| && forall op :: Pending(s, op) ==> Has(done, op)
    ensures AuthorityBecomes(x, v, s.authorities[i], t.authorities[i], i, Everything)
  {
    hide KeyBecomes, PolicyBecomes;
    var a, b := s.authorities[i], t.authorities[i];
    assert AuthorityBecomes(x, v, a, b, i, done);
    assert Pending(s, KeySecret(i)) ==> Has(done, KeySecret(i));
    assert Pending(s, KeyKms(i)) ==> Has(done, KeyKms(i));
    assert Pending(s, CaCertSecret(i)) ==> Has(done, CaCertSecret(i));
    if a.key.Some? {
      SchemeIs(a.key.value.kms);
    }
    FinishedKey(x, v, a.key, b.key, i, done);
    forall j | 0 <= j < |a.attestations|
      ensures AttestationBecomes(x, v, a.attestations[j], b.attestations[j], i, j, Everything)
    {
      assert AttestationBecomes(x, v, a.attestations[j], b.attestations[j], i, j, done);
      assert Pending(s, AttestationConfigMap(i, j)) ==> Has(done, AttestationConfigMap(i, j));
      assert Pending(s, AttestationRemote(i, j)) ==> Has(done, AttestationRemote(i, j));
      FinishedPolicy(x, v, a.attestations[j].policy, b.attestations[j].policy, Has(done, AttestationConfigMap(i, j)),
                     Has(done, AttestationRemote(i, j)));
    }
  }

  lemma BecomesResolves(x: External, v: View, s: Spec, t: Spec)
    requires SpecBecomes(x, v, s, t, Everything)
    ensures Resolves(x, v, s)
  {
    forall i | 0 <= i < |s.authorities| ensures AuthorityResolves(x, v, s.authorities[i]) {
      var a, b := s.authorities[i], t.authorities[i];
      assert AuthorityBecomes(x, v, a, b, i, Everything);
      forall j | 0 <= j < |a.attestations| && a.attestations[j].policy.Some?
        ensures PolicyResolves(x, v, a.attestations[j].policy.value)
      {
        assert AttestationBecomes(x, v, a.attestations[j], b.attestations[j], i, j, Everything);
      }
    }
  }

  /**
   A spec compiles if and only if every reference in it leads to a text that will do, and then the compiled spec holds
   these texts, no reference, and everything else as it was.
   */
  lemma CompiledIff(x: External, v: View, s: Spec)
    ensures Inline(x, v, s).Ok? <==> Resolves(x, v, s)
    ensures Inline(x, v, s).Ok? ==> SpecBecomes(x, v, s, Inline(x, v, s).value, Everything)
  {
    hide SpecBecomes, Resolves, Pending;
    PrefixBecomes(x, v, s, |Plan(s)|);
    assert Plan(s)[..|Plan(s)|] == Plan(s);
    if Inline(x, v, s).Ok? {
      var done := Visited(Plan(s), |Plan(s)|);
      forall op | Pending(s, op) ensures Has(done, op) {
        PlanComplete(s, op);
      }
      Finished(x, v, s, Inline(x, v, s).value, done);
      BecomesResolves(x, v, s, Inline(x, v, s).value);
    }
  }
}
