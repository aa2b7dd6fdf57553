/**
 Inlining of secrets, KMS keys, policy ConfigMaps and remote policies into a ClusterImagePolicy,
 as the reconciler performs it: a fixed list of places is visited in order, and each place
 that still holds a reference is resolved or makes the whole compilation fail.
 */
module Inlining {
  import opened Wrappers
  import opened V1alpha1

  /** The ConfigMap that the compiled policies are written to, and that a policy may take text from. */
  const IMAGE_POLICIES := "config-image-policies"

  /** What the listers of the controller's own namespace return. */
  datatype View = View(secrets: map<string, map<string, string>>, configMaps: map<string, map<string, string>>)

  /**
   The parts of the world that no informer watches: PEM parsing, the KMS, HTTP and SHA-256, and the
   rendering of a compiled policy (conversion to the webhook form and JSON marshalling) as ConfigMap text.
   */
  datatype External = External(
    pemOk: string -> bool,
    kmsKey: (string, string) -> Option<string>,
    fetch: string -> Option<string>,
    sha256: string -> string,
    render: (nat, nat, Spec) -> string)

  datatype Ref = SecretNamed(name: string) | ConfigMapNamed(name: string)

  datatype InlineError =
    | SecretMissing(secret: string)
    | SecretEmpty(secret: string)
    | SecretAmbiguous(secret: string)
    | SecretNotPem(secret: string)
    | KmsUnavailable(kms: string)
    | ConfigMapMissing(configMap: string)
    | ConfigMapEmpty(configMap: string)
    | ConfigMapKeyMissing(configMap: string, key: string)
    | RemoteUnavailable(url: string)
    | RemoteChanged(url: string)
    | NilDereference
    | Unavailable

  /** The places of a spec that may hold a reference, in no particular order. */
  datatype Op =
    | KeySecret(i: nat)
    | CaCertSecret(i: nat)
    | KeyKms(i: nat)
    | AttestationConfigMap(i: nat, j: nat)
    | AttestationRemote(i: nat, j: nat)
    | TopConfigMap
    | TopRemote

  predicate OfKeys(op: Op) { op.KeySecret? || op.CaCertSecret? || op.KeyKms? }

  // ---------- the order of the visits ----------

  function KeyOps(n: nat): seq<Op> {
    if n == 0 then [] else KeyOps(n - 1) + [KeySecret(n - 1), CaCertSecret(n - 1), KeyKms(n - 1)]
  }

  function AttestationOps(i: nat, n: nat): seq<Op> {
    if n == 0 then [] else AttestationOps(i, n - 1) + [AttestationConfigMap(i, n - 1), AttestationRemote(i, n - 1)]
  }

  function PolicyOps(authorities: seq<Authority>, n: nat): seq<Op>
    requires n <= |authorities|
  {
    if n == 0 then [] else PolicyOps(authorities, n - 1) + AttestationOps(n - 1, |authorities[n - 1].attestations|)
  }

  function Plan(spec: Spec): seq<Op> {
    KeyOps(|spec.authorities|) + PolicyOps(spec.authorities, |spec.authorities|) + [TopConfigMap, TopRemote]
  }

  // ---------- one visit ----------

  predicate At(s: string, i: nat, sub: string) { i + |sub| <= |s| && s[i..i + |sub|] == sub }

  predicate Contains(s: string, sub: string) { exists i | 0 <= i <= |s| :: At(s, i, sub) }

  predicate HasAttestationPolicy(spec: Spec, i: nat, j: nat) {
    i < |spec.authorities| && j < |spec.authorities[i].attestations| && spec.authorities[i].attestations[j].policy.Some?
  }

  function AttestationPolicy(spec: Spec, i: nat, j: nat): Policy
    requires HasAttestationPolicy(spec, i, j)
  {
    spec.authorities[i].attestations[j].policy.value
  }

  predicate HasKey(spec: Spec, i: nat) { i < |spec.authorities| && spec.authorities[i].key.Some? }

  predicate HasCaCert(spec: Spec, i: nat) {
    i < |spec.authorities| && spec.authorities[i].keyless.Some? && spec.authorities[i].keyless.value.caCert.Some?
  }

  /** The place still holds a reference, so that the visit has something to do. */
  predicate Pending(spec: Spec, op: Op) {
    match op
    case KeySecret(i) => HasKey(spec, i) && spec.authorities[i].key.value.secretRef.Some?
    case CaCertSecret(i) => HasCaCert(spec, i) && spec.authorities[i].keyless.value.caCert.value.secretRef.Some?
    case KeyKms(i) => HasKey(spec, i) && Contains(spec.authorities[i].key.value.kms, "://")
    case AttestationConfigMap(i, j) => HasAttestationPolicy(spec, i, j) &&
      AttestationPolicy(spec, i, j).configMapRef.Some?
    case AttestationRemote(i, j) => HasAttestationPolicy(spec, i, j) && AttestationPolicy(spec, i, j).remote.Some?
    case TopConfigMap => spec.policy.Some? && spec.policy.value.configMapRef.Some?
    case TopRemote => spec.policy.Some? && spec.policy.value.remote.Some?
  }

  /** The watched object a visit reads, if it reads one. */
  function RefOf(spec: Spec, op: Op): Option<Ref> {
    if !Pending(spec, op) then None else
    match op
    case KeySecret(i) => Some(SecretNamed(spec.authorities[i].key.value.secretRef.value.name))
    case CaCertSecret(i) => Some(SecretNamed(spec.authorities[i].keyless.value.caCert.value.secretRef.value.name))
    case AttestationConfigMap(i, j) => Some(ConfigMapNamed(AttestationPolicy(spec, i, j).configMapRef.value.name))
    case TopConfigMap => Some(ConfigMapNamed(spec.policy.value.configMapRef.value.name))
    case _ => None
  }

  function Lookup(v: View, ref: Ref): Option<map<string, string>> {
    match ref
    case SecretNamed(name) => if name in v.secrets then Some(v.secrets[name]) else None
    case ConfigMapNamed(name) => if name in v.configMaps then Some(v.configMaps[name]) else None
  }

  ghost function OnlyValue(m: map<string, string>): string
    requires |m| == 1
  {
    var k :| k in m;
    m[k]
  }

  ghost function InlineSecret(x: External, found: Option<map<string, string>>, key: KeyRef): Result<KeyRef, InlineError>
    requires key.secretRef.Some?
  {
    var name := key.secretRef.value.name;
    if found.None? then Err(SecretMissing(name))
    else if |found.value| == 0 then Err(SecretEmpty(name))
    else if |found.value| > 1 then Err(SecretAmbiguous(name))
    else if !x.pemOk(OnlyValue(found.value)) then Err(SecretNotPem(name))
    else Ok(key.(data := OnlyValue(found.value), secretRef := None))
  }

  function InlineKms(x: External, key: KeyRef): Result<KeyRef, InlineError> {
    match x.kmsKey(key.kms, key.hashAlgorithm)
    case None => Err(KmsUnavailable(key.kms))
    case Some(pem) => Ok(key.(data := pem, kms := ""))
  }

  function InlineConfigMap(found: Option<map<string, string>>, policy: Policy): Result<Policy, InlineError>
    requires policy.configMapRef.Some?
  {
    var ref := policy.configMapRef.value;
    if found.None? then Err(ConfigMapMissing(ref.name))
    else if |found.value| == 0 then Err(ConfigMapEmpty(ref.name))
    else if ref.key !in found.value || found.value[ref.key] == "" then Err(ConfigMapKeyMissing(ref.name, ref.key))
    else Ok(policy.(data := found.value[ref.key], configMapRef := None))
  }

  function InlineRemote(x: External, policy: Policy): Result<Policy, InlineError>
    requires policy.remote.Some?
  {
    var remote := policy.remote.value;
    match x.fetch(remote.url)
    case None => Err(RemoteUnavailable(remote.url))
    case Some(body) =>
      if x.sha256(body) != remote.sha256sum then Err(RemoteChanged(remote.url))
      else Ok(policy.(data := body, remote := None))
  }

  function WithKey(spec: Spec, i: nat, key: KeyRef): Spec
    requires HasKey(spec, i)
  {
    spec.(authorities := spec.authorities[i := spec.authorities[i].(key := Some(key))])
  }

  function WithCaCert(spec: Spec, i: nat, key: KeyRef): Spec
    requires HasCaCert(spec, i)
  {
    var a := spec.authorities[i];
    spec.(authorities := spec.authorities[i := a.(keyless := Some(a.keyless.value.(caCert := Some(key))))])
  }

  function WithAttestationPolicy(spec: Spec, i: nat, j: nat, policy: Policy): Spec
    requires HasAttestationPolicy(spec, i, j)
  {
    var a := spec.authorities[i];
    spec.(authorities := spec.authorities[i :=
      a.(attestations := a.attestations[j := a.attestations[j].(policy := Some(policy))])])
  }

  /** Carries out one visit; a place without a reference is left alone. */
  ghost function Exec(x: External, v: View, spec: Spec, op: Op): Result<Spec, InlineError> {
    if !Pending(spec, op) then Ok(spec) else
    match op
    case KeySecret(i) =>
      (match InlineSecret(x, Lookup(v, RefOf(spec, op).value), spec.authorities[i].key.value)
       case Ok(key) => Ok(WithKey(spec, i, key))
       case Err(e) => Err(e))
    case CaCertSecret(i) =>
      (match InlineSecret(x, Lookup(v, RefOf(spec, op).value), spec.authorities[i].keyless.value.caCert.value)
       case Ok(key) => Ok(WithCaCert(spec, i, key))
       case Err(e) => Err(e))
    case KeyKms(i) =>
      (match InlineKms(x, spec.authorities[i].key.value)
       case Ok(key) => Ok(WithKey(spec, i, key))
       case Err(e) => Err(e))
    case AttestationConfigMap(i, j) =>
      (match InlineConfigMap(Lookup(v, RefOf(spec, op).value), AttestationPolicy(spec, i, j))
       case Ok(policy) => Ok(WithAttestationPolicy(spec, i, j, policy))
       case Err(e) => Err(e))
    case AttestationRemote(i, j) =>
      (match InlineRemote(x, AttestationPolicy(spec, i, j))
       case Ok(policy) => Ok(WithAttestationPolicy(spec, i, j, policy))
       // The failure is logged through the URL of the top-level remote policy, which need not exist.
       case Err(e) => Err(if spec.policy.Some? && spec.policy.value.remote.Some? then e else NilDereference))
    case TopConfigMap =>
      (match InlineConfigMap(Lookup(v, RefOf(spec, op).value), spec.policy.value)
       case Ok(policy) => Ok(spec.(policy := Some(policy)))
       case Err(e) => Err(e))
    case TopRemote =>
      (match InlineRemote(x, spec.policy.value)
       case Ok(policy) => Ok(spec.(policy := Some(policy)))
       case Err(e) => Err(e))
  }

  // ---------- the first k visits ----------

  ghost function ExecPrefix(x: External, v: View, spec: Spec, k: nat): Result<Spec, InlineError>
    requires k <= |Plan(spec)|
  {
    if k == 0 then Ok(spec) else
    match ExecPrefix(x, v, spec, k - 1)
    case Err(e) => Err(e)
    case Ok(partial) => Exec(x, v, partial, Plan(spec)[k - 1])
  }

  ghost function Inline(x: External, v: View, spec: Spec): Result<Spec, InlineError> {
    ExecPrefix(x, v, spec, |Plan(spec)|)
  }

  /** Every watched object that the first k visits read. */
  ghost function RefsRead(x: External, v: View, spec: Spec, k: nat): set<Ref>
    requires k <= |Plan(spec)|
  {
    if k == 0 then {} else
    RefsRead(x, v, spec, k - 1) +
    match ExecPrefix(x, v, spec, k - 1)
    case Err(_) => {}
    case Ok(partial) =>
      match RefOf(partial, Plan(spec)[k - 1])
      case None => {}
      case Some(ref) => {ref}
  }

  lemma ExecReadsOne(x: External, v: View, v': View, spec: Spec, op: Op)
    requires RefOf(spec, op).Some? ==> Lookup(v, RefOf(spec, op).value) == Lookup(v', RefOf(spec, op).value)
    ensures Exec(x, v, spec, op) == Exec(x, v', spec, op)
  {
  }

  /** The outcome depends on nothing in the listers but the objects it read. */
  lemma {:induction false} SameWhereRead(x: External, v: View, v': View, spec: Spec, k: nat)
    requires k <= |Plan(spec)|
    requires forall ref :: ref in RefsRead(x, v, spec, k) ==> Lookup(v, ref) == Lookup(v', ref)
    ensures ExecPrefix(x, v, spec, k) == ExecPrefix(x, v', spec, k)
    ensures RefsRead(x, v, spec, k) == RefsRead(x, v', spec, k)
  {
    if k > 0 {
      SameWhereRead(x, v, v', spec, k - 1);
      if ExecPrefix(x, v, spec, k - 1).Ok? {
        ExecReadsOne(x, v, v', ExecPrefix(x, v, spec, k - 1).value, Plan(spec)[k - 1]);
      }
    }
  }

  lemma {:induction false} PrefixOfSuccess(x: External, v: View, spec: Spec, k: nat, m: nat)
    requires k <= m <= |Plan(spec)|
    requires ExecPrefix(x, v, spec, m).Ok?
    ensures ExecPrefix(x, v, spec, k).Ok?
    ensures RefsRead(x, v, spec, k) <= RefsRead(x, v, spec, m)
    decreases m
  {
    if k < m {
      PrefixOfSuccess(x, v, spec, k, m - 1);
    }
  }

  // ---------- a successful compilation leaves no reference behind ----------

  lemma {:induction false} KeyOpsComplete(n: nat, i: nat)
    requires i < n
    ensures KeySecret(i) in KeyOps(n) && CaCertSecret(i) in KeyOps(n) && KeyKms(i) in KeyOps(n)
  {
    if i == n - 1 {
      var last := [KeySecret(i), CaCertSecret(i), KeyKms(i)];
      assert last[0] in KeyOps(n) && last[1] in KeyOps(n) && last[2] in KeyOps(n);
    } else {
      KeyOpsComplete(n - 1, i);
    }
  }

  lemma {:induction false} AttestationOpsComplete(i: nat, n: nat, j: nat)
    requires j < n
    ensures AttestationConfigMap(i, j) in AttestationOps(i, n) && AttestationRemote(i, j) in AttestationOps(i, n)
  {
    if j == n - 1 {
      var last := [AttestationConfigMap(i, j), AttestationRemote(i, j)];
      assert last[0] in AttestationOps(i, n) && last[1] in AttestationOps(i, n);
    } else {
      AttestationOpsComplete(i, n - 1, j);
    }
  }

  lemma {:induction false} PolicyOpsComplete(authorities: seq<Authority>, n: nat, i: nat, j: nat)
    requires i < n <= |authorities| && j < |authorities[i].attestations|
    ensures AttestationConfigMap(i, j) in PolicyOps(authorities, n) &&
      AttestationRemote(i, j) in PolicyOps(authorities, n)
  {
    var init, last := PolicyOps(authorities, n - 1), AttestationOps(n - 1, |authorities[n - 1].attestations|);
    assert PolicyOps(authorities, n) == init + last;
    if i == n - 1 {
      AttestationOpsComplete(i, |authorities[i].attestations|, j);
      assert AttestationConfigMap(i, j) in last && AttestationRemote(i, j) in last;
    } else {
      PolicyOpsComplete(authorities, n - 1, i, j);
      assert AttestationConfigMap(i, j) in init && AttestationRemote(i, j) in init;
    }
  }

  /** The plan visits every place that holds a reference. */
  lemma PlanComplete(spec: Spec, op: Op)
    requires Pending(spec, op)
    ensures op in Plan(spec)
  {
    match op
    case KeySecret(i) => KeyOpsComplete(|spec.authorities|, i);
    case CaCertSecret(i) => KeyOpsComplete(|spec.authorities|, i);
    case KeyKms(i) => KeyOpsComplete(|spec.authorities|, i);
    case AttestationConfigMap(i, j) => PolicyOpsComplete(spec.authorities, |spec.authorities|, i, j);
    case AttestationRemote(i, j) => PolicyOpsComplete(spec.authorities, |spec.authorities|, i, j);
    case TopConfigMap =>
      assert Plan(spec)[|Plan(spec)| - 2] == op;
    case TopRemote =>
      assert Plan(spec)[|Plan(spec)| - 1] == op;
  }

  lemma EmptyHasNoScheme()
    ensures !Contains("", "://")
  {
  }

  lemma WithKeyPending(spec: Spec, i: nat, key: KeyRef, other: Op)
    requires HasKey(spec, i)
    requires key.secretRef.Some? ==> spec.authorities[i].key.value.secretRef.Some?
    requires Contains(key.kms, "://") ==> Contains(spec.authorities[i].key.value.kms, "://")
    ensures Pending(WithKey(spec, i, key), other) ==> Pending(spec, other)
  {
  }

  lemma WithCaCertPending(spec: Spec, i: nat, key: KeyRef, other: Op)
    requires HasCaCert(spec, i)
    requires key.secretRef.Some? ==> spec.authorities[i].keyless.value.caCert.value.secretRef.Some?
    ensures Pending(WithCaCert(spec, i, key), other) ==> Pending(spec, other)
  {
  }

  lemma WithAttestationPolicyPending(spec: Spec, i: nat, j: nat, policy: Policy, other: Op)
    requires HasAttestationPolicy(spec, i, j)
    requires policy.configMapRef.Some? ==> AttestationPolicy(spec, i, j).configMapRef.Some?
    requires policy.remote.Some? ==> AttestationPolicy(spec, i, j).remote.Some?
    ensures Pending(WithAttestationPolicy(spec, i, j, policy), other) ==> Pending(spec, other)
  {
  }

  /** A successful visit brings back no reference anywhere. */
  lemma ExecAddsNone(x: External, v: View, spec: Spec, op: Op, other: Op)
    requires Exec(x, v, spec, op).Ok? && Pending(Exec(x, v, spec, op).value, other)
    ensures Pending(spec, other)
  {
    if Pending(spec, op) {
      EmptyHasNoScheme();
      var after := Exec(x, v, spec, op).value;
      match op
      case KeySecret(i) => WithKeyPending(spec, i, after.authorities[i].key.value, other);
      case CaCertSecret(i) => WithCaCertPending(spec, i, after.authorities[i].keyless.value.caCert.value, other);
      case KeyKms(i) => WithKeyPending(spec, i, after.authorities[i].key.value, other);
      case AttestationConfigMap(i, j) =>
        WithAttestationPolicyPending(spec, i, j, AttestationPolicy(after, i, j), other);
      case AttestationRemote(i, j) => WithAttestationPolicyPending(spec, i, j, AttestationPolicy(after, i, j), other);
      case TopConfigMap =>
      case TopRemote =>
    }
  }

  /** A successful visit clears its own place. */
  lemma ExecClears(x: External, v: View, spec: Spec, op: Op)
    requires Exec(x, v, spec, op).Ok?
    ensures !Pending(Exec(x, v, spec, op).value, op)
  {
  }

  lemma {:induction false} PrefixClears(x: External, v: View, spec: Spec, k: nat, op: Op)
    requires k <= |Plan(spec)| && ExecPrefix(x, v, spec, k).Ok?
    requires Pending(ExecPrefix(x, v, spec, k).value, op)
    ensures Pending(spec, op) && op !in Plan(spec)[..k]
  {
    if k > 0 {
      var partial := ExecPrefix(x, v, spec, k - 1).value;
      ExecClears(x, v, partial, Plan(spec)[k - 1]);
      ExecAddsNone(x, v, partial, Plan(spec)[k - 1], op);
      PrefixClears(x, v, spec, k - 1, op);
      assert Plan(spec)[..k] == Plan(spec)[..k - 1] + [Plan(spec)[k - 1]];
    }
  }

  /** Completeness: what was compiled holds no reference that would still have to be resolved. */
  lemma InlineComplete(x: External, v: View, spec: Spec, op: Op)
    requires Inline(x, v, spec).Ok?
    ensures !Pending(Inline(x, v, spec).value, op)
  {
    assert Plan(spec)[..|Plan(spec)|] == Plan(spec);
    if Pending(Inline(x, v, spec).value, op) {
      PrefixClears(x, v, spec, |Plan(spec)|, op);
      PlanComplete(spec, op);
    }
  }
}
