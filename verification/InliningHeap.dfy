/**
 Inlining as the reconciler performs it on objects: the policy is copied in depth, and keys and policies of the copy are
 then changed in place through the pointers that the copied structs hold.
 */
module InliningHeap {
  import opened Wrappers
  import opened V1alpha1
  import opened Inlining

  // ---------- objects ----------

  class KeyObject {
    var secretRef: Option<SecretReference>
    var data: string
    var kms: string
    var hashAlgorithm: string

    constructor (k: KeyRef)
      ensures Value() == k
    {
      secretRef, data, kms, hashAlgorithm := k.secretRef, k.data, k.kms, k.hashAlgorithm;
    }

    function Value(): KeyRef
      reads this
    {
      KeyRef(secretRef, data, kms, hashAlgorithm)
    }
  }

  class PolicyObject {
    /** The fields that inlining does not touch. */
    const fixed: Policy
    var data: string
    var remote: Option<RemotePolicy>
    var configMapRef: Option<ConfigMapReference>

    constructor (p: Policy)
      ensures Value() == p
    {
      fixed, data, remote, configMapRef := p, p.data, p.remote, p.configMapRef;
    }

    function Value(): Policy
      reads this
    {
      fixed.(data := data, remote := remote, configMapRef := configMapRef)
    }
  }

  /**
   A struct: copying it copies the pointers. `plain` holds the fields that are not reached through a pointer; its own
   key, CA certificate and policies stand for nothing.
   */
  datatype AuthorityStruct = AuthorityStruct(
    plain: Authority,
    key: KeyObject?,
    caCert: KeyObject?,
    policies: seq<PolicyObject?>)

  datatype SpecStruct = SpecStruct(plain: Spec, authorities: seq<AuthorityStruct>, policy: PolicyObject?)

  // ---------- what objects stand for ----------

  ghost function KeyValue(o: KeyObject?): Option<KeyRef>
    reads o
  {
    if o == null then None else Some(o.Value())
  }

  ghost function PolicyValue(o: PolicyObject?): Option<Policy>
    reads o
  {
    if o == null then None else Some(o.Value())
  }

  ghost predicate Shaped(a: AuthorityStruct) {
    |a.policies| == |a.plain.attestations| && (a.caCert != null ==> a.plain.keyless.Some?)
  }

  ghost function AttestationValues(plain: seq<Attestation>, policies: seq<PolicyObject?>): (r: seq<Attestation>)
    requires |plain| == |policies|
    reads policies
    ensures |r| == |plain| && forall j | 0 <= j < |r| :: r[j] == plain[j].(policy := PolicyValue(policies[j]))
  {
    seq(|plain|, j requires 0 <= j < |plain| reads policies => plain[j].(policy := PolicyValue(policies[j])))
  }

  /** The objects an authority points to. */
  ghost function Parts(a: AuthorityStruct): set<object> {
    (if a.key != null then {a.key} else {}) + (if a.caCert != null then {a.caCert} else {}) +
    set j | 0 <= j < |a.policies| && a.policies[j] != null :: a.policies[j]
  }

  ghost function AuthorityValue(a: AuthorityStruct): Authority
    requires Shaped(a)
    reads Parts(a)
  {
    a.plain.(key := KeyValue(a.key),
             keyless := if a.plain.keyless.None? then None else
               Some(a.plain.keyless.value.(caCert := KeyValue(a.caCert))),
             attestations := AttestationValues(a.plain.attestations, a.policies))
  }

  ghost predicate AllShaped(o: SpecStruct) { forall i | 0 <= i < |o.authorities| :: Shaped(o.authorities[i]) }

  ghost function Value(o: SpecStruct): (s: Spec)
    requires AllShaped(o)
    reads *
  {
    o.plain.(authorities :=
               seq(|o.authorities|, i requires 0 <= i < |o.authorities| reads * => AuthorityValue(o.authorities[i])),
             policy := PolicyValue(o.policy))
  }

  ghost predicate Twigs(a: AuthorityStruct) {
    && Shaped(a)
    && (a.key != null ==> a.key != a.caCert)
    && (forall j, j' :: 0 <= j < j' < |a.policies| && a.policies[j] != null ==> a.policies[j] != a.policies[j'])
  }

  /** No object is reached through two pointers. */
  ghost predicate Tree(o: SpecStruct) {
    && (forall i, i' :: 0 <= i < i' < |o.authorities| ==> Parts(o.authorities[i]) !! Parts(o.authorities[i']))
    && (forall i | 0 <= i < |o.authorities| :: Twigs(o.authorities[i]) && o.policy !in Parts(o.authorities[i]))
    && AllShaped(o)
  }

  // ---------- one object ----------

  lemma OnlyValueIs(m: map<string, string>, k: string)
    requires |m| == 1 && k in m
    ensures OnlyValue(m) == m[k]
  {
    assert |m.Keys - {k}| == 0;
    assert m.Keys == (m.Keys - {k}) + {k};
  }

  method InlineAndTrackSecret(x: External, v: View, keyref: KeyObject) returns (e: Option<InlineError>)
    requires keyref.secretRef.Some?
    modifies keyref
    ensures match InlineSecret(x, Lookup(v, SecretNamed(old(keyref.secretRef).value.name)), old(keyref.Value()))
            case Ok(key) => e.None? && keyref.Value() == key
            case Err(error) => e == Some(error) && keyref.Value() == old(keyref.Value())
  {
    var name := keyref.secretRef.value.name;
    var found := Lookup(v, SecretNamed(name));
    if found.None? {
      return Some(SecretMissing(name));
    }
    if |found.value| == 0 {
      return Some(SecretEmpty(name));
    }
    if |found.value| > 1 {
      return Some(SecretAmbiguous(name));
    }
    assert found.value.Keys != {};
    var k :| k in found.value.Keys;
    OnlyValueIs(found.value, k);
    if !x.pemOk(found.value[k]) {
      return Some(SecretNotPem(name));
    }
    keyref.data := found.value[k];
    keyref.secretRef := None;
    return None;
  }

  method InlineKmsKey(x: External, key: KeyObject) returns (e: Option<InlineError>)
    modifies key
    ensures match InlineKms(x, old(key.Value()))
            case Ok(k) => e.None? && key.Value() == k
            case Err(error) => e == Some(error) && key.Value() == old(key.Value())
  {
    match x.kmsKey(key.kms, key.hashAlgorithm)
    case None => e := Some(KmsUnavailable(key.kms));
    case Some(pem) =>
      key.data := pem;
      key.kms := "";
      e := None;
  }

  method InlineAndTrackConfigMap(v: View, policyRef: PolicyObject) returns (e: Option<InlineError>)
    requires policyRef.configMapRef.Some?
    modifies policyRef
    ensures match InlineConfigMap(Lookup(v, ConfigMapNamed(old(policyRef.configMapRef).value.name)),
      old(policyRef.Value()))
            case Ok(p) => e.None? && policyRef.Value() == p
            case Err(error) => e == Some(error) && policyRef.Value() == old(policyRef.Value())
  {
    var name, key := policyRef.configMapRef.value.name, policyRef.configMapRef.value.key;
    var found := Lookup(v, ConfigMapNamed(name));
    if found.None? {
      return Some(ConfigMapMissing(name));
    }
    if |found.value| == 0 {
      return Some(ConfigMapEmpty(name));
    }
    if key !in found.value || found.value[key] == "" {
      return Some(ConfigMapKeyMissing(name, key));
    }
    policyRef.data := found.value[key];
    policyRef.configMapRef := None;
    return None;
  }

  method InlinePolicyURL(x: External, policyRef: PolicyObject) returns (e: Option<InlineError>)
    requires policyRef.remote.Some?
    modifies policyRef
    ensures match InlineRemote(x, old(policyRef.Value()))
            case Ok(p) => e.None? && policyRef.Value() == p
            case Err(error) => e == Some(error) && policyRef.Value() == old(policyRef.Value())
  {
    var remote := policyRef.remote.value;
    match x.fetch(remote.url)
    case None => e := Some(RemoteUnavailable(remote.url));
    case Some(body) =>
      if x.sha256(body) != remote.sha256sum {
        return Some(RemoteChanged(remote.url));
      }
      policyRef.data := body;
      policyRef.remote := None;
      e := None;
  }

  // ---------- one authority ----------

  function WithPolicy(a: Authority, j: nat, p: Policy): Authority
    requires j < |a.attestations|
  {
    a.(attestations := a.attestations[j := a.attestations[j].(policy := Some(p))])
  }

  /** An authority with a text for one of its attestations, if there is one. */
  function Placed(r: Result<Policy, InlineError>, a: Authority, j: nat): Result<Authority, InlineError>
    requires j < |a.attestations|
  {
    match r
    case Ok(p) => Ok(WithPolicy(a, j, p))
    case Err(e) => Err(e)
  }

  function FromConfigMap(v: View, p: Policy): Result<Policy, InlineError>
    requires p.configMapRef.Some?
  {
    InlineConfigMap(Lookup(v, ConfigMapNamed(p.configMapRef.value.name)), p)
  }

  ghost function AuthorityOutcome(a: AuthorityStruct, e: Option<InlineError>): Result<Authority, InlineError>
    requires Shaped(a)
    reads Parts(a)
  {
    if e.Some? then Err(e.value) else Ok(AuthorityValue(a))
  }

  function WithCert(a: Authority, k: KeyRef): Authority
    requires a.keyless.Some?
  {
    a.(keyless := Some(a.keyless.value.(caCert := Some(k))))
  }

  /** Changing one object leaves the rest of the authority as it is. */
  method AuthorityKeySecret(x: External, v: View, o: AuthorityStruct) returns (e: Option<InlineError>)
    requires Twigs(o) && o.key != null && o.key.secretRef.Some?
    modifies o.key
    ensures match InlineSecret(x, Lookup(v, SecretNamed(old(o.key.secretRef).value.name)), old(o.key.Value()))
            case Ok(r) => e.None? && AuthorityValue(o) == old(AuthorityValue(o)).(key := Some(r))
            case Err(error) => e == Some(error)
  {
    e := InlineAndTrackSecret(x, v, o.key);
    assert AttestationValues(o.plain.attestations, o.policies) ==
      old(AttestationValues(o.plain.attestations, o.policies));
  }

  method AuthorityCaCertSecret(x: External, v: View, o: AuthorityStruct) returns (e: Option<InlineError>)
    requires Twigs(o) && o.caCert != null && o.caCert.secretRef.Some?
    modifies o.caCert
    ensures match InlineSecret(x, Lookup(v, SecretNamed(old(o.caCert.secretRef).value.name)), old(o.caCert.Value()))
            case Ok(r) => e.None? && AuthorityValue(o) == WithCert(old(AuthorityValue(o)), r)
            case Err(error) => e == Some(error)
  {
    e := InlineAndTrackSecret(x, v, o.caCert);
    assert AttestationValues(o.plain.attestations, o.policies) ==
      old(AttestationValues(o.plain.attestations, o.policies));
  }

  method AuthorityKms(x: External, o: AuthorityStruct) returns (e: Option<InlineError>)
    requires Twigs(o) && o.key != null
    modifies o.key
    ensures match InlineKms(x, old(o.key.Value()))
            case Ok(r) => e.None? && AuthorityValue(o) == old(AuthorityValue(o)).(key := Some(r))
            case Err(error) => e == Some(error)
  {
    e := InlineKmsKey(x, o.key);
    assert AttestationValues(o.plain.attestations, o.policies) ==
      old(AttestationValues(o.plain.attestations, o.policies));
  }

  method AuthorityConfigMap(v: View, o: AuthorityStruct, j: nat) returns (e: Option<InlineError>)
    requires Twigs(o) && j < |o.policies| && o.policies[j] != null && o.policies[j].configMapRef.Some?
    modifies o.policies[j]
    ensures AuthorityOutcome(o, e) == Placed(FromConfigMap(v, old(o.policies[j].Value())), old(AuthorityValue(o)), j)
  {
    e := InlineAndTrackConfigMap(v, o.policies[j]);
    assert AuthorityValue(o).attestations == WithPolicy(old(AuthorityValue(o)), j, o.policies[j].Value()).attestations;
  }

  method AuthorityRemote(x: External, o: AuthorityStruct, j: nat) returns (e: Option<InlineError>)
    requires Twigs(o) && j < |o.policies| && o.policies[j] != null && o.policies[j].remote.Some?
    modifies o.policies[j]
    ensures AuthorityOutcome(o, e) == Placed(InlineRemote(x, old(o.policies[j].Value())), old(AuthorityValue(o)), j)
  {
    e := InlinePolicyURL(x, o.policies[j]);
    assert AuthorityValue(o).attestations == WithPolicy(old(AuthorityValue(o)), j, o.policies[j].Value()).attestations;
  }

  // ---------- one place ----------

  /** The copy after a visit, or why it failed. */
  ghost function Outcome(o: SpecStruct, e: Option<InlineError>): Result<Spec, InlineError>
    requires AllShaped(o)
    reads *
  {
    if e.Some? then Err(e.value) else Ok(Value(o))
  }

  function Replaced(s: Spec, i: nat, a: Authority): Spec
    requires i < |s.authorities|
  {
    s.(authorities := s.authorities[i := a])
  }

  /** The spec with one authority replaced, if that could be had. */
  function Embedded(r: Result<Authority, InlineError>, s: Spec, i: nat): Result<Spec, InlineError>
    requires i < |s.authorities|
  {
    match r
    case Ok(a) => Ok(Replaced(s, i, a))
    case Err(e) => Err(e)
  }

  lemma ConfigMapEmbeds(x: External, v: View, s: Spec, i: nat, j: nat)
    requires Pending(s, AttestationConfigMap(i, j))
    ensures Exec(x, v, s, AttestationConfigMap(i, j)) ==
      Embedded(Placed(FromConfigMap(v, AttestationPolicy(s, i, j)), s.authorities[i], j), s, i)
  {
  }

  /** But for the log line, which asks the top-level policy for a URL that it need not have. */
  function Logged(r: Result<Spec, InlineError>, s: Spec): Result<Spec, InlineError> {
    if r.Err? && (s.policy.None? || s.policy.value.remote.None?) then Err(NilDereference) else r
  }

  lemma RemoteEmbeds(x: External, v: View, s: Spec, i: nat, j: nat)
    requires Pending(s, AttestationRemote(i, j))
    ensures Exec(x, v, s, AttestationRemote(i, j)) ==
      Logged(Embedded(Placed(InlineRemote(x, AttestationPolicy(s, i, j)), s.authorities[i], j), s, i), s)
  {
  }

  /** Reading the text for one attestation leaves the rest of the spec as it is. */
  method AttestationFromConfigMap(v: View, o: SpecStruct, i: nat, j: nat) returns (e: Option<InlineError>)
    requires Tree(o) && i < |o.authorities| && j < |o.authorities[i].policies|
    requires o.authorities[i].policies[j] != null && o.authorities[i].policies[j].configMapRef.Some?
    modifies o.authorities[i].policies[j]
    ensures AuthorityOutcome(o.authorities[i], e) ==
      Placed(FromConfigMap(v, old(o.authorities[i].policies[j].Value())), old(AuthorityValue(o.authorities[i])), j)
    ensures Value(o) == Replaced(old(Value(o)), i, AuthorityValue(o.authorities[i]))
  {
    var authority := o.authorities[i];
    assert authority.policies[j] in Parts(authority);
    e := AuthorityConfigMap(v, authority, j);
    forall k | 0 <= k < |o.authorities| && k != i
      ensures AuthorityValue(o.authorities[k]) == old(AuthorityValue(o.authorities[k]))
    {
      assert Parts(authority) !! Parts(o.authorities[k]);
    }
    assert Value(o).authorities == old(Value(o)).authorities[i := AuthorityValue(authority)];
  }

  method AttestationFromRemote(x: External, o: SpecStruct, i: nat, j: nat) returns (e: Option<InlineError>)
    requires Tree(o) && i < |o.authorities| && j < |o.authorities[i].policies|
    requires o.authorities[i].policies[j] != null && o.authorities[i].policies[j].remote.Some?
    modifies o.authorities[i].policies[j]
    ensures AuthorityOutcome(o.authorities[i], e) ==
      Placed(InlineRemote(x, old(o.authorities[i].policies[j].Value())), old(AuthorityValue(o.authorities[i])), j)
    ensures Value(o) == Replaced(old(Value(o)), i, AuthorityValue(o.authorities[i]))
  {
    var authority := o.authorities[i];
    assert authority.policies[j] in Parts(authority);
    ghost var placed := Placed(InlineRemote(x, authority.policies[j].Value()), AuthorityValue(authority), j);
    e := AuthorityRemote(x, authority, j);
    assert AuthorityOutcome(authority, e) == placed;
    forall k | 0 <= k < |o.authorities| && k != i
      ensures AuthorityValue(o.authorities[k]) == old(AuthorityValue(o.authorities[k]))
    {
      assert Parts(authority) !! Parts(o.authorities[k]);
    }
    assert Value(o).authorities == old(Value(o)).authorities[i := AuthorityValue(authority)];
  }

  method VisitKeySecret(x: External, v: View, o: SpecStruct, i: nat) returns (e: Option<InlineError>)
    requires Tree(o) && i < |o.authorities|
    modifies o.authorities[i].key
    ensures Outcome(o, e) == Exec(x, v, old(Value(o)), KeySecret(i))
  {
    e := None;
    var authority := o.authorities[i];
    if authority.key != null && authority.key.secretRef.Some? {
      e := AuthorityKeySecret(x, v, authority);
      forall k | 0 <= k < |o.authorities| && k != i
        ensures AuthorityValue(o.authorities[k]) == old(AuthorityValue(o.authorities[k]))
      {
        assert Parts(authority) !! Parts(o.authorities[k]);
      }
      assert e.None? ==> Value(o) == WithKey(old(Value(o)), i, authority.key.Value());
    }
  }

  method VisitCaCertSecret(x: External, v: View, o: SpecStruct, i: nat) returns (e: Option<InlineError>)
    requires Tree(o) && i < |o.authorities|
    modifies o.authorities[i].caCert
    ensures Outcome(o, e) == Exec(x, v, old(Value(o)), CaCertSecret(i))
  {
    e := None;
    var authority := o.authorities[i];
    assert Value(o).authorities[i] == AuthorityValue(authority);
    if authority.caCert != null && authority.caCert.secretRef.Some? {
      assert authority.caCert in Parts(authority);
      e := AuthorityCaCertSecret(x, v, authority);
      forall k | 0 <= k < |o.authorities| && k != i
        ensures AuthorityValue(o.authorities[k]) == old(AuthorityValue(o.authorities[k]))
      {
        assert Parts(authority) !! Parts(o.authorities[k]);
      }
      assert e.None? ==> Value(o) == WithCaCert(old(Value(o)), i, authority.caCert.Value());
    }
  }

  method VisitKeyKms(x: External, v: View, o: SpecStruct, i: nat) returns (e: Option<InlineError>)
    requires Tree(o) && i < |o.authorities|
    modifies o.authorities[i].key
    ensures Outcome(o, e) == Exec(x, v, old(Value(o)), KeyKms(i))
  {
    e := None;
    var authority := o.authorities[i];
    if authority.key != null && Contains(authority.key.kms, "://") {
      e := AuthorityKms(x, authority);
      forall k | 0 <= k < |o.authorities| && k != i
        ensures AuthorityValue(o.authorities[k]) == old(AuthorityValue(o.authorities[k]))
      {
        assert Parts(authority) !! Parts(o.authorities[k]);
      }
      assert e.None? ==> Value(o) == WithKey(old(Value(o)), i, authority.key.Value());
    }
  }

  method VisitAttestationConfigMap(x: External, v: View, o: SpecStruct, i: nat, j: nat) returns (e: Option<InlineError>)
    requires Tree(o) && i < |o.authorities| && j < |o.authorities[i].policies|
    modifies o.authorities[i].policies[j]
    ensures Outcome(o, e) == Exec(x, v, old(Value(o)), AttestationConfigMap(i, j))
  {
    e := None;
    var authority := o.authorities[i];
    assert Value(o).authorities[i] == AuthorityValue(authority);
    if authority.policies[j] != null && authority.policies[j].configMapRef.Some? {
      ConfigMapEmbeds(x, v, Value(o), i, j);
      e := AttestationFromConfigMap(v, o, i, j);
    }
  }

  method VisitAttestationRemote(x: External, v: View, o: SpecStruct, i: nat, j: nat) returns (e: Option<InlineError>)
    requires Tree(o) && i < |o.authorities| && j < |o.authorities[i].policies|
    modifies o.authorities[i].policies[j]
    ensures Outcome(o, e) == Exec(x, v, old(Value(o)), AttestationRemote(i, j))
  {
    e := None;
    var authority := o.authorities[i];
    assert Value(o).authorities[i] == AuthorityValue(authority);
    if authority.policies[j] != null && authority.policies[j].remote.Some? {
      RemoteEmbeds(x, v, Value(o), i, j);
      e := AttestationFromRemote(x, o, i, j);
      assert PolicyValue(o.policy) == old(Value(o)).policy;
      if e.Some? && (o.policy == null || o.policy.remote.None?) {
        // The log line asks the top-level policy for a URL it does not have.
        e := Some(NilDereference);
      }
    }
  }

  method VisitTopConfigMap(x: External, v: View, o: SpecStruct) returns (e: Option<InlineError>)
    requires Tree(o)
    modifies o.policy
    ensures Outcome(o, e) == Exec(x, v, old(Value(o)), TopConfigMap)
  {
    e := None;
    if o.policy != null && o.policy.configMapRef.Some? {
      e := InlineAndTrackConfigMap(v, o.policy);
      forall k | 0 <= k < |o.authorities|
        ensures AuthorityValue(o.authorities[k]) == old(AuthorityValue(o.authorities[k]))
      {
        assert o.policy !in Parts(o.authorities[k]);
      }
      assert Value(o).authorities == old(Value(o)).authorities;
    }
  }

  method VisitTopRemote(x: External, v: View, o: SpecStruct) returns (e: Option<InlineError>)
    requires Tree(o)
    modifies o.policy
    ensures Outcome(o, e) == Exec(x, v, old(Value(o)), TopRemote)
  {
    e := None;
    if o.policy != null && o.policy.remote.Some? {
      e := InlinePolicyURL(x, o.policy);
      forall k | 0 <= k < |o.authorities|
        ensures AuthorityValue(o.authorities[k]) == old(AuthorityValue(o.authorities[k]))
      {
        assert o.policy !in Parts(o.authorities[k]);
      }
      assert Value(o).authorities == old(Value(o)).authorities;
    }
  }

  // ---------- all places ----------

  /** The visits of a list of places, one after the other. */
  ghost function ExecAll(x: External, v: View, spec: Spec, ops: seq<Op>): Result<Spec, InlineError> {
    if ops == [] then Ok(spec) else
    match ExecAll(x, v, spec, ops[..|ops| - 1])
    case Err(e) => Err(e)
    case Ok(partial) => Exec(x, v, partial, ops[|ops| - 1])
  }

  lemma {:induction false} PrefixIsAll(x: External, v: View, spec: Spec, k: nat)
    requires k <= |Plan(spec)|
    ensures ExecPrefix(x, v, spec, k) == ExecAll(x, v, spec, Plan(spec)[..k])
  {
    if k > 0 {
      PrefixIsAll(x, v, spec, k - 1);
      assert Plan(spec)[..k][..k - 1] == Plan(spec)[..k - 1];
    }
  }

  lemma OneMore(x: External, v: View, spec: Spec, ops: seq<Op>, op: Op)
    ensures ExecAll(x, v, spec, ops).Ok? ==>
      ExecAll(x, v, spec, ops + [op]) == Exec(x, v, ExecAll(x, v, spec, ops).value, op)
  {
  }

  /** A failure ends it all. */
  lemma {:induction false} FailureStays(x: External, v: View, spec: Spec, ops: seq<Op>, more: seq<Op>)
    requires ExecAll(x, v, spec, ops).Err?
    ensures ExecAll(x, v, spec, ops + more) == ExecAll(x, v, spec, ops)
  {
    if more == [] {
      assert ops + more == ops;
    } else {
      FailureStays(x, v, spec, ops, more[..|more| - 1]);
      assert (ops + more)[..|ops + more| - 1] == ops + more[..|more| - 1];
    }
  }

  lemma FailureInPlan(x: External, v: View, spec: Spec, ops: seq<Op>)
    requires ops <= Plan(spec) && ExecAll(x, v, spec, ops).Err?
    ensures Inline(x, v, spec) == ExecAll(x, v, spec, ops)
  {
    assert Plan(spec) == ops + Plan(spec)[|ops|..];
    FailureStays(x, v, spec, ops, Plan(spec)[|ops|..]);
    assert Plan(spec)[..|Plan(spec)|] == Plan(spec);
    PrefixIsAll(x, v, spec, |Plan(spec)|);
  }

  lemma {:induction false} KeyOpsGrow(i: nat, n: nat)
    requires i <= n
    ensures KeyOps(i) <= KeyOps(n)
    decreases n
  {
    if i < n {
      KeyOpsGrow(i, n - 1);
    }
  }

  lemma {:induction false} AttestationOpsGrow(i: nat, j: nat, n: nat)
    requires j <= n
    ensures AttestationOps(i, j) <= AttestationOps(i, n)
    decreases n
  {
    if j < n {
      AttestationOpsGrow(i, j, n - 1);
    }
  }

  lemma {:induction false} PolicyOpsGrow(authorities: seq<Authority>, i: nat, n: nat)
    requires i <= n <= |authorities|
    ensures PolicyOps(authorities, i) <= PolicyOps(authorities, n)
    decreases n
  {
    if i < n {
      PolicyOpsGrow(authorities, i, n - 1);
    }
  }

  /** The keys of one authority. */
  method VisitKeys(x: External, v: View, o: SpecStruct, i: nat, ghost s: Spec) returns (e: Option<InlineError>)
    requires Tree(o) && i < |o.authorities| && AfterKeys(x, v, s, i) == Ok(Value(o))
    modifies Parts(o.authorities[i])
    ensures Outcome(o, e) == AfterKeys(x, v, s, i + 1)
  {
    ghost var ops := KeyOps(i);
    assert KeyOps(i + 1) == ops + [KeySecret(i)] + [CaCertSecret(i)] + [KeyKms(i)];
    OneMore(x, v, s, ops, KeySecret(i));
    e := VisitKeySecret(x, v, o, i);
    if e.Some? {
      FailureStays(x, v, s, ops + [KeySecret(i)], [CaCertSecret(i)]);
      FailureStays(x, v, s, ops + [KeySecret(i)] + [CaCertSecret(i)], [KeyKms(i)]);
      return;
    }
    ops := ops + [KeySecret(i)];
    OneMore(x, v, s, ops, CaCertSecret(i));
    e := VisitCaCertSecret(x, v, o, i);
    if e.Some? {
      FailureStays(x, v, s, ops + [CaCertSecret(i)], [KeyKms(i)]);
      return;
    }
    ops := ops + [CaCertSecret(i)];
    OneMore(x, v, s, ops, KeyKms(i));
    e := VisitKeyKms(x, v, o, i);
  }

  lemma AttestationFailure(x: External, v: View, s: Spec, ops: seq<Op>, i: nat, j: nat, n: nat)
    requires j <= n && ExecAll(x, v, s, ops + AttestationOps(i, j)).Err?
    ensures ExecAll(x, v, s, ops + AttestationOps(i, n)) == ExecAll(x, v, s, ops + AttestationOps(i, j))
  {
    AttestationOpsGrow(i, j, n);
    var rest := AttestationOps(i, n)[|AttestationOps(i, j)|..];
    FailureStays(x, v, s, ops + AttestationOps(i, j), rest);
    assert ops + AttestationOps(i, j) + rest == ops + AttestationOps(i, n);
  }

  /** The policy of one attestation. */
  method VisitAttestation(x: External, v: View, o: SpecStruct, i: nat, j: nat, ghost s: Spec, ghost ops: seq<Op>)
    returns (e: Option<InlineError>)
    requires Tree(o) && i < |o.authorities| && j < |o.authorities[i].policies|
    requires ExecAll(x, v, s, ops + AttestationOps(i, j)) == Ok(Value(o))
    modifies Parts(o.authorities[i])
    ensures Outcome(o, e) == ExecAll(x, v, s, ops + AttestationOps(i, j + 1))
  {
    ghost var before, first, second := ops + AttestationOps(i, j), AttestationConfigMap(i, j), AttestationRemote(i, j);
    assert ops + AttestationOps(i, j + 1) == before + [first] + [second];
    OneMore(x, v, s, before, first);
    e := VisitAttestationConfigMap(x, v, o, i, j);
    if e.Some? {
      FailureStays(x, v, s, before + [first], [second]);
      return;
    }
    OneMore(x, v, s, before + [first], second);
    e := VisitAttestationRemote(x, v, o, i, j);
  }

  /** The policies of the attestations of one authority. */
  method VisitAttestations(x: External, v: View, o: SpecStruct, i: nat, ghost s: Spec, ghost ops: seq<Op>)
    returns (e: Option<InlineError>)
    requires Tree(o) && i < |o.authorities| && ExecAll(x, v, s, ops + AttestationOps(i, 0)) == Ok(Value(o))
    modifies Parts(o.authorities[i])
    ensures Outcome(o, e) == ExecAll(x, v, s, ops + AttestationOps(i, |o.authorities[i].policies|))
  {
    hide ExecAll, Exec, AttestationOps, KeyOps;
    var j := 0;
    e := None;
    while e.None? && j < |o.authorities[i].policies|
      invariant 0 <= j <= |o.authorities[i].policies|
      invariant Outcome(o, e) == ExecAll(x, v, s, ops + AttestationOps(i, j))
    {
      e := VisitAttestation(x, v, o, i, j, s, ops);
      j := j + 1;
    }
    if e.Some? {
      AttestationFailure(x, v, s, ops, i, j, |o.authorities[i].policies|);
    }
  }

  /** All objects of the copy are among the given ones. */
  ghost predicate Within(o: SpecStruct, made: set<object>) {
    (forall i | 0 <= i < |o.authorities| :: Parts(o.authorities[i]) <= made) && (o.policy != null ==> o.policy in made)
  }

  /** What the visits of the keys of the first authorities give. */
  ghost function AfterKeys(x: External, v: View, s: Spec, i: nat): Result<Spec, InlineError> {
    ExecAll(x, v, s, KeyOps(i))
  }

  lemma KeyFailure(x: External, v: View, s: Spec, i: nat, n: nat)
    requires i <= n && AfterKeys(x, v, s, i).Err?
    ensures AfterKeys(x, v, s, n) == AfterKeys(x, v, s, i)
  {
    KeyOpsGrow(i, n);
    FailureStays(x, v, s, KeyOps(i), KeyOps(n)[|KeyOps(i)|..]);
    assert KeyOps(i) + KeyOps(n)[|KeyOps(i)|..] == KeyOps(n);
  }

  /** The first pass: keys of all authorities. */
  method InlinePublicKeys(x: External, v: View, o: SpecStruct, ghost s: Spec, ghost made: set<object>)
    returns (e: Option<InlineError>)
    requires Tree(o) && Within(o, made) && AfterKeys(x, v, s, 0) == Ok(Value(o))
    modifies made
    ensures Outcome(o, e) == AfterKeys(x, v, s, |o.authorities|)
  {
    var i := 0;
    e := None;
    while e.None? && i < |o.authorities|
      invariant 0 <= i <= |o.authorities|
      invariant Outcome(o, e) == AfterKeys(x, v, s, i)
    {
      e := VisitKeys(x, v, o, i, s);
      i := i + 1;
    }
    if e.Some? {
      KeyFailure(x, v, s, i, |o.authorities|);
    }
  }

  ghost function Visits(s: Spec, i: nat): seq<Op>
    requires i <= |s.authorities|
  {
    KeyOps(|s.authorities|) + PolicyOps(s.authorities, i)
  }

  lemma VisitsNext(s: Spec, i: nat)
    requires i < |s.authorities|
    ensures Visits(s, i) + AttestationOps(i, 0) == Visits(s, i)
    ensures Visits(s, i) + AttestationOps(i, |s.authorities[i].attestations|) == Visits(s, i + 1)
  {
  }

  lemma PolicyFailure(x: External, v: View, s: Spec, i: nat)
    requires i <= |s.authorities| && ExecAll(x, v, s, Visits(s, i)).Err?
    ensures ExecAll(x, v, s, Visits(s, |s.authorities|)) == ExecAll(x, v, s, Visits(s, i))
  {
    PolicyOpsGrow(s.authorities, i, |s.authorities|);
    var rest := PolicyOps(s.authorities, |s.authorities|)[|PolicyOps(s.authorities, i)|..];
    FailureStays(x, v, s, Visits(s, i), rest);
    assert Visits(s, i) + rest == Visits(s, |s.authorities|);
  }

  ghost predicate SameShape(o: SpecStruct, s: Spec) {
    |o.authorities| == |s.authorities| && forall i | 0 <= i < |o.authorities| ::
      |o.authorities[i].policies| == |s.authorities[i].attestations|
  }

  /** The second pass, over the attestations. */
  method InlineAttestationPolicies(x: External, v: View, o: SpecStruct, ghost s: Spec, ghost made: set<object>)
    returns (e: Option<InlineError>)
    requires Tree(o) && Within(o, made) && SameShape(o, s) && ExecAll(x, v, s, KeyOps(|s.authorities|)) == Ok(Value(o))
    modifies made
    ensures Outcome(o, e) == ExecAll(x, v, s, Visits(s, |s.authorities|))
  {
    hide ExecAll, Exec, AttestationOps, KeyOps;
    var i := 0;
    e := None;
    assert Visits(s, 0) == KeyOps(|s.authorities|);
    while e.None? && i < |o.authorities|
      invariant 0 <= i <= |o.authorities|
      invariant Outcome(o, e) == ExecAll(x, v, s, Visits(s, i))
    {
      VisitsNext(s, i);
      e := VisitAttestations(x, v, o, i, s, Visits(s, i));
      i := i + 1;
    }
    if e.Some? {
      PolicyFailure(x, v, s, i);
    }
  }

  lemma PlanIsVisits(s: Spec)
    ensures Plan(s) == Visits(s, |s.authorities|) + [TopConfigMap] + [TopRemote]
  {
  }

  /** The second pass: policies of all attestations, and the policy of the spec. */
  method InlinePolicies(x: External, v: View, o: SpecStruct, ghost s: Spec, ghost made: set<object>)
    returns (e: Option<InlineError>)
    requires Tree(o) && Within(o, made) && SameShape(o, s) && ExecAll(x, v, s, KeyOps(|s.authorities|)) == Ok(Value(o))
    modifies made
    ensures Outcome(o, e) == ExecAll(x, v, s, Plan(s))
  {
    PlanIsVisits(s);
    ghost var ops := Visits(s, |s.authorities|);
    e := InlineAttestationPolicies(x, v, o, s, made);
    if e.Some? {
      FailureStays(x, v, s, ops, [TopConfigMap]);
      FailureStays(x, v, s, ops + [TopConfigMap], [TopRemote]);
      return;
    }
    OneMore(x, v, s, ops, TopConfigMap);
    e := VisitTopConfigMap(x, v, o);
    if e.Some? {
      FailureStays(x, v, s, ops + [TopConfigMap], [TopRemote]);
      return;
    }
    OneMore(x, v, s, ops + [TopConfigMap], TopRemote);
    e := VisitTopRemote(x, v, o);
  }

  // ---------- the copy ----------

  method CopyKey(k: KeyObject?) returns (r: KeyObject?)
    ensures KeyValue(r) == KeyValue(k) && (r != null ==> fresh(r)) && (r == null <==> k == null)
  {
    r := null;
    if k != null {
      r := new KeyObject(k.Value());
    }
  }

  method CopyPolicy(p: PolicyObject?) returns (r: PolicyObject?)
    ensures PolicyValue(r) == PolicyValue(p) && (r != null ==> fresh(r))
  {
    r := null;
    if p != null {
      r := new PolicyObject(p.Value());
    }
  }

  method CopyPolicies(policies: seq<PolicyObject?>) returns (r: seq<PolicyObject?>)
    ensures |r| == |policies| && forall j | 0 <= j < |r| :: PolicyValue(r[j]) == PolicyValue(policies[j])
    ensures forall j | 0 <= j < |r| :: r[j] != null ==> fresh(r[j])
    ensures forall j, j' :: 0 <= j < j' < |r| && r[j] != null ==> r[j] != r[j']
  {
    r := [];
    for k := 0 to |policies|
      invariant |r| == k && forall j | 0 <= j < k :: PolicyValue(r[j]) == PolicyValue(policies[j])
      invariant forall j | 0 <= j < k :: r[j] != null ==> fresh(r[j])
      invariant forall j, j' :: 0 <= j < j' < k && r[j] != null ==> r[j] != r[j']
    {
      var p := CopyPolicy(policies[k]);
      r := r + [p];
    }
  }

  ghost predicate IsCopy(r: AuthorityStruct, a: AuthorityStruct)
    reads Parts(r), Parts(a)
  {
    Twigs(r) && Shaped(a) && |r.policies| == |a.policies| && AuthorityValue(r) == AuthorityValue(a)
  }

  method CopyAuthority(a: AuthorityStruct) returns (r: AuthorityStruct)
    requires Shaped(a)
    ensures IsCopy(r, a) && fresh(Parts(r))
  {
    var key := CopyKey(a.key);
    var caCert := CopyKey(a.caCert);
    var policies := CopyPolicies(a.policies);
    r := AuthorityStruct(a.plain, key, caCert, policies);
    assert AttestationValues(r.plain.attestations, r.policies) == AttestationValues(a.plain.attestations, a.policies);
  }

  /** The objects of each are among the given ones, and no two share any. */
  ghost predicate Disjoint(r: seq<AuthorityStruct>, made: set<object>) {
    && (forall i | 0 <= i < |r| :: Parts(r[i]) <= made)
    && (forall i, i' :: 0 <= i < i' < |r| ==> Parts(r[i]) !! Parts(r[i']))
  }

  lemma DisjointMore(r: seq<AuthorityStruct>, made: set<object>, a: AuthorityStruct)
    requires Disjoint(r, made) && Parts(a) !! made
    ensures Disjoint(r + [a], made + Parts(a))
  {
  }

  method CopyAuthorities(authorities: seq<AuthorityStruct>) returns (r: seq<AuthorityStruct>, ghost made: set<object>)
    requires forall i | 0 <= i < |authorities| :: Shaped(authorities[i])
    ensures |r| == |authorities| && forall i | 0 <= i < |r| :: IsCopy(r[i], authorities[i])
    ensures Disjoint(r, made) && fresh(made)
  {
    r, made := [], {};
    for n := 0 to |authorities|
      invariant |r| == n && forall i | 0 <= i < n :: IsCopy(r[i], authorities[i])
      invariant Disjoint(r, made) && fresh(made)
    {
      var a := CopyAuthority(authorities[n]);
      DisjointMore(r, made, a);
      r, made := r + [a], made + Parts(a);
    }
  }

  /** Equal in value, made of new objects only, none shared. */
  method DeepCopy(o: SpecStruct) returns (r: SpecStruct, ghost made: set<object>)
    requires AllShaped(o)
    ensures Tree(r) && Within(r, made) && fresh(made) && Value(r) == Value(o) && SameShape(r, Value(o))
  {
    var authorities;
    authorities, made := CopyAuthorities(o.authorities);
    var policy := CopyPolicy(o.policy);
    r := SpecStruct(o.plain, authorities, policy);
    if policy != null {
      made := made + {policy};
    }
    assert Value(r).authorities == Value(o).authorities;
  }

  /** Both passes over the copy. */
  method InlineCopy(x: External, v: View, o: SpecStruct, ghost s: Spec, ghost made: set<object>)
    returns (e: Option<InlineError>)
    requires Tree(o) && Within(o, made) && SameShape(o, s) && Value(o) == s
    modifies made
    ensures Outcome(o, e) == Inline(x, v, s)
  {
    PlanIsInline(x, v, s);
    e := InlinePublicKeys(x, v, o, s, made);
    if e.Some? {
      KeyFailureInPlan(x, v, s);
      return;
    }
    e := InlinePolicies(x, v, o, s, made);
  }

  /**
   Compiling a policy: the result is what inlining makes of its value, in new objects; nothing that existed before
   changes, whatever the objects of the policy share.
   */
  method Compile(x: External, v: View, o: SpecStruct)
    returns (ret: SpecStruct, e: Option<InlineError>, ghost made: set<object>)
    requires AllShaped(o)
    ensures Within(ret, made) && fresh(made)
    ensures AllShaped(ret) && Outcome(ret, e) == Inline(x, v, old(Value(o)))
    ensures Value(o) == old(Value(o))
  {
    ghost var s := Value(o);
    ret, made := DeepCopy(o);
    e := InlineCopy(x, v, ret, s, made);
  }

  lemma KeyFailureInPlan(x: External, v: View, s: Spec)
    requires ExecAll(x, v, s, KeyOps(|s.authorities|)).Err?
    ensures Inline(x, v, s) == ExecAll(x, v, s, KeyOps(|s.authorities|))
  {
    FailureInPlan(x, v, s, KeyOps(|s.authorities|));
  }

  lemma PlanIsInline(x: External, v: View, s: Spec)
    ensures Inline(x, v, s) == ExecAll(x, v, s, Plan(s))
  {
    PrefixIsAll(x, v, s, |Plan(s)|);
    assert Plan(s)[..|Plan(s)|] == Plan(s);
  }
}
