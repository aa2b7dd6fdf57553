/**
 Policies that take text from the ConfigMap of compiled policies. Whether such a policy compiles depends only on the
 entries it reads being there; what it compiles into, only on those whose text no remote policy overwrites.
 */
module EntryReads {
  import opened Wrappers
  import opened V1alpha1
  import opened Inlining

  // ---------- who reads what ----------

  /** Where a spec can hold a policy. */
  datatype Place = Top | Below(i: nat, j: nat)

  function PolicyAt(spec: Spec, place: Place): Option<Policy> {
    match place
    case Top => spec.policy
    case Below(i, j) => if HasAttestationPolicy(spec, i, j) then Some(AttestationPolicy(spec, i, j)) else None
  }

  function ConfigMapOp(place: Place): Op {
    match place
    case Top => TopConfigMap
    case Below(i, j) => AttestationConfigMap(i, j)
  }

  function RemoteOp(place: Place): Op {
    match place
    case Top => TopRemote
    case Below(i, j) => AttestationRemote(i, j)
  }

  predicate ReadsEntry(p: Policy, key: string) {
    p.configMapRef.Some? && p.configMapRef.value.name == IMAGE_POLICIES && p.configMapRef.value.key == key
  }

  /** A policy at the place reads the entry; it takes its text unless a remote policy overwrites it. */
  ghost predicate ReadsAt(spec: Spec, place: Place, key: string) {
    PolicyAt(spec, place).Some? && ReadsEntry(PolicyAt(spec, place).value, key)
  }

  ghost predicate TakesAt(spec: Spec, place: Place, key: string) {
    ReadsAt(spec, place, key) && PolicyAt(spec, place).value.remote.None?
  }

  ghost predicate Reads(spec: Spec, key: string) { exists place :: ReadsAt(spec, place, key) }

  ghost predicate Takes(spec: Spec, key: string) { exists place :: TakesAt(spec, place, key) }

  predicate Supplies(v: View, key: string) {
    IMAGE_POLICIES in v.configMaps && key in v.configMaps[IMAGE_POLICIES] && v.configMaps[IMAGE_POLICIES][key] != ""
  }

  // ---------- a place before and after its visits ----------

  /** A visit changes the policy of its own place only. */
  lemma ElsewhereUntouched(x: External, v: View, spec: Spec, op: Op, place: Place)
    requires Exec(x, v, spec, op).Ok? && op != ConfigMapOp(place) && op != RemoteOp(place)
    ensures PolicyAt(Exec(x, v, spec, op).value, place) == PolicyAt(spec, place)
  {
    if op.AttestationConfigMap? || op.AttestationRemote? {
      OtherPoliciesUntouched(x, v, spec, op, place);
    }
  }

  lemma OtherPoliciesUntouched(x: External, v: View, spec: Spec, op: Op, place: Place)
    requires Exec(x, v, spec, op).Ok? && op != ConfigMapOp(place) && op != RemoteOp(place)
    requires op.AttestationConfigMap? || op.AttestationRemote?
    ensures PolicyAt(Exec(x, v, spec, op).value, place) == PolicyAt(spec, place)
  {
  }

  lemma {:induction false} AttestationRemoteFollows(i: nat, n: nat, k: nat)
    requires k < |AttestationOps(i, n)| && AttestationOps(i, n)[k].AttestationRemote?
    ensures k > 0 && AttestationOps(i, n)[k].i == i
    ensures AttestationOps(i, n)[k - 1] == AttestationConfigMap(i, AttestationOps(i, n)[k].j)
  {
    if k < |AttestationOps(i, n - 1)| {
      AttestationRemoteFollows(i, n - 1, k);
    }
  }

  lemma {:induction false} PolicyRemoteFollows(authorities: seq<Authority>, n: nat, k: nat)
    requires n <= |authorities| && k < |PolicyOps(authorities, n)| && PolicyOps(authorities, n)[k].AttestationRemote?
    ensures k > 0
    ensures var op := PolicyOps(authorities, n)[k]; PolicyOps(authorities, n)[k - 1] == AttestationConfigMap(op.i, op.j)
  {
    var before := PolicyOps(authorities, n - 1);
    if k < |before| {
      PolicyRemoteFollows(authorities, n - 1, k);
    } else {
      AttestationRemoteFollows(n - 1, |authorities[n - 1].attestations|, k - |before|);
    }
  }

  lemma {:induction false} KeyOpsOfKeys(n: nat, k: nat)
    requires k < |KeyOps(n)|
    ensures OfKeys(KeyOps(n)[k])
  {
    if k < |KeyOps(n - 1)| {
      KeyOpsOfKeys(n - 1, k);
    }
  }

  lemma {:induction false} PolicyOpsBelow(authorities: seq<Authority>, n: nat, k: nat)
    requires n <= |authorities| && k < |PolicyOps(authorities, n)|
    ensures PolicyOps(authorities, n)[k].AttestationConfigMap? || PolicyOps(authorities, n)[k].AttestationRemote?
  {
    var before := PolicyOps(authorities, n - 1);
    if k < |before| {
      PolicyOpsBelow(authorities, n - 1, k);
    } else {
      AttestationOpsBelow(n - 1, |authorities[n - 1].attestations|, k - |before|);
    }
  }

  lemma {:induction false} AttestationOpsBelow(i: nat, n: nat, k: nat)
    requires k < |AttestationOps(i, n)|
    ensures AttestationOps(i, n)[k].AttestationConfigMap? || AttestationOps(i, n)[k].AttestationRemote?
  {
    if k < |AttestationOps(i, n - 1)| {
      AttestationOpsBelow(i, n - 1, k);
    }
  }

  /** The remote policy of a place is fetched right after its ConfigMap was read. */
  lemma RemoteFollows(spec: Spec, k: nat, place: Place)
    requires k < |Plan(spec)| && Plan(spec)[k] == RemoteOp(place)
    ensures k > 0 && Plan(spec)[k - 1] == ConfigMapOp(place)
  {
    var keys, policies := KeyOps(|spec.authorities|), PolicyOps(spec.authorities, |spec.authorities|);
    if k < |keys| {
      KeyOpsOfKeys(|spec.authorities|, k);
    } else if k < |keys| + |policies| {
      PolicyOpsBelow(spec.authorities, |spec.authorities|, k - |keys|);
      PolicyRemoteFollows(spec.authorities, |spec.authorities|, k - |keys|);
    }
  }

  /** Until its ConfigMap is read, the policy of a place stays as it was written. */
  lemma {:induction false} UntouchedBefore(x: External, v: View, spec: Spec, k: nat, place: Place)
    requires k <= |Plan(spec)| && ExecPrefix(x, v, spec, k).Ok? && ConfigMapOp(place) !in Plan(spec)[..k]
    ensures PolicyAt(ExecPrefix(x, v, spec, k).value, place) == PolicyAt(spec, place)
  {
    if k > 0 {
      var op := Plan(spec)[k - 1];
      assert op in Plan(spec)[..k];
      assert forall o :: o in Plan(spec)[..k - 1] ==> o in Plan(spec)[..k];
      assert k > 1 ==> Plan(spec)[..k][k - 2] in Plan(spec)[..k];
      if op == RemoteOp(place) {
        RemoteFollows(spec, k - 1, place);
        assert false;
      }
      UntouchedBefore(x, v, spec, k - 1, place);
      ElsewhereUntouched(x, v, ExecPrefix(x, v, spec, k - 1).value, op, place);
    }
  }

  lemma PendingIsUntouched(x: External, v: View, spec: Spec, k: nat, place: Place)
    requires k <= |Plan(spec)| && ExecPrefix(x, v, spec, k).Ok?
    requires Pending(ExecPrefix(x, v, spec, k).value, ConfigMapOp(place))
    ensures PolicyAt(ExecPrefix(x, v, spec, k).value, place) == PolicyAt(spec, place)
  {
    PrefixClears(x, v, spec, k, ConfigMapOp(place));
    UntouchedBefore(x, v, spec, k, place);
  }

  lemma {:induction false} FirstVisit(ops: seq<Op>, op: Op) returns (k: nat)
    requires op in ops
    ensures k < |ops| && ops[k] == op && op !in ops[..k]
  {
    if op in ops[..|ops| - 1] {
      k := FirstVisit(ops[..|ops| - 1], op);
      assert ops[..|ops| - 1][..k] == ops[..k];
    } else {
      k := |ops| - 1;
    }
  }

  /** The visit that reads the entry: the policy before it is as written, and the visit succeeds. */
  lemma ReadingVisit(x: External, v: View, spec: Spec, place: Place, key: string) returns (k: nat)
    requires Inline(x, v, spec).Ok? && ReadsAt(spec, place, key)
    ensures k < |Plan(spec)| && Plan(spec)[k] == ConfigMapOp(place)
    ensures ExecPrefix(x, v, spec, k).Ok? && PolicyAt(ExecPrefix(x, v, spec, k).value, place) == PolicyAt(spec, place)
    ensures Exec(x, v, ExecPrefix(x, v, spec, k).value, ConfigMapOp(place)).Ok?
  {
    assert Pending(spec, ConfigMapOp(place));
    PlanComplete(spec, ConfigMapOp(place));
    k := FirstVisit(Plan(spec), ConfigMapOp(place));
    PrefixOfSuccess(x, v, spec, k, |Plan(spec)|);
    PrefixOfSuccess(x, v, spec, k + 1, |Plan(spec)|);
    UntouchedBefore(x, v, spec, k, place);
  }

  /** What compiles finds every entry it reads. */
  lemma SuccessSupplies(x: External, v: View, spec: Spec, key: string)
    requires Inline(x, v, spec).Ok? && Reads(spec, key)
    ensures Supplies(v, key)
  {
    var place :| ReadsAt(spec, place, key);
    var k := ReadingVisit(x, v, spec, place, key);
  }

  lemma FinishedUntouched(x: External, v: View, spec: Spec, op: Op, place: Place)
    requires Exec(x, v, spec, op).Ok?
    requires var p := PolicyAt(spec, place); p.Some? && p.value.configMapRef.None? && p.value.remote.None?
    ensures PolicyAt(Exec(x, v, spec, op).value, place) == PolicyAt(spec, place)
  {
    if op != ConfigMapOp(place) && op != RemoteOp(place) {
      ElsewhereUntouched(x, v, spec, op, place);
    }
  }

  lemma {:induction false} FinishedStays(x: External, v: View, spec: Spec, k: nat, n: nat, place: Place)
    requires k <= n <= |Plan(spec)| && ExecPrefix(x, v, spec, n).Ok? && ExecPrefix(x, v, spec, k).Ok?
    requires var p := PolicyAt(ExecPrefix(x, v, spec, k).value, place);
      p.Some? && p.value.configMapRef.None? && p.value.remote.None?
    ensures PolicyAt(ExecPrefix(x, v, spec, n).value, place) == PolicyAt(ExecPrefix(x, v, spec, k).value, place)
    decreases n
  {
    if k < n {
      PrefixOfSuccess(x, v, spec, n - 1, n);
      FinishedStays(x, v, spec, k, n - 1, place);
      FinishedUntouched(x, v, ExecPrefix(x, v, spec, n - 1).value, Plan(spec)[n - 1], place);
    }
  }

  lemma TakenAtOnce(x: External, v: View, spec: Spec, place: Place, key: string)
    requires TakesAt(spec, place, key) && Exec(x, v, spec, ConfigMapOp(place)).Ok?
    ensures Supplies(v, key)
    ensures PolicyAt(Exec(x, v, spec, ConfigMapOp(place)).value, place) ==
      Some(PolicyAt(spec, place).value.(data := v.configMaps[IMAGE_POLICIES][key], configMapRef := None))
  {
  }

  /** The text of an entry that is taken is part of what is compiled. */
  lemma TakenText(x: External, v: View, spec: Spec, place: Place, key: string)
    requires Inline(x, v, spec).Ok? && TakesAt(spec, place, key)
    ensures Supplies(v, key)
    ensures var p := PolicyAt(Inline(x, v, spec).value, place);
      p.Some? && p.value.data == v.configMaps[IMAGE_POLICIES][key]
  {
    var k := ReadingVisit(x, v, spec, place, key);
    TakenAtOnce(x, v, ExecPrefix(x, v, spec, k).value, place, key);
    FinishedStays(x, v, spec, k + 1, |Plan(spec)|, place);
  }

  // ---------- specs that differ in policy texts ----------

  /** The text is ignored everywhere, or only where a remote policy is still going to overwrite it. */
  function Blank(all: bool, p: Policy): Policy { if all || p.remote.Some? then p.(data := "") else p }

  predicate LikePolicy(all: bool, p: Option<Policy>, q: Option<Policy>) {
    (p.None? && q.None?) || (p.Some? && q.Some? && Blank(all, p.value) == Blank(all, q.value))
  }

  predicate LikeAttestation(all: bool, a: Attestation, b: Attestation) {
    a.name == b.name && a.predicateType == b.predicateType && LikePolicy(all, a.policy, b.policy)
  }

  predicate LikeAuthority(all: bool, a: Authority, b: Authority) {
    && a == b.(attestations := a.attestations) && |a.attestations| == |b.attestations|
    && forall j | 0 <= j < |a.attestations| :: LikeAttestation(all, a.attestations[j], b.attestations[j])
  }

  predicate Like(all: bool, p: Spec, q: Spec) {
    && p == q.(authorities := p.authorities, policy := p.policy)
    && LikePolicy(all, p.policy, q.policy)
    && |p.authorities| == |q.authorities|
    && forall i | 0 <= i < |p.authorities| :: LikeAuthority(all, p.authorities[i], q.authorities[i])
  }

  lemma LikeItself(all: bool, p: Spec)
    ensures Like(all, p, p)
  {
  }

  lemma LikeThrough(all: bool, p: Spec, q: Spec, r: Spec)
    requires Like(all, p, q) && Like(all, q, r)
    ensures Like(all, p, r) && Like(all, q, p)
  {
  }

  /** Where no remote policy is pending, specs that are alike are the same. */
  lemma LikeIsSame(p: Spec, q: Spec)
    requires Like(false, p, q) && forall place :: !Pending(p, RemoteOp(place))
    ensures p == q
  {
    assert !Pending(p, RemoteOp(Top));
    forall i | 0 <= i < |p.authorities| ensures p.authorities[i] == q.authorities[i] {
      assert LikeAuthority(false, p.authorities[i], q.authorities[i]);
      forall j | 0 <= j < |p.authorities[i].attestations|
        ensures p.authorities[i].attestations[j] == q.authorities[i].attestations[j]
      {
        assert !Pending(p, RemoteOp(Below(i, j)));
        assert LikeAttestation(false, p.authorities[i].attestations[j], q.authorities[i].attestations[j]);
      }
      assert p.authorities[i].attestations == q.authorities[i].attestations;
    }
    assert p.authorities == q.authorities;
  }

  /** Views that differ in the compiled policies at most. */
  ghost predicate SameOutside(v: View, w: View) {
    v.secrets == w.secrets && forall n | n != IMAGE_POLICIES ::
      Lookup(v, ConfigMapNamed(n)) == Lookup(w, ConfigMapNamed(n))
  }

  /** The entry that a policy reads, if it reads one, is there in both views, and is the same if its text counts. */
  ghost predicate Backs(all: bool, v: View, w: View, p: Policy) {
    forall key :: ReadsEntry(p, key) ==>
      && Supplies(v, key) && Supplies(w, key)
      && (!all && p.remote.None? ==> v.configMaps[IMAGE_POLICIES][key] == w.configMaps[IMAGE_POLICIES][key])
  }

  lemma InlineConfigMapLike(all: bool, v: View, w: View, p: Policy, q: Policy)
    requires SameOutside(v, w) && Blank(all, p) == Blank(all, q) && p.configMapRef.Some? && Backs(all, v, w, p)
    ensures var ref := ConfigMapNamed(p.configMapRef.value.name);
      var a, b := InlineConfigMap(Lookup(v, ref), p), InlineConfigMap(Lookup(w, ref), q);
      (a.Ok? <==> b.Ok?) && (a.Ok? ==> Blank(all, a.value) == Blank(all, b.value))
  {
    var key := p.configMapRef.value.key;
    assert p.configMapRef == q.configMapRef;
    if p.configMapRef.value.name == IMAGE_POLICIES {
      assert ReadsEntry(p, key);
    }
  }

  lemma InlineRemoteLike(all: bool, x: External, p: Policy, q: Policy)
    requires Blank(all, p) == Blank(all, q) && p.remote.Some?
    ensures q.remote.Some?
    ensures var a, b := InlineRemote(x, p), InlineRemote(x, q);
      (a.Ok? <==> b.Ok?) && (a.Ok? ==> Blank(all, a.value) == Blank(all, b.value))
  {
  }

  lemma WithAttestationPolicyLike(all: bool, p: Spec, q: Spec, i: nat, j: nat, a: Policy, b: Policy)
    requires Like(all, p, q) && HasAttestationPolicy(p, i, j) && Blank(all, a) == Blank(all, b)
    ensures HasAttestationPolicy(q, i, j)
    ensures Like(all, WithAttestationPolicy(p, i, j, a), WithAttestationPolicy(q, i, j, b))
  {
    assert LikeAuthority(all, p.authorities[i], q.authorities[i]);
    assert LikeAttestation(all, p.authorities[i].attestations[j], q.authorities[i].attestations[j]);
  }

  /** The visit reads nothing, or what it reads backs both sides. */
  ghost predicate Backed(all: bool, v: View, w: View, p: Spec, op: Op) {
    forall place | ConfigMapOp(place) == op :: Pending(p, op) ==> Backs(all, v, w, PolicyAt(p, place).value)
  }

  lemma WithKeyLike(all: bool, p: Spec, q: Spec, i: nat, key: KeyRef)
    requires Like(all, p, q) && HasKey(p, i)
    ensures HasKey(q, i) && q.authorities[i].key == p.authorities[i].key
    ensures Like(all, WithKey(p, i, key), WithKey(q, i, key))
  {
    assert LikeAuthority(all, p.authorities[i], q.authorities[i]);
  }

  lemma WithCaCertLike(all: bool, p: Spec, q: Spec, i: nat, key: KeyRef)
    requires Like(all, p, q) && HasCaCert(p, i)
    ensures HasCaCert(q, i) && q.authorities[i].keyless == p.authorities[i].keyless
    ensures Like(all, WithCaCert(p, i, key), WithCaCert(q, i, key))
  {
    assert LikeAuthority(all, p.authorities[i], q.authorities[i]);
  }

  lemma KeyVisitLike(x: External, all: bool, v: View, w: View, p: Spec, q: Spec, op: Op)
    requires Like(all, p, q) && v.secrets == w.secrets && OfKeys(op)
    ensures Exec(x, v, p, op).Ok? <==> Exec(x, w, q, op).Ok?
    ensures Exec(x, v, p, op).Ok? ==> Like(all, Exec(x, v, p, op).value, Exec(x, w, q, op).value)
  {
    if op.i < |p.authorities| {
      assert LikeAuthority(all, p.authorities[op.i], q.authorities[op.i]);
    }
    assert Pending(p, op) <==> Pending(q, op);
    if Pending(p, op) && Exec(x, v, p, op).Ok? {
      var a := Exec(x, v, p, op).value.authorities[op.i];
      if op.CaCertSecret? {
        WithCaCertLike(all, p, q, op.i, a.keyless.value.caCert.value);
      } else {
        WithKeyLike(all, p, q, op.i, a.key.value);
      }
    }
  }

  lemma BelowVisitLike(x: External, all: bool, v: View, w: View, p: Spec, q: Spec, op: Op)
    requires Like(all, p, q) && SameOutside(v, w) && (op.AttestationConfigMap? || op.AttestationRemote?)
    requires Backed(all, v, w, p, op)
    ensures Exec(x, v, p, op).Ok? <==> Exec(x, w, q, op).Ok?
    ensures Exec(x, v, p, op).Ok? ==> Like(all, Exec(x, v, p, op).value, Exec(x, w, q, op).value)
  {
    var place := Below(op.i, op.j);
    if op.i < |p.authorities| {
      assert LikeAuthority(all, p.authorities[op.i], q.authorities[op.i]);
      if op.j < |p.authorities[op.i].attestations| {
        assert LikeAttestation(all, p.authorities[op.i].attestations[op.j], q.authorities[op.i].attestations[op.j]);
      }
    }
    if Pending(p, op) {
      var a, b := AttestationPolicy(p, op.i, op.j), AttestationPolicy(q, op.i, op.j);
      if op.AttestationConfigMap? {
        assert ConfigMapOp(place) == op;
        InlineConfigMapLike(all, v, w, a, b);
      } else {
        InlineRemoteLike(all, x, a, b);
      }
      if Exec(x, v, p, op).Ok? {
        WithAttestationPolicyLike(all, p, q, op.i, op.j, AttestationPolicy(Exec(x, v, p, op).value, op.i, op.j),
                                  AttestationPolicy(Exec(x, w, q, op).value, op.i, op.j));
      }
    }
  }

  lemma TopVisitLike(x: External, all: bool, v: View, w: View, p: Spec, q: Spec, op: Op)
    requires Like(all, p, q) && SameOutside(v, w) && (op.TopConfigMap? || op.TopRemote?)
    requires Backed(all, v, w, p, op)
    ensures Exec(x, v, p, op).Ok? <==> Exec(x, w, q, op).Ok?
    ensures Exec(x, v, p, op).Ok? ==> Like(all, Exec(x, v, p, op).value, Exec(x, w, q, op).value)
  {
    if Pending(p, op) {
      if op.TopConfigMap? {
        assert ConfigMapOp(Top) == op;
        InlineConfigMapLike(all, v, w, p.policy.value, q.policy.value);
      } else {
        InlineRemoteLike(all, x, p.policy.value, q.policy.value);
      }
    }
  }

  /** Alike in, alike out. */
  lemma VisitLike(x: External, all: bool, v: View, w: View, p: Spec, q: Spec, op: Op)
    requires Like(all, p, q) && SameOutside(v, w) && Backed(all, v, w, p, op)
    ensures Exec(x, v, p, op).Ok? <==> Exec(x, w, q, op).Ok?
    ensures Exec(x, v, p, op).Ok? ==> Like(all, Exec(x, v, p, op).value, Exec(x, w, q, op).value)
  {
    if OfKeys(op) {
      KeyVisitLike(x, all, v, w, p, q, op);
    } else if op.TopConfigMap? || op.TopRemote? {
      TopVisitLike(x, all, v, w, p, q, op);
    } else {
      BelowVisitLike(x, all, v, w, p, q, op);
    }
  }

  // ---------- compiling under two views ----------

  /** Every entry the spec reads is there in both views, and, unless texts do not matter, the same where it is taken. */
  ghost predicate Feeds(all: bool, v: View, w: View, spec: Spec) {
    forall key :: Reads(spec, key) ==>
      && Supplies(v, key) && Supplies(w, key)
      && (!all && Takes(spec, key) ==> v.configMaps[IMAGE_POLICIES][key] == w.configMaps[IMAGE_POLICIES][key])
  }

  lemma FedVisitBacked(x: External, all: bool, v: View, w: View, spec: Spec, k: nat, op: Op)
    requires Feeds(all, v, w, spec) && k <= |Plan(spec)| && ExecPrefix(x, v, spec, k).Ok?
    ensures Backed(all, v, w, ExecPrefix(x, v, spec, k).value, op)
  {
    var partial := ExecPrefix(x, v, spec, k).value;
    forall place | ConfigMapOp(place) == op && Pending(partial, op)
      ensures Backs(all, v, w, PolicyAt(partial, place).value)
    {
      PendingIsUntouched(x, v, spec, k, place);
      var p := PolicyAt(spec, place).value;
      forall key | ReadsEntry(p, key) ensures Reads(spec, key) && (p.remote.None? ==> Takes(spec, key)) {
        assert ReadsAt(spec, place, key);
        assert p.remote.None? ==> TakesAt(spec, place, key);
      }
    }
  }

  /** After the same visits the two are alike, and one side fails only if the other does. */
  lemma {:induction false} PrefixLike(x: External, all: bool, v: View, w: View, spec: Spec, k: nat)
    requires k <= |Plan(spec)| && SameOutside(v, w) && Feeds(all, v, w, spec)
    ensures ExecPrefix(x, v, spec, k).Ok? <==> ExecPrefix(x, w, spec, k).Ok?
    ensures ExecPrefix(x, v, spec, k).Ok? ==>
      Like(all, ExecPrefix(x, v, spec, k).value, ExecPrefix(x, w, spec, k).value)
  {
    if k == 0 {
      LikeItself(all, spec);
    } else {
      PrefixLike(x, all, v, w, spec, k - 1);
      if ExecPrefix(x, v, spec, k - 1).Ok? {
        FedVisitBacked(x, all, v, w, spec, k - 1, Plan(spec)[k - 1]);
        VisitLike(x, all, v, w, ExecPrefix(x, v, spec, k - 1).value, ExecPrefix(x, w, spec, k - 1).value,
          Plan(spec)[k - 1]);
      }
    }
  }

  /** The next visit of a copy that is alike succeeds if the whole compilation does, and stays alike. */
  lemma NextVisitLike(x: External, all: bool, v: View, spec: Spec, k: nat, partial: Spec)
    requires k < |Plan(spec)| && Inline(x, v, spec).Ok?
    requires ExecPrefix(x, v, spec, k).Ok? && Like(all, ExecPrefix(x, v, spec, k).value, partial)
    ensures var op := Plan(spec)[k];
      && Exec(x, v, partial, op).Ok? && ExecPrefix(x, v, spec, k + 1).Ok?
      && Like(all, ExecPrefix(x, v, spec, k + 1).value, Exec(x, v, partial, op).value)
  {
    PrefixOfSuccess(x, v, spec, k + 1, |Plan(spec)|);
    FedByItself(x, all, v, spec);
    FedVisitBacked(x, all, v, v, spec, k, Plan(spec)[k]);
    VisitLike(x, all, v, v, ExecPrefix(x, v, spec, k).value, partial, Plan(spec)[k]);
  }

  lemma FedByItself(x: External, all: bool, v: View, spec: Spec)
    requires Inline(x, v, spec).Ok?
    ensures Feeds(all, v, v, spec)
  {
    forall key | Reads(spec, key) ensures Supplies(v, key) {
      SuccessSupplies(x, v, spec, key);
    }
  }

  /** A finished copy that is alike is the compilation. */
  lemma FinishedIsSame(x: External, v: View, spec: Spec, partial: Spec)
    requires Inline(x, v, spec).Ok? && Like(false, Inline(x, v, spec).value, partial)
    ensures Inline(x, v, spec).value == partial
  {
    forall place ensures !Pending(Inline(x, v, spec).value, RemoteOp(place)) {
      InlineComplete(x, v, spec, RemoteOp(place));
    }
    LikeIsSame(Inline(x, v, spec).value, partial);
  }

  /** Fed by two views, a spec compiles under both or neither, and into the same where taken texts agree. */
  lemma SameCompilation(x: External, v: View, w: View, spec: Spec)
    requires SameOutside(v, w) && Feeds(false, v, w, spec) && Inline(x, v, spec).Ok?
    ensures Inline(x, w, spec) == Inline(x, v, spec)
  {
    PrefixLike(x, false, v, w, spec, |Plan(spec)|);
    FinishedIsSame(x, v, spec, Inline(x, w, spec).value);
  }
}
