/**
 Conversion between v1alpha1 and v1beta1, and defaulting. The two versions declare the same fields, so one set of
 datatypes stands for both; what the versions' own copying code does to a value is what is modelled.
 */
module Conversion {
  import opened Wrappers
  import opened V1alpha1

  // ---------- what conversion keeps ----------

  /** A transparency log without a URL and a timestamp without a trust root are dropped. */
  predicate Droppable(a: Authority) {
    (a.ctlog.Some? && a.ctlog.value.url.None?) ||
      (a.rfc3161Timestamp.Some? && a.rfc3161Timestamp.value.trustRootRef == "")
  }

  function NormaliseAuthority(a: Authority): Authority {
    a.(ctlog := if a.ctlog.Some? && a.ctlog.value.url.None? then None else a.ctlog,
       rfc3161Timestamp := if a.rfc3161Timestamp == Some(RFC3161Timestamp("")) then None else a.rfc3161Timestamp)
  }

  function NormaliseAll(authorities: seq<Authority>): (r: seq<Authority>)
    ensures |r| == |authorities| && forall i | 0 <= i < |r| :: r[i] == NormaliseAuthority(authorities[i])
  {
    seq(|authorities|, i requires 0 <= i < |authorities| => NormaliseAuthority(authorities[i]))
  }

  function Normalise(s: Spec): Spec { s.(authorities := NormaliseAll(s.authorities)) }

  const EMPTY := Spec([], [], None, "", [])

  /**
   Conversion adds to what the sink holds: lists grow, a policy replaces only if there is one, the mode is overwritten.
   */
  function Onto(sink: Spec, s: Spec): Spec {
    Spec(sink.images + s.images, sink.authorities + s.authorities, if s.policy.Some? then s.policy else sink.policy,
         s.mode, sink.matches + s.matches)
  }

  // ---------- the copying code ----------

  method ConvertSources(sources: seq<Source>) returns (r: seq<Source>)
    ensures r == sources
  {
    r := [];
    for i := 0 to |sources|
      invariant r == sources[..i]
    {
      var secrets := [];
      for j := 0 to |sources[i].signaturePullSecrets|
        invariant secrets == sources[i].signaturePullSecrets[..j]
      {
        secrets := secrets + [sources[i].signaturePullSecrets[j]];
      }
      assert secrets == sources[i].signaturePullSecrets;
      r := r + [Source(sources[i].oci, secrets, sources[i].tagPrefix)];
    }
  }

  method ConvertPolicy(p: Policy) returns (sink: Policy)
    ensures sink == p
  {
    sink := Policy(p.kind, p.data, None, None, None, None, None, None);
    if p.remote.Some? {
      sink := sink.(remote := Some(RemotePolicy(p.remote.value.url, p.remote.value.sha256sum)));
    }
    if p.configMapRef.Some? {
      var c := p.configMapRef.value;
      sink := sink.(configMapRef := Some(ConfigMapReference(c.name, c.namespace, c.key)));
    }
    if p.fetchConfigFile.Some? {
      sink := sink.(fetchConfigFile := Some(p.fetchConfigFile.value));
    }
    if p.includeSpec.Some? {
      sink := sink.(includeSpec := Some(p.includeSpec.value));
    }
    if p.includeObjectMeta.Some? {
      sink := sink.(includeObjectMeta := Some(p.includeObjectMeta.value));
    }
    if p.includeTypeMeta.Some? {
      sink := sink.(includeTypeMeta := Some(p.includeTypeMeta.value));
    }
  }

  method ConvertAttestations(attestations: seq<Attestation>) returns (r: seq<Attestation>)
    ensures r == attestations
  {
    r := [];
    for i := 0 to |attestations|
      invariant r == attestations[..i]
    {
      var att := Attestation(attestations[i].name, attestations[i].predicateType, None);
      if attestations[i].policy.Some? {
        var p := ConvertPolicy(attestations[i].policy.value);
        att := att.(policy := Some(p));
      }
      r := r + [att];
    }
  }

  method ConvertKeyless(k: KeylessRef) returns (sink: KeylessRef)
    ensures sink == k
  {
    var identities := [];
    for i := 0 to |k.identities|
      invariant identities == k.identities[..i]
    {
      var id := k.identities[i];
      identities := identities + [Identity(id.issuer, id.subject, id.issuerRegExp, id.subjectRegExp)];
    }
    sink := KeylessRef(k.url, identities, None, k.trustRootRef, None);
    if k.caCert.Some? {
      sink := sink.(caCert := Some(k.caCert.value));
    }
    if k.insecureIgnoreSCT.Some? {
      sink := sink.(insecureIgnoreSCT := k.insecureIgnoreSCT);
    }
  }

  method ConvertAuthority(a: Authority) returns (sink: Authority)
    ensures sink == NormaliseAuthority(a)
  {
    var sources := ConvertSources(a.sources);
    var attestations := ConvertAttestations(a.attestations);
    sink := Authority(a.name, None, None, None, sources, None, attestations, None, None, a.signatureFormat);
    if a.ctlog.Some? && a.ctlog.value.url.Some? {
      sink := sink.(ctlog := Some(TLog(a.ctlog.value.url, a.ctlog.value.trustRootRef)));
    }
    if a.rfc3161Timestamp.Some? && a.rfc3161Timestamp.value.trustRootRef != "" {
      sink := sink.(rfc3161Timestamp := Some(RFC3161Timestamp(a.rfc3161Timestamp.value.trustRootRef)));
    }
    if a.key.Some? {
      var k := a.key.value;
      sink := sink.(key := Some(KeyRef(k.secretRef, k.data, k.kms, k.hashAlgorithm)));
    }
    if a.keyless.Some? {
      var keyless := ConvertKeyless(a.keyless.value);
      sink := sink.(keyless := Some(keyless));
    }
    if a.staticRef.Some? {
      sink := sink.(staticRef := Some(StaticRef(a.staticRef.value.action, a.staticRef.value.message)));
    }
    if a.gmSignature.Some? {
      var g := a.gmSignature.value;
      sink := sink.(gmSignature := Some(GMSignatureRef(g.verifyUrl, g.tenantId,
        GMSignerRef(g.signer.appId, g.signer.nodeId, g.signer.userId), g.requestTimeoutMs)));
    }
  }

  /** The decimal digits of a number. */
  function Decimal(n: nat): string { (if n < 10 then "" else Decimal(n / 10)) + [(n % 10 + 48) as char] }

  function DefaultName(i: nat): string { "authority-" + Decimal(i) }

  /** Keyless, with neither an address nor a CA certificate. */
  predicate Unlocated(k: Option<KeylessRef>) { k.Some? && k.value.caCert.None? && k.value.url.None? }

  function DefaultedAuthority(a: Authority, i: nat): Authority {
    var named := if a.name == "" then a.(name := DefaultName(i)) else a;
    if named.key.None? && named.staticRef.None? && Unlocated(named.keyless) then
      named.(keyless := Some(named.keyless.value.(url := Some("https://fulcio.sigstore.dev"))))
    else named
  }

  function DefaultedAll(authorities: seq<Authority>): (r: seq<Authority>)
    ensures |r| == |authorities| && forall i | 0 <= i < |r| :: r[i] == DefaultedAuthority(authorities[i], i)
  {
    seq(|authorities|, i requires 0 <= i < |authorities| => DefaultedAuthority(authorities[i], i))
  }

  function Defaulted(s: Spec): Spec {
    s.(mode := if s.mode == "" then "enforce" else s.mode, authorities := DefaultedAll(s.authorities))
  }

  /** A policy's spec as an object of either version. */
  class SpecObject {
    var images: seq<ImagePattern>
    var authorities: seq<Authority>
    var policy: Option<Policy>
    var mode: string
    var matches: seq<MatchResource>

    constructor ()
      ensures Value() == EMPTY
    {
      images, authorities, policy, mode, matches := [], [], None, "", [];
    }

    ghost function Value(): Spec
      reads this
    {
      Spec(images, authorities, policy, mode, matches)
    }

    /** Copies this v1alpha1 spec onto a v1beta1 one, which need not be empty. */
    method ConvertTo(sink: SpecObject)
      requires sink != this
      modifies sink
      ensures sink.Value() == Onto(old(sink.Value()), Normalise(Value()))
    {
      for i := 0 to |images|
        invariant sink.Value() == old(sink.Value()).(images := old(sink.images) + images[..i])
      {
        sink.images := sink.images + [ImagePattern(images[i].glob)];
      }
      ghost var was := sink.Value();
      for i := 0 to |authorities|
        invariant sink.Value() == was.(authorities := was.authorities + NormaliseAll(authorities)[..i])
      {
        var authority := ConvertAuthority(authorities[i]);
        sink.authorities := sink.authorities + [authority];
      }
      was := sink.Value();
      for i := 0 to |matches|
        invariant sink.Value() == was.(matches := was.matches + matches[..i])
      {
        sink.matches := sink.matches + [MatchResource(matches[i].group, matches[i].version, matches[i].resource,
          matches[i].selector)];
      }
      if policy.Some? {
        var p := ConvertPolicy(policy.value);
        sink.policy := Some(p);
      }
      sink.mode := mode;
    }

    /** Copies a v1beta1 spec onto this v1alpha1 one. */
    method ConvertFrom(source: SpecObject)
      requires source != this
      modifies this
      ensures Value() == Onto(old(Value()), Normalise(source.Value()))
    {
      for i := 0 to |source.images|
        invariant Value() == old(Value()).(images := old(images) + source.images[..i])
      {
        images := images + [ImagePattern(source.images[i].glob)];
      }
      ghost var was := Value();
      for i := 0 to |source.authorities|
        invariant Value() == was.(authorities := was.authorities + NormaliseAll(source.authorities)[..i])
      {
        var authority := ConvertAuthority(source.authorities[i]);
        authorities := authorities + [authority];
      }
      was := Value();
      for i := 0 to |source.matches|
        invariant Value() == was.(matches := was.matches + source.matches[..i])
      {
        var m := source.matches[i];
        matches := matches + [MatchResource(m.group, m.version, m.resource, m.selector)];
      }
      mode := source.mode;
      if source.policy.Some? {
        var p := ConvertPolicy(source.policy.value);
        policy := Some(p);
      }
    }

    method SetDefaults()
      modifies this
      ensures Value() == Defaulted(old(Value()))
    {
      if mode == "" {
        mode := "enforce";
      }
      for i := 0 to |authorities|
        invariant |authorities| == |old(authorities)|
        invariant Value() == old(Value()).(mode := Defaulted(old(Value())).mode, authorities := authorities)
        invariant forall j | 0 <= j < i :: authorities[j] == DefaultedAuthority(old(authorities)[j], j)
        invariant forall j | i <= j < |authorities| :: authorities[j] == old(authorities)[j]
      {
        var authority := authorities[i];
        if authority.name == "" {
          authorities := authorities[i := authorities[i].(name := DefaultName(i))];
        }
        if authority.key.None? && authority.staticRef.None? && Unlocated(authority.keyless) {
          authorities := authorities[i :=
            authorities[i].(keyless := Some(authority.keyless.value.(url := Some("https://fulcio.sigstore.dev"))))];
        }
      }
      assert authorities == DefaultedAll(old(authorities));
    }
  }

  // ---------- laws ----------

  /**
   There and back, in empty objects, is one normalisation, and it changes exactly the specs with something to drop.
   */
  lemma RoundTrip(s: Spec)
    ensures var there := Onto(EMPTY, Normalise(s)); Onto(EMPTY, Normalise(there)) == there == Normalise(s)
    ensures Normalise(s) == s <==> forall i | 0 <= i < |s.authorities| :: !Droppable(s.authorities[i])
  {
  }

  /** Each of the two droppable parts goes by itself, and nothing else does. */
  lemma NormaliseKeeps(a: Authority)
    ensures var b := NormaliseAuthority(a);
      && b.name == a.name && b.key == a.key && b.keyless == a.keyless && b.staticRef == a.staticRef
      && b.sources == a.sources && b.attestations == a.attestations && b.gmSignature == a.gmSignature
      && b.signatureFormat == a.signatureFormat
      && (b.ctlog.None? <==> a.ctlog.None? || a.ctlog.value.url.None?)
      && (b.ctlog.Some? ==> b.ctlog == a.ctlog)
      && (b.rfc3161Timestamp.None? <==> a.rfc3161Timestamp.None? || |a.rfc3161Timestamp.value.trustRootRef| == 0)
      && (b.rfc3161Timestamp.Some? ==> b.rfc3161Timestamp == a.rfc3161Timestamp)
  {
  }

  /** What a sink held comes first and is kept, but for the mode and for a policy that is there to replace it. */
  lemma SinkKeeps(sink: Spec, s: Spec)
    ensures var t := Onto(sink, s);
      && |t.images| == |sink.images| + |s.images| && sink.images <= t.images
      && t.images[|sink.images|..] == s.images
      && |t.authorities| == |sink.authorities| + |s.authorities| && sink.authorities <= t.authorities
      && t.authorities[|sink.authorities|..] == s.authorities
      && |t.matches| == |sink.matches| + |s.matches| && sink.matches <= t.matches
      && t.matches[|sink.matches|..] == s.matches
      && t.mode == s.mode
      && (s.policy.Some? ==> t.policy == s.policy) && (s.policy.None? ==> t.policy == sink.policy)
  {
  }

  /** The number that the digits stand for. */
  function Reads(digits: string): int {
    if digits == "" then 0 else
    10 * Reads(digits[..|digits| - 1]) + (digits[|digits| - 1] as int - '0' as int)
  }

  lemma {:induction false} DecimalReads(n: nat)
    ensures Reads(Decimal(n)) == n
  {
    var last := [(n % 10 + 48) as char];
    if n >= 10 {
      DecimalReads(n / 10);
      assert Decimal(n) == Decimal(n / 10) + last;
      ReadsOneMore(Decimal(n / 10), last[0]);
    } else {
      ReadsOneMore("", last[0]);
      assert Decimal(n) == "" + last;
    }
  }

  lemma ReadsOneMore(digits: string, d: char)
    ensures Reads(digits + [d]) == 10 * Reads(digits) + (d as int - '0' as int)
  {
    assert (digits + [d])[..|digits|] == digits;
  }

  lemma {:induction false} NoLeadingZero(n: nat)
    ensures |Decimal(n)| > 0 && (n > 0 ==> Decimal(n)[0] != '0')
  {
    if n >= 10 {
      NoLeadingZero(n / 10);
      assert Decimal(n)[0] == Decimal(n / 10)[0];
    }
  }

  predicate IsNumbered(name: string, i: nat) {
    && |name| > 10 && name[..10] == "authority-" && Reads(name[10..]) == i
    && (i > 0 ==> name[10] != '0')
  }

  /** Keyless, of no other kind, and without an address or a CA certificate. */
  predicate Homeless(a: Authority) {
    a.keyless.Some? && a.keyless.value.url.None? && a.keyless.value.caCert.None? && a.key.None? && a.staticRef.None?
  }

  /** A missing name is given by position and a homeless authority gets the address of the public Fulcio. */
  ghost predicate AuthorityDefaults(a: Authority, i: nat, b: Authority) {
    && b == a.(name := b.name, keyless := b.keyless)
    && (a.name != "" ==> b.name == a.name)
    && (a.name == "" ==> IsNumbered(b.name, i))
    && (!Homeless(a) ==> b.keyless == a.keyless)
    && (Homeless(a) ==> b.keyless == Some(a.keyless.value.(url := Some("https://fulcio.sigstore.dev"))))
  }

  lemma AuthorityDefaultsAre(a: Authority, i: nat)
    ensures AuthorityDefaults(a, i, DefaultedAuthority(a, i))
  {
    hide Decimal, Reads;
    DecimalReads(i);
    NoLeadingZero(i);
    assert DefaultName(i)[10..] == Decimal(i);
  }

  /** Defaulting sets a missing mode and each authority's missing name and address; nothing else. */
  lemma DefaultsAre(s: Spec)
    ensures var d := Defaulted(s);
      && d == s.(mode := d.mode, authorities := d.authorities)
      && d.mode == (if |s.mode| == 0 then "enforce" else s.mode)
      && |d.authorities| == |s.authorities|
      && forall i | 0 <= i < |s.authorities| :: AuthorityDefaults(s.authorities[i], i, d.authorities[i])
  {
    hide AuthorityDefaults, DefaultedAuthority;
    forall i | 0 <= i < |s.authorities|
      ensures AuthorityDefaults(s.authorities[i], i, DefaultedAuthority(s.authorities[i], i))
    {
      AuthorityDefaultsAre(s.authorities[i], i);
    }
  }

  /** Defaulting before or after conversion gives the same, and defaulting again changes nothing. */
  lemma DefaultsCommute(s: Spec)
    ensures Normalise(Defaulted(s)) == Defaulted(Normalise(s))
    ensures Defaulted(Defaulted(s)) == Defaulted(s)
  {
  }

  /** A spec that came through both versions in objects. */
  method ThereAndBack(alpha: SpecObject) returns (back: SpecObject)
    ensures fresh(back) && back.Value() == Normalise(alpha.Value())
  {
    var beta := new SpecObject();
    alpha.ConvertTo(beta);
    back := new SpecObject();
    back.ConvertFrom(beta);
    RoundTrip(alpha.Value());
  }

  // ---------- names ----------

  lemma {:induction false} DecimalInjective(m: nat, n: nat)
    requires Decimal(m) == Decimal(n)
    ensures m == n
  {
    var x, y := Decimal(m), Decimal(n);
    assert x[|x| - 1] == y[|y| - 1];
    assert m % 10 == n % 10;
    DecimalNonEmpty(m / 10);
    DecimalNonEmpty(n / 10);
    if m >= 10 && n >= 10 {
      assert Decimal(m / 10) == x[..|x| - 1] && Decimal(n / 10) == y[..|y| - 1];
      DecimalInjective(m / 10, n / 10);
    } else {
      assert |x| == |y|;
    }
  }

  lemma DecimalNonEmpty(n: nat)
    ensures |Decimal(n)| > 0
  {
  }

  predicate DistinctNames(authorities: seq<Authority>) {
    forall i, j :: 0 <= i < j < |authorities| ==> authorities[i].name != authorities[j].name
  }

  /** Default names never clash with each other: only names given twice, or a given name that is another's default. */
  lemma DefaultNamesDistinct(authorities: seq<Authority>)
    ensures DistinctNames(DefaultedAll(authorities)) <==>
      && (forall i, j :: 0 <= i < j < |authorities| && authorities[i].name != "" ==>
           authorities[i].name != authorities[j].name)
      && (forall i, j :: 0 <= i < |authorities| && 0 <= j < |authorities| && authorities[j].name == "" ==>
           authorities[i].name != DefaultName(j))
  {
    var named := DefaultedAll(authorities);
    forall i, j | 0 <= i < j < |authorities| && authorities[i].name == "" && authorities[j].name == ""
      ensures named[i].name != named[j].name
    {
      if DefaultName(i) == DefaultName(j) {
        assert Decimal(i) == DefaultName(i)[10..] && Decimal(j) == DefaultName(j)[10..];
        DecimalInjective(i, j);
      }
    }
    assert forall i | 0 <= i < |authorities| ::
      named[i].name == if authorities[i].name == "" then DefaultName(i) else authorities[i].name;
  }
}
