/**
 Validation of a policy's spec, the same in both versions: diagnostics are collected over every field, and the spec is
 refused if an error is among them. Which strings are well-formed keys, addresses and so on is left open, but for globs,
 which are compiled.
 */
module Validation {
  import opened Wrappers
  import opened V1alpha1
  import opened FieldErrors
  import opened Glob
  import opened Conversion

  datatype Rules = Rules(
    failOnEmptyAuthorities: bool,
    systemNamespace: string,
    validResourceNames: set<string>,
    filepathOk: string -> bool,
    keyOk: string -> bool,
    hashOk: string -> bool,
    kmsOk: string -> bool,
    ociOk: string -> bool,
    regexOk: string -> bool,
    uriOk: string -> bool,
    remoteOk: string -> bool)

  const VALID_PREDICATE_TYPES := {"custom", "slsaprovenance", "spdx", "spdxjson", "cyclonedx", "link", "vuln"}

  // ---------- what is valid ----------

  function Count(b: bool): nat { if b then 1 else 0 }

  /** A key is given in exactly one way, and a secret is in the controller's own namespace. */
  predicate ValidKey(r: Rules, k: KeyRef) {
    && Count(k.data != "") + Count(k.kms != "") + Count(k.secretRef.Some?) == 1
    && (k.data == "" || r.keyOk(k.data)) && (k.kms == "" || r.kmsOk(k.kms))
    && (k.hashAlgorithm == "" || r.hashOk(k.hashAlgorithm))
    && (k.secretRef.Some? ==> k.secretRef.value.namespace in {"", r.systemNamespace})
  }

  /** Issuer and subject are each given in exactly one way. */
  predicate ValidIdentity(r: Rules, id: Identity) {
    && Count(id.issuer != "") + Count(id.issuerRegExp != "") == 1
    && Count(id.subject != "") + Count(id.subjectRegExp != "") == 1
    && (forall regex | regex in {id.issuerRegExp, id.subjectRegExp} :: regex == "" || r.regexOk(regex))
  }

  predicate ValidGm(g: GMSignatureRef) {
    "" !in {g.verifyUrl, g.tenantId, g.signer.appId, g.signer.nodeId} && g.requestTimeoutMs >= 0
  }

  /** Exactly one way of giving the text; the flags are for the spec's own policy alone. */
  predicate ValidPolicy(r: Rules, policy: Option<Policy>, inSpec: bool) {
    policy.Some? ==>
      var p := policy.value;
      && p.kind in {"cue", "rego"}
      && Count(p.data != "") + Count(p.configMapRef.Some?) + Count(p.remote.Some?) == 1
      && (p.remote.Some? ==> r.remoteOk(p.remote.value.url) && p.remote.value.sha256sum != "")
      && (p.configMapRef.Some? ==> p.configMapRef.value.name != "" && p.configMapRef.value.key != "")
      && (inSpec || {p.fetchConfigFile, p.includeSpec, p.includeObjectMeta, p.includeTypeMeta} == {None})
  }

  predicate ValidAttestation(r: Rules, a: Attestation) {
    a.name != "" && a.predicateType != "" && ValidPolicy(r, a.policy, false)
  }

  /** A predicate type that is not a URI, a short form among them, only draws a warning. */
  predicate Dated(r: Rules, a: Attestation) {
    a.predicateType != "" && (a.predicateType in VALID_PREDICATE_TYPES || !r.uriOk(a.predicateType))
  }

  predicate ValidMatch(r: Rules, m: MatchResource) {
    && (r.validResourceNames == {} || m.resource in r.validResourceNames + {""})
    && (m.selector.Some? ==> {m.resource, m.version, m.group} != {""})
  }

  predicate ValidPattern(r: Rules, p: ImagePattern) { p.glob != "" && r.filepathOk(p.glob) && Compile(p.glob).Ok? }

  /** How many kinds of verifier the authority has. */
  function Kinds(a: Authority): nat {
    Count(a.key.Some?) + Count(a.keyless.Some?) + Count(a.staticRef.Some?) + Count(a.gmSignature.Some?)
  }

  /** A static or GM authority has no use for attestations, a transparency log or a timestamp. */
  predicate Bare(a: Authority) { a.staticRef.Some? || a.gmSignature.Some? }

  predicate ValidKind(r: Rules, a: Authority) {
    && (a.key.Some? ==> ValidKey(r, a.key.value))
    && (a.gmSignature.Some? ==> ValidGm(a.gmSignature.value))
    && (a.staticRef.Some? ==> a.staticRef.value.action in {"fail", "pass"} && a.sources == [])
    && (Bare(a) ==> a.attestations == [] && a.ctlog.None? && a.rfc3161Timestamp.None?)
    && |a.sources| <= 1
  }

  predicate ValidKeyless(r: Rules, k: KeylessRef) {
    && (k.url.Some? != k.caCert.Some?)
    && (k.caCert.Some? ==> ValidKey(r, k.caCert.value))
    && k.identities != [] && (forall i | 0 <= i < |k.identities| :: ValidIdentity(r, k.identities[i]))
  }

  predicate ValidSource(r: Rules, s: Source) {
    (s.oci != "" ==> r.ociOk(s.oci)) && forall i | 0 <= i < |s.signaturePullSecrets| :: s.signaturePullSecrets[i] != ""
  }

  predicate ValidAuthority(r: Rules, a: Authority) {
    && Kinds(a) == 1 && ValidKind(r, a)
    && (a.keyless.Some? ==> ValidKeyless(r, a.keyless.value))
    && (forall i | 0 <= i < |a.sources| :: ValidSource(r, a.sources[i]))
    && (forall i | 0 <= i < |a.attestations| :: ValidAttestation(r, a.attestations[i]))
  }

  predicate DatedAuthority(r: Rules, a: Authority) {
    Kinds(a) == 1 && exists i | 0 <= i < |a.attestations| :: Dated(r, a.attestations[i])
  }

  predicate ValidSpec(r: Rules, s: Spec) {
    && s.images != [] && (forall i | 0 <= i < |s.images| :: ValidPattern(r, s.images[i]))
    && (s.authorities == [] ==> !r.failOnEmptyAuthorities)
    && (forall i | 0 <= i < |s.authorities| :: ValidAuthority(r, s.authorities[i]))
    && (s.mode == "" || s.mode == "enforce" || s.mode == "warn")
    && (forall i | 0 <= i < |s.matches| :: ValidMatch(r, s.matches[i]))
    && ValidPolicy(r, s.policy, true)
  }

  // ---------- collecting diagnostics ----------

  /** Adds a diagnostic for a field, if there is a reason. */
  method Report(errs: Option<FieldError>, bad: bool, field: string) returns (r: Option<FieldError>)
    ensures Holds(r, ErrorLevel) <==> Holds(errs, ErrorLevel) || bad
    ensures Holds(r, WarningLevel) <==> Holds(errs, WarningLevel)
  {
    r := errs;
    if bad {
      r := Join(errs, Some(FieldError("invalid value", [field], ErrorLevel, "", [])));
    }
  }

  method Warn(errs: Option<FieldError>, field: string) returns (r: Option<FieldError>)
    ensures Holds(r, ErrorLevel) <==> Holds(errs, ErrorLevel)
    ensures Holds(r, WarningLevel)
  {
    var dated := Some(FieldError("invalid value", [field], ErrorLevel, "", []));
    AtHolds(dated, WarningLevel, ErrorLevel);
    AtHolds(dated, WarningLevel, WarningLevel);
    r := Join(errs, At(dated, WarningLevel));
  }

  method Join(errs: Option<FieldError>, more: Option<FieldError>) returns (r: Option<FieldError>)
    ensures Holds(r, ErrorLevel) <==> Holds(errs, ErrorLevel) || Holds(more, ErrorLevel)
    ensures Holds(r, WarningLevel) <==> Holds(errs, WarningLevel) || Holds(more, WarningLevel)
  {
    AlsoHolds(errs, more, ErrorLevel);
    AlsoHolds(errs, more, WarningLevel);
    r := Also(errs, more);
  }

  // ---------- the validators ----------

  method ValidateKey(r: Rules, k: KeyRef) returns (errs: Option<FieldError>)
    ensures Holds(errs, ErrorLevel) <==> !ValidKey(r, k)
    ensures !Holds(errs, WarningLevel)
  {
    errs := Report(None, k.data == "" && k.kms == "" && k.secretRef.None?, "data");
    errs := Report(errs, k.hashAlgorithm != "" && !r.hashOk(k.hashAlgorithm), "hashAlgorithm");
    if k.data != "" {
      errs := Report(errs, k.kms != "" || k.secretRef.Some?, "data");
      errs := Report(errs, !r.keyOk(k.data), "data");
    } else {
      errs := Report(errs, k.kms != "" && k.secretRef.Some?, "data");
    }
    errs := Report(errs, k.kms != "" && !r.kmsOk(k.kms), "kms");
    if k.secretRef.Some? {
      var namespace := k.secretRef.value.namespace;
      errs := Report(errs, namespace != "" && namespace != r.systemNamespace, "secretref.namespace");
    }
  }

  method ValidateIdentity(r: Rules, id: Identity) returns (errs: Option<FieldError>)
    ensures Holds(errs, ErrorLevel) <==> !ValidIdentity(r, id)
    ensures !Holds(errs, WarningLevel)
  {
    errs := Report(None, id.issuer != "" && id.issuerRegExp != "", "issuer");
    errs := Report(errs, id.subject != "" && id.subjectRegExp != "", "subject");
    errs := Report(errs, id.issuerRegExp != "" && !r.regexOk(id.issuerRegExp), "issuerRegExp");
    errs := Report(errs, id.subjectRegExp != "" && !r.regexOk(id.subjectRegExp), "subjectRegExp");
    errs := Report(errs, id.subjectRegExp == "" && id.subject == "", "subject");
    errs := Report(errs, id.issuerRegExp == "" && id.issuer == "", "issuer");
  }

  method ValidateGm(g: GMSignatureRef) returns (errs: Option<FieldError>)
    ensures Holds(errs, ErrorLevel) <==> !ValidGm(g)
    ensures !Holds(errs, WarningLevel)
  {
    errs := Report(None, g.verifyUrl == "", "verifyUrl");
    errs := Report(errs, g.tenantId == "", "tenantId");
    errs := Report(errs, g.signer.appId == "", "signer.appId");
    errs := Report(errs, g.signer.nodeId == "", "signer.nodeId");
    errs := Report(errs, g.requestTimeoutMs < 0, "requestTimeoutMs");
  }

  method ValidatePolicy(r: Rules, policy: Option<Policy>, inSpec: bool) returns (errs: Option<FieldError>)
    ensures Holds(errs, ErrorLevel) <==> !ValidPolicy(r, policy, inSpec)
    ensures !Holds(errs, WarningLevel)
  {
    if policy.None? {
      return None;
    }
    var p := policy.value;
    errs := Report(None, p.kind != "cue" && p.kind != "rego", "type");
    errs := Report(errs, p.data == "" && p.configMapRef.None? && p.remote.None?, "data");
    errs := Report(errs, p.data != "" && p.configMapRef.Some? && p.remote.Some?, "data");
    errs := Report(errs, (p.data != "" && p.configMapRef.Some?) || (p.data != "" && p.remote.Some?) ||
                         (p.configMapRef.Some? && p.remote.Some?), "data");
    if p.remote.Some? {
      errs := Report(errs, !r.remoteOk(p.remote.value.url), "url");
      errs := Report(errs, p.remote.value.sha256sum == "", "sha256sum");
    }
    if p.configMapRef.Some? {
      errs := Report(errs, p.configMapRef.value.name == "", "name");
      errs := Report(errs, p.configMapRef.value.key == "", "key");
    }
    errs := Report(errs, !inSpec && p.fetchConfigFile.Some?, "fetchConfigFile");
    errs := Report(errs, !inSpec && p.includeSpec.Some?, "includeSpec");
    errs := Report(errs, !inSpec && p.includeObjectMeta.Some?, "includeObjectMeta");
    errs := Report(errs, !inSpec && p.includeTypeMeta.Some?, "includeTypeMeta");
  }

  method ValidateMatch(r: Rules, m: MatchResource) returns (errs: Option<FieldError>)
    ensures Holds(errs, ErrorLevel) <==> !ValidMatch(r, m)
    ensures !Holds(errs, WarningLevel)
  {
    errs := Report(None, m.resource != "" && |r.validResourceNames| > 0 && m.resource !in r.validResourceNames,
                   "resource");
    errs := Report(errs, m.selector.Some? && m.resource == "" && m.version == "" && m.group == "", "selector");
  }

  method ValidateKeyless(r: Rules, k: KeylessRef) returns (errs: Option<FieldError>)
    ensures Holds(errs, ErrorLevel) <==> !ValidKeyless(r, k)
    ensures !Holds(errs, WarningLevel)
  {
    errs := Report(None, k.url.None? && k.caCert.None?, "url");
    errs := Report(errs, k.url.Some? && k.caCert.Some?, "url");
    if k.caCert.Some? {
      var more := ValidateKey(r, k.caCert.value);
      errs := Join(errs, more);
    }
    errs := Report(errs, k.identities == [], "identities");
    ghost var before := Holds(errs, ErrorLevel);
    for i := 0 to |k.identities|
      invariant Holds(errs, ErrorLevel) <==> before || exists j | 0 <= j < i :: !ValidIdentity(r, k.identities[j])
      invariant !Holds(errs, WarningLevel)
    {
      var more := ValidateIdentity(r, k.identities[i]);
      errs := Join(errs, more);
    }
  }

  method ValidateSource(r: Rules, s: Source) returns (errs: Option<FieldError>)
    ensures Holds(errs, ErrorLevel) <==> !ValidSource(r, s)
    ensures !Holds(errs, WarningLevel)
  {
    errs := Report(None, s.oci != "" && !r.ociOk(s.oci), "oci");
    ghost var before := Holds(errs, ErrorLevel);
    for i := 0 to |s.signaturePullSecrets|
      invariant Holds(errs, ErrorLevel) <==> before || exists j | 0 <= j < i :: s.signaturePullSecrets[j] == ""
      invariant !Holds(errs, WarningLevel)
    {
      errs := Report(errs, s.signaturePullSecrets[i] == "", "name");
    }
  }

  method ValidateAttestation(r: Rules, a: Attestation) returns (errs: Option<FieldError>)
    ensures Holds(errs, ErrorLevel) <==> !ValidAttestation(r, a)
    ensures Holds(errs, WarningLevel) <==> Dated(r, a)
  {
    errs := Report(None, a.name == "", "name");
    if a.predicateType == "" {
      errs := Report(errs, true, "predicateType");
    } else if a.predicateType in VALID_PREDICATE_TYPES {
      errs := Warn(errs, "predicateType");
    } else if !r.uriOk(a.predicateType) {
      errs := Warn(errs, "predicateType");
    }
    var policy := ValidatePolicy(r, a.policy, false);
    errs := Join(errs, policy);
  }

  /** Of several sources none is looked at. */
  method ValidateSources(r: Rules, sources: seq<Source>) returns (errs: Option<FieldError>)
    ensures Holds(errs, ErrorLevel) <==> |sources| <= 1 && exists i | 0 <= i < |sources| :: !ValidSource(r, sources[i])
    ensures !Holds(errs, WarningLevel)
  {
    errs := None;
    if |sources| <= 1 {
      for i := 0 to |sources|
        invariant Holds(errs, ErrorLevel) <==> exists j | 0 <= j < i :: !ValidSource(r, sources[j])
        invariant !Holds(errs, WarningLevel)
      {
        var more := ValidateSource(r, sources[i]);
        errs := Join(errs, more);
      }
    }
  }

  method ValidateAttestations(r: Rules, attestations: seq<Attestation>) returns (errs: Option<FieldError>)
    ensures Holds(errs, ErrorLevel) <==> exists i | 0 <= i < |attestations| :: !ValidAttestation(r, attestations[i])
    ensures Holds(errs, WarningLevel) <==> exists i | 0 <= i < |attestations| :: Dated(r, attestations[i])
  {
    errs := None;
    for i := 0 to |attestations|
      invariant Holds(errs, ErrorLevel) <==> exists j | 0 <= j < i :: !ValidAttestation(r, attestations[j])
      invariant Holds(errs, WarningLevel) <==> exists j | 0 <= j < i :: Dated(r, attestations[j])
    {
      var more := ValidateAttestation(r, attestations[i]);
      errs := Join(errs, more);
    }
  }

  /** All but the keyless section, the sources one by one and the attestations. */
  method ValidateKind(r: Rules, a: Authority) returns (errs: Option<FieldError>)
    ensures Holds(errs, ErrorLevel) <==> !ValidKind(r, a)
    ensures !Holds(errs, WarningLevel)
  {
    errs := None;
    if a.key.Some? {
      errs := ValidateKey(r, a.key.value);
    }
    if a.gmSignature.Some? {
      var gm := ValidateGm(a.gmSignature.value);
      errs := Join(errs, gm);
      errs := Report(errs, |a.attestations| > 0, "attestations");
      errs := Report(errs, a.ctlog.Some?, "ctlog");
      errs := Report(errs, a.rfc3161Timestamp.Some?, "rfc3161timestamp");
    }
    if a.staticRef.Some? {
      if a.staticRef.value.action == "" {
        errs := Report(errs, true, "action");
      } else if a.staticRef.value.action != "fail" && a.staticRef.value.action != "pass" {
        errs := Report(errs, true, "action");
      }
      errs := Report(errs, |a.attestations| > 0, "attestations");
      errs := Report(errs, |a.sources| > 0, "source");
      errs := Report(errs, a.ctlog.Some?, "ctlog");
      errs := Report(errs, a.rfc3161Timestamp.Some?, "rfc3161timestamp");
    }
    errs := Report(errs, |a.sources| > 1, "source");
  }

  method ValidateAuthority(r: Rules, a: Authority) returns (errs: Option<FieldError>)
    ensures Holds(errs, ErrorLevel) <==> !ValidAuthority(r, a)
    ensures Holds(errs, WarningLevel) <==> DatedAuthority(r, a)
  {
    if Kinds(a) != 1 {
      errs := Report(None, true, "key");
      return;
    }
    errs := ValidateKind(r, a);
    if a.keyless.Some? {
      var keyless := ValidateKeyless(r, a.keyless.value);
      errs := Join(errs, keyless);
    }
    var sources := ValidateSources(r, a.sources);
    errs := Join(errs, sources);
    var attestations := ValidateAttestations(r, a.attestations);
    errs := Join(errs, attestations);
  }

  method ValidateAuthorities(r: Rules, authorities: seq<Authority>) returns (errs: Option<FieldError>)
    ensures Holds(errs, ErrorLevel) <==> exists i | 0 <= i < |authorities| :: !ValidAuthority(r, authorities[i])
    ensures Holds(errs, WarningLevel) <==> exists i | 0 <= i < |authorities| :: DatedAuthority(r, authorities[i])
  {
    errs := None;
    for i := 0 to |authorities|
      invariant Holds(errs, ErrorLevel) <==> exists j | 0 <= j < i :: !ValidAuthority(r, authorities[j])
      invariant Holds(errs, WarningLevel) <==> exists j | 0 <= j < i :: DatedAuthority(r, authorities[j])
    {
      var more := ValidateAuthority(r, authorities[i]);
      errs := Join(errs, more);
    }
  }

  /** The first thing wrong with a pattern. */
  method ValidateImage(r: Rules, p: ImagePattern) returns (errs: Option<FieldError>)
    ensures Holds(errs, ErrorLevel) <==> !ValidPattern(r, p)
    ensures !Holds(errs, WarningLevel)
  {
    if p.glob == "" {
      errs := Report(None, true, "glob");
    } else if !r.filepathOk(p.glob) {
      errs := Report(None, true, "glob");
    } else {
      errs := Report(None, Compile(p.glob).Err?, "glob");
    }
  }

  method ValidateImages(r: Rules, images: seq<ImagePattern>) returns (errs: Option<FieldError>)
    ensures Holds(errs, ErrorLevel) <==> images == [] || exists i | 0 <= i < |images| :: !ValidPattern(r, images[i])
    ensures !Holds(errs, WarningLevel)
  {
    errs := Report(None, images == [], "images");
    for i := 0 to |images|
      invariant Holds(errs, ErrorLevel) <==> images == [] || exists j | 0 <= j < i :: !ValidPattern(r, images[j])
      invariant !Holds(errs, WarningLevel)
    {
      var more := ValidateImage(r, images[i]);
      errs := Join(errs, more);
    }
  }

  method ValidateMatches(r: Rules, matches: seq<MatchResource>) returns (errs: Option<FieldError>)
    ensures Holds(errs, ErrorLevel) <==> exists i | 0 <= i < |matches| :: !ValidMatch(r, matches[i])
    ensures !Holds(errs, WarningLevel)
  {
    errs := None;
    for i := 0 to |matches|
      invariant Holds(errs, ErrorLevel) <==> exists j | 0 <= j < i :: !ValidMatch(r, matches[j])
      invariant !Holds(errs, WarningLevel)
    {
      var more := ValidateMatch(r, matches[i]);
      errs := Join(errs, more);
    }
  }

  /** The spec is refused exactly if it is not valid; deprecated predicate types only draw warnings. */
  method ValidateSpec(r: Rules, s: Spec) returns (errs: Option<FieldError>)
    ensures Holds(errs, ErrorLevel) <==> !ValidSpec(r, s)
    ensures Holds(errs, WarningLevel) <==> exists i | 0 <= i < |s.authorities| :: DatedAuthority(r, s.authorities[i])
  {
    errs := ValidateImages(r, s.images);
    errs := Report(errs, s.authorities == [] && r.failOnEmptyAuthorities, "authorities");
    var authorities := ValidateAuthorities(r, s.authorities);
    errs := Join(errs, authorities);
    errs := Report(errs, s.mode != "" && s.mode != "enforce" && s.mode != "warn", "mode");
    var matches := ValidateMatches(r, s.matches);
    errs := Join(errs, matches);
    var policy := ValidatePolicy(r, s.policy, true);
    errs := Join(errs, policy);
  }

  // ---------- conversion, defaulting and validity ----------

  lemma NormalisedKind(r: Rules, a: Authority)
    ensures ValidKind(r, a) <==> ValidKind(r, NormaliseAuthority(a)) && !(Bare(a) && Droppable(a))
  {
  }

  /**
   What the other version thinks of the converted spec: it accepts whatever this version accepts, and more exactly when
   a static or GM authority carries a log without URL or a timestamp without trust root, which conversion drops.
   */
  lemma ConvertedValidity(r: Rules, s: Spec)
    ensures ValidSpec(r, s) <==>
      ValidSpec(r, Normalise(s)) && forall i | 0 <= i < |s.authorities| ::
        !(Bare(s.authorities[i]) && Droppable(s.authorities[i]))
  {
    var n := Normalise(s);
    forall i | 0 <= i < |s.authorities| ensures
      ValidAuthority(r, s.authorities[i]) <==>
      ValidAuthority(r, n.authorities[i]) && !(Bare(s.authorities[i]) && Droppable(s.authorities[i]))
    {
      NormalisedKind(r, s.authorities[i]);
    }
  }

  /** An invalid spec that the other version accepts. */
  lemma ConversionCanRepair(r: Rules, glob: string)
    requires ValidPattern(r, ImagePattern(glob))
    ensures var a := Authority("a", None, None, Some(StaticRef("pass", "")), [], Some(TLog(None, "")), [], None, None,
      "");
      var s := Spec([ImagePattern(glob)], [a], None, "enforce", []);
      !ValidSpec(r, s) && ValidSpec(r, Normalise(s))
  {
    var a := Authority("a", None, None, Some(StaticRef("pass", "")), [], Some(TLog(None, "")), [], None, None, "");
    var s := Spec([ImagePattern(glob)], [a], None, "enforce", []);
    assert !ValidAuthority(r, s.authorities[0]);
    assert ValidAuthority(r, NormaliseAuthority(a));
  }

  /** Defaulting never spoils a valid spec. */
  lemma DefaultsStayValid(r: Rules, s: Spec)
    requires ValidSpec(r, s)
    ensures ValidSpec(r, Defaulted(s))
  {
    forall i | 0 <= i < |s.authorities| ensures ValidAuthority(r, DefaultedAuthority(s.authorities[i], i)) {
      DefaultedStaysValid(r, s.authorities[i], i);
    }
  }

  lemma DefaultedStaysValid(r: Rules, a: Authority, i: nat)
    requires ValidAuthority(r, a)
    ensures ValidAuthority(r, DefaultedAuthority(a, i))
  {
    var d := DefaultedAuthority(a, i);
    assert Kinds(d) == Kinds(a);
    assert d == a.(name := d.name);
  }
}
