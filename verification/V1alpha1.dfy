/**
 The ClusterImagePolicy API types. Versions v1alpha1 and v1beta1 declare the same fields. Pointer fields that may be
 nil are `Option`s, URLs and label selectors are kept as text, and nil and empty slices are not told apart.
 */
module V1alpha1 {
  import opened Wrappers

  datatype ImagePattern = ImagePattern(glob: string)

  datatype SecretReference = SecretReference(name: string, namespace: string)

  datatype KeyRef = KeyRef(secretRef: Option<SecretReference>, data: string, kms: string, hashAlgorithm: string)

  datatype StaticRef = StaticRef(action: string, message: string)

  datatype Source = Source(oci: string, signaturePullSecrets: seq<string>, tagPrefix: Option<string>)

  datatype TLog = TLog(url: Option<string>, trustRootRef: string)

  datatype RFC3161Timestamp = RFC3161Timestamp(trustRootRef: string)

  datatype Identity = Identity(issuer: string, subject: string, issuerRegExp: string, subjectRegExp: string)

  datatype KeylessRef = KeylessRef(
    url: Option<string>,
    identities: seq<Identity>,
    caCert: Option<KeyRef>,
    trustRootRef: string,
    insecureIgnoreSCT: Option<bool>)

  datatype RemotePolicy = RemotePolicy(url: string, sha256sum: string)

  datatype ConfigMapReference = ConfigMapReference(name: string, namespace: string, key: string)

  datatype Policy = Policy(
    kind: string,
    data: string,
    remote: Option<RemotePolicy>,
    configMapRef: Option<ConfigMapReference>,
    fetchConfigFile: Option<bool>,
    includeSpec: Option<bool>,
    includeObjectMeta: Option<bool>,
    includeTypeMeta: Option<bool>)

  datatype Attestation = Attestation(name: string, predicateType: string, policy: Option<Policy>)

  datatype GMSignerRef = GMSignerRef(appId: string, nodeId: string, userId: string)

  datatype GMSignatureRef = GMSignatureRef(
    verifyUrl: string,
    tenantId: string,
    signer: GMSignerRef,
    requestTimeoutMs: int)

  datatype Authority = Authority(
    name: string,
    key: Option<KeyRef>,
    keyless: Option<KeylessRef>,
    staticRef: Option<StaticRef>,
    sources: seq<Source>,
    ctlog: Option<TLog>,
    attestations: seq<Attestation>,
    rfc3161Timestamp: Option<RFC3161Timestamp>,
    gmSignature: Option<GMSignatureRef>,
    signatureFormat: string)

  datatype MatchResource = MatchResource(group: string, version: string, resource: string, selector: Option<string>)

  datatype Spec = Spec(
    images: seq<ImagePattern>,
    authorities: seq<Authority>,
    policy: Option<Policy>,
    mode: string,
    matches: seq<MatchResource>)
}
