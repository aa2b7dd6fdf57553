/** Verification of an image's signatures by a remote module, with a memory of the positive answers. */
module GmVerify {
  import opened Wrappers
  import opened GmCacheKey

  const ANN_ALG := "zjrcu.gm/alg"
  const ANN_SIGNATURE := "zjrcu.gm/signature"
  const ANN_USER_ID := "zjrcu.gm/user-id"
  const ANN_APP_ID := "zjrcu.gm/signer-app-id"
  const ANN_NODE_ID := "zjrcu.gm/signer-node-id"
  const SM2_SM3 := "SM2-with-SM3"

  /** The GM section of a compiled authority. */
  datatype GMSignatureRef = GMSignatureRef(verifyURL: string, tenantId: string, signer: SignerTriple)

  datatype Misconfigured = NilRef | NoVerifyURL | NoTenantID | NoAppID | NoNodeID

  /** A stored signature. `Err` stands for an accessor that fails. */
  datatype Signature = Signature(
    annotations: Result<map<string, Bytes>, string>,
    base64: Result<Bytes, string>,
    payload: Result<Bytes, string>)

  /** Decoders of the standard library. `claimedDigest` is None for a payload that cannot be parsed. */
  datatype Library = Library(
    sum: Bytes -> string, decodeBase64: Bytes -> Option<Bytes>, claimedDigest: Bytes -> Option<string>)

  datatype SignatureError =
    | UnreadableAnnotations | WrongAlgorithm | WrongAppID | WrongNodeID | WrongUserID
    | NoSignature | BadBase64 | UnreadablePayload | UnparsablePayload | NoDigestClaimed | OtherDigestClaimed
    | CallFailed | NotVerified

  datatype VerifyError =
    | Config(why: Misconfigured) | NoClient | FetchFailed(error: string) | NoSignatures
    | NoneVerified(index: nat, last: SignatureError)

  // ---------- gates ----------

  function Validate(ref: Option<GMSignatureRef>): Option<Misconfigured> {
    if ref.None? then Some(NilRef)
    else if ref.value.verifyURL == "" then Some(NoVerifyURL)
    else if ref.value.tenantId == "" then Some(NoTenantID)
    else if ref.value.signer.appId == "" then Some(NoAppID)
    else if ref.value.signer.nodeId == "" then Some(NoNodeID)
    else None
  }

  function Annotation(annotations: map<string, Bytes>, k: string): Bytes {
    if k in annotations then annotations[k] else ""
  }

  function MatchSigner(ref: GMSignatureRef, annotations: map<string, Bytes>): Option<SignatureError> {
    if Annotation(annotations, ANN_ALG) != SM2_SM3 then Some(WrongAlgorithm)
    else if Annotation(annotations, ANN_APP_ID) != ref.signer.appId then Some(WrongAppID)
    else if Annotation(annotations, ANN_NODE_ID) != ref.signer.nodeId then Some(WrongNodeID)
    else if ref.signer.userId != "" && Annotation(annotations, ANN_USER_ID) != ref.signer.userId then Some(WrongUserID)
    else None
  }

  function VerifyClaim(lib: Library, payload: Bytes, digest: string): Option<SignatureError> {
    match lib.claimedDigest(payload)
    case None => Some(UnparsablePayload)
    case Some(claimed) =>
      if claimed == "" then Some(NoDigestClaimed)
      else if claimed != digest then Some(OtherDigestClaimed)
      else None
  }

  function SignatureText(sig: Signature, annotations: map<string, Bytes>): Option<Bytes> {
    var annotated := Annotation(annotations, ANN_SIGNATURE);
    if annotated != "" then Some(annotated)
    else if sig.base64.Ok? && sig.base64.value != "" then Some(sig.base64.value)
    else None
  }

  /** Everything that is checked before the memory and the remote module: the signature bytes, or why not. */
  function Gate(lib: Library, ref: GMSignatureRef, digest: string, sig: Signature): Result<Bytes, SignatureError> {
    if sig.annotations.Err? then Err(UnreadableAnnotations) else
    var annotations := sig.annotations.value;
    var mismatch := MatchSigner(ref, annotations);
    if mismatch.Some? then Err(mismatch.value) else
    var text := SignatureText(sig, annotations);
    if text.None? then Err(NoSignature) else
    var bytes := lib.decodeBase64(text.value);
    if bytes.None? then Err(BadBase64)
    else if sig.payload.Err? then Err(UnreadablePayload) else
    var claim := if digest != "" then VerifyClaim(lib, sig.payload.value, digest) else None;
    if claim.Some? then Err(claim.value) else Ok(bytes.value)
  }

  /** The annotation has the value; a missing one has the empty value. */
  predicate Says(annotations: map<string, Bytes>, k: string, v: Bytes) {
    if k in annotations then annotations[k] == v else v == ""
  }

  /** The signer the policy names is the one the signature declares; any user id will do if the policy names none. */
  ghost predicate SignerAgrees(ref: GMSignatureRef, annotations: map<string, Bytes>) {
    && Says(annotations, "zjrcu.gm/alg", "SM2-with-SM3")
    && Says(annotations, "zjrcu.gm/signer-app-id", ref.signer.appId)
    && Says(annotations, "zjrcu.gm/signer-node-id", ref.signer.nodeId)
    && (ref.signer.userId != "" ==> Says(annotations, "zjrcu.gm/user-id", ref.signer.userId))
  }

  /** The signature is the annotated one; only without that, the one the accessor gives. */
  ghost predicate SignatureIs(sig: Signature, annotations: map<string, Bytes>, text: Bytes) {
    if Says(annotations, "zjrcu.gm/signature", "") then sig.base64 == Ok(text) && text != ""
    else Says(annotations, "zjrcu.gm/signature", text)
  }

  /** What passes the gates: the named signer's, decodable, and, for an image given by digest, claiming that digest. */
  lemma GateMeans(lib: Library, ref: GMSignatureRef, digest: string, sig: Signature, bytes: Bytes)
    ensures Gate(lib, ref, digest, sig) == Ok(bytes) <==>
      && sig.annotations.Ok? && SignerAgrees(ref, sig.annotations.value)
      && (exists text :: SignatureIs(sig, sig.annotations.value, text) && lib.decodeBase64(text) == Some(bytes))
      && sig.payload.Ok?
      && (digest != "" ==> lib.claimedDigest(sig.payload.value) == Some(digest))
  {
    if sig.annotations.Ok? && SignatureText(sig, sig.annotations.value).Some? {
      assert SignatureIs(sig, sig.annotations.value, SignatureText(sig, sig.annotations.value).value);
    }
  }

  /** What stops at the gates, by the first that it does not pass. */
  lemma GateFails(lib: Library, ref: GMSignatureRef, digest: string, sig: Signature)
    requires Gate(lib, ref, digest, sig).Err?
    ensures var e := Gate(lib, ref, digest, sig).error;
      if sig.annotations.Err? then e == UnreadableAnnotations else
      var a := sig.annotations.value;
      if !Says(a, "zjrcu.gm/alg", "SM2-with-SM3") then e == WrongAlgorithm
      else if !Says(a, "zjrcu.gm/signer-app-id", ref.signer.appId) then e == WrongAppID
      else if !Says(a, "zjrcu.gm/signer-node-id", ref.signer.nodeId) then e == WrongNodeID
      else if !SignerAgrees(ref, a) then e == WrongUserID
      else if forall text :: !SignatureIs(sig, a, text) then e == NoSignature
      else if forall text :: SignatureIs(sig, a, text) ==> lib.decodeBase64(text).None? then e == BadBase64
      else if sig.payload.Err? then e == UnreadablePayload
      else if lib.claimedDigest(sig.payload.value).None? then digest != "" && e == UnparsablePayload
      else if lib.claimedDigest(sig.payload.value) == Some("") then digest != "" && e == NoDigestClaimed
      else digest != "" && lib.claimedDigest(sig.payload.value) != Some(digest) && e == OtherDigestClaimed
  {
    if sig.annotations.Ok? && SignatureText(sig, sig.annotations.value).Some? {
      assert SignatureIs(sig, sig.annotations.value, SignatureText(sig, sig.annotations.value).value);
    }
  }

  /** A section of a policy will do if nothing but the user id is missing; else the first missing part is named. */
  lemma ValidateMeans(ref: Option<GMSignatureRef>)
    ensures Validate(ref) ==
      if ref.None? then Some(NilRef) else
      var missing :=
        (if |ref.value.verifyURL| == 0 then [NoVerifyURL] else []) +
        (if |ref.value.tenantId| == 0 then [NoTenantID] else []) +
        (if |ref.value.signer.appId| == 0 then [NoAppID] else []) +
        (if |ref.value.signer.nodeId| == 0 then [NoNodeID] else []);
      if missing == [] then None else Some(missing[0])
  {
  }

  // ---------- the memory ----------

  const COUNTER_SIZE := 0x1_0000_0000_0000_0000

  lemma AnotherKey(keys: set<string>, key: string)
    requires |keys| > 1
    ensures exists k :: k in keys && k != key
  {
    var others := keys - {key};
    assert |others| >= |keys| - 1;
    var k :| k in others;
  }

  /** The key is added; of more than there is room for, one other goes. */
  ghost predicate Adds(before: map<string, int>, after: map<string, int>, key: string, time: int, capacity: int) {
    var more := before[key := time];
    if |more| <= capacity then after == more
    else exists victim :: victim in more && victim != key && after == more - {victim}
  }

  /**
   Positive answers by key, each with the time at which it was added. Times are integers; a disabled memory holds
   nothing.
   */
  class Cache {
    const capacity: int
    const ttl: int
    var entries: map<string, int>
    var hits: nat
    var misses: nat

    ghost predicate Valid()
      reads this
    {
      if capacity <= 0 || ttl <= 0 then entries == map[] else |entries| <= capacity
    }

    constructor (capacity: int, ttl: int)
      ensures Valid() && this.capacity == capacity && this.ttl == ttl
      ensures entries == map[] && hits == 0 && misses == 0
    {
      this.capacity, this.ttl := capacity, ttl;
      entries, hits, misses := map[], 0, 0;
    }

    predicate Enabled() { capacity > 0 && ttl > 0 }

    /** A hit exactly for a key that is held and not older than the time to live. */
    method Lookup(key: string, now: int) returns (hit: bool)
      requires Valid()
      modifies `hits, `misses
      ensures Valid()
      ensures hit <==> key in entries && now <= entries[key] + ttl
      ensures hits == (if hit then (old(hits) + 1) % COUNTER_SIZE else old(hits))
      ensures misses == (if hit then old(misses) else (old(misses) + 1) % COUNTER_SIZE)
    {
      if !Enabled() {
        misses := (misses + 1) % COUNTER_SIZE;
        return false;
      }
      hit := key in entries && now <= entries[key] + ttl;
      if hit {
        hits := (hits + 1) % COUNTER_SIZE;
      } else {
        misses := (misses + 1) % COUNTER_SIZE;
      }
    }

    /** Adds or renews the key; above the capacity, some other key goes. */
    method Store(key: string, now: int)
      requires Valid()
      modifies `entries
      ensures Valid()
      ensures if Enabled() then Adds(old(entries), entries, key, now, capacity) else entries == old(entries)
    {
      if !Enabled() {
        return;
      }
      var more := entries[key := now];
      assert more.Keys == entries.Keys + {key};
      if |more| > capacity {
        AnotherKey(more.Keys, key);
        var victim :| victim in more.Keys && victim != key;
        assert (more - {victim}).Keys == more.Keys - {victim};
        entries := more - {victim};
      } else {
        entries := more;
      }
    }

    /** The library removes expired keys, or any others, at any time. */
    method Drop(keys: set<string>)
      requires Valid()
      modifies `entries
      ensures Valid()
      ensures entries == old(entries) - keys
    {
      var fewer := entries - keys;
      assert fewer.Keys <= entries.Keys;
      KeysWithin(fewer.Keys, entries.Keys);
      entries := fewer;
    }
  }

  lemma {:induction false} KeysWithin(a: set<string>, b: set<string>)
    requires a <= b
    ensures |a| <= |b|
  {
    if a != {} {
      var k :| k in a;
      KeysWithin(a - {k}, b - {k});
    }
  }

  // ---------- one call ----------

  datatype Answer = Positive | Negative | Failed

  /** What the remote module would answer for each signature, and when the memory is consulted and added to. */
  datatype Exchange = Exchange(answers: seq<Answer>, look: seq<int>, store: seq<int>)

  function Key(lib: Library, signer: SignerTriple, bytes: Bytes): string { lib.sum(Preimage(bytes, signer)) }

  /** The memory, then the remote module; only a positive answer is remembered. */
  method TryOne(cache: Cache?, key: string, answer: Answer, look: int, store: int) returns (r: Option<SignatureError>)
    requires cache != null ==> cache.Valid()
    modifies cache
    ensures cache != null ==> cache.Valid()
    ensures r.None? <==>
      answer.Positive? || (cache != null && key in old(cache.entries) && look <= old(cache.entries)[key] + cache.ttl)
    ensures r.Some? ==> r == Some(if answer.Failed? then CallFailed else NotVerified)
    ensures cache != null ==>
      var hit := key in old(cache.entries) && look <= old(cache.entries)[key] + cache.ttl;
      if hit || !answer.Positive? || !cache.Enabled() then cache.entries == old(cache.entries)
      else Adds(old(cache.entries), cache.entries, key, store, cache.capacity)
  {
    if cache != null {
      var hit := cache.Lookup(key, look);
      if hit {
        return None;
      }
    }
    match answer
    case Failed => r := Some(CallFailed);
    case Negative => r := Some(NotVerified);
    case Positive =>
      if cache != null {
        cache.Store(key, store);
      }
      r := None;
  }

  /** The signatures of one fetch, with what is asked about them. */
  datatype Call = Call(lib: Library, ref: GMSignatureRef, digest: string, sigs: seq<Signature>, x: Exchange)

  ghost predicate WellFormed(c: Call) { |c.x.answers| == |c.x.look| == |c.x.store| == |c.sigs| }

  ghost predicate Passed(c: Call, i: nat)
    requires i < |c.sigs|
  {
    Gate(c.lib, c.ref, c.digest, c.sigs[i]).Ok?
  }

  ghost function KeyAt(c: Call, i: nat): string
    requires i < |c.sigs| && Passed(c, i)
  {
    Key(c.lib, c.ref.signer, Gate(c.lib, c.ref, c.digest, c.sigs[i]).value)
  }

  /** What the module is asked: about the bytes of the signature that counts, over the payload that was stored. */
  lemma UseAsks(c: Call, i: nat)
    requires i < |c.sigs| && Passed(c, i)
    ensures var u, sig := UseAt(c, i), c.sigs[i];
      && u.ref == c.ref && sig.payload == Ok(u.payload) && sig.annotations.Ok?
      && exists text :: SignatureIs(sig, sig.annotations.value, text) && c.lib.decodeBase64(text) == Some(u.bytes)
  {
    GateMeans(c.lib, c.ref, c.digest, c.sigs[i], UseAt(c, i).bytes);
  }

  /** The gates were passed and the answer to this signature is positive. */
  ghost predicate Answered(c: Call, i: nat)
    requires WellFormed(c) && i < |c.sigs|
  {
    Passed(c, i) && c.x.answers[i].Positive?
  }

  /** What the memory holds while the signatures up to n are tried: what it held, and positive answers of this call. */
  ghost predicate Remembers(c: Call, n: nat, before: map<string, int>, entries: map<string, int>)
    requires WellFormed(c) && n <= |c.sigs|
  {
    forall k :: k in entries ==>
      || (k in before && entries[k] == before[k])
      || exists i | 0 <= i < n :: Answered(c, i) && KeyAt(c, i) == k && entries[k] == c.x.store[i]
  }

  /** Accepted: answered now, or remembered for no longer than the time to live since it was answered and stored. */
  ghost predicate Justified(c: Call, i: nat, before: map<string, int>, ttl: int)
    requires WellFormed(c) && i < |c.sigs|
  {
    && Passed(c, i)
    && (|| c.x.answers[i].Positive?
        || (KeyAt(c, i) in before && c.x.look[i] <= before[KeyAt(c, i)] + ttl)
        || exists j | 0 <= j < i :: Answered(c, j) && KeyAt(c, j) == KeyAt(c, i) && c.x.look[i] <= c.x.store[j] + ttl)
  }

  // ---------- a truthful module ----------

  /** What the module is asked about a signature: with which section of a policy, over which payload. */
  datatype Use = Use(ref: GMSignatureRef, bytes: Bytes, payload: Bytes)

  /** A module that always answers, and by what it is asked alone; `uses` are the questions that may come up. */
  datatype Module = Module(uses: iset<Use>, verdict: Use -> bool)

  ghost function UseAt(c: Call, i: nat): Use
    requires i < |c.sigs| && Passed(c, i)
  {
    Use(c.ref, Gate(c.lib, c.ref, c.digest, c.sigs[i]).value, c.sigs[i].payload.value)
  }

  ghost predicate Truthful(c: Call, hsm: Module)
    requires WellFormed(c)
  {
    forall i | 0 <= i < |c.sigs| :: Passed(c, i) ==>
      UseAt(c, i) in hsm.uses && c.x.answers[i] == if hsm.verdict(UseAt(c, i)) then Positive else Negative
  }

  function KeyOfUse(lib: Library, u: Use): string { Key(lib, u.ref.signer, u.bytes) }

  /** Among the questions that may come up, those with the same key have the same answer. */
  ghost predicate Coherent(lib: Library, hsm: Module) {
    forall u, u' :: u in hsm.uses && u' in hsm.uses && KeyOfUse(lib, u) == KeyOfUse(lib, u') ==>
      hsm.verdict(u) == hsm.verdict(u')
  }

  /** What the memory would accept, the module would. */
  ghost predicate SoundMemory(lib: Library, hsm: Module, entries: map<string, int>) {
    forall u :: u in hsm.uses && KeyOfUse(lib, u) in entries ==> hsm.verdict(u)
  }

  /** The gates are passed and the verdict is positive. */
  ghost predicate Deserves(c: Call, i: nat, hsm: Module)
    requires i < |c.sigs|
  {
    Passed(c, i) && hsm.verdict(UseAt(c, i))
  }

  /** The signatures that deserve acceptance, in order: what a call without memory accepts. */
  ghost function Deserving(c: Call, hsm: Module, n: nat): seq<nat>
    requires n <= |c.sigs|
  {
    if n == 0 then [] else Deserving(c, hsm, n - 1) + if Deserves(c, n - 1, hsm) then [n - 1] else []
  }

  lemma {:induction false} DeservingMeans(c: Call, hsm: Module, n: nat, i: nat)
    requires n <= |c.sigs|
    ensures i in Deserving(c, hsm, n) <==> i < n && Deserves(c, i, hsm)
  {
    if n > 0 {
      DeservingMeans(c, hsm, n - 1, i);
    }
  }

  lemma {:induction false} DeservingIncreases(c: Call, hsm: Module, n: nat)
    requires n <= |c.sigs|
    ensures Increasing(Deserving(c, hsm, n), n)
  {
    if n > 0 {
      DeservingIncreases(c, hsm, n - 1);
    }
  }

  lemma LastIsLargest(v: seq<nat>, n: nat)
    requires Increasing(v, n + 1) && n in v
    ensures v == v[..|v| - 1] + [n] && Increasing(v[..|v| - 1], n)
    ensures forall i: nat :: i in v[..|v| - 1] <==> i in v && i != n
  {
    assert v[|v| - 1] == n;
  }

  lemma LastIsMissing(v: seq<nat>, n: nat)
    requires Increasing(v, n + 1) && n !in v
    ensures Increasing(v, n)
  {
    assert forall a | 0 <= a < |v| :: v[a] in v;
  }

  lemma FirstBelow(v: seq<nat>, n: nat)
    requires Increasing(v, n) && v != []
    ensures n > 0
  {
    assert v[0] < n;
  }

  lemma HoldsSome(v: seq<nat>)
    requires v != []
    ensures exists i: nat :: i in v
  {
    assert v[0] in v;
  }

  lemma SameRest(v: seq<nat>, w: seq<nat>, n: nat) returns (v': seq<nat>, w': seq<nat>)
    requires Increasing(v, n + 1) && Increasing(w, n + 1) && n in v && forall i: nat :: i in v <==> i in w
    ensures v == v' + [n] && Increasing(v', n)
    ensures w == w' + [n] && Increasing(w', n)
    ensures forall i: nat :: i in v' <==> i in w'
  {
    LastIsLargest(v, n);
    LastIsLargest(w, n);
    v', w' := v[..|v| - 1], w[..|w| - 1];
    forall i: nat ensures i in v' <==> i in w' {
      assert i in v' <==> i in v && i != n;
      assert i in w' <==> i in w && i != n;
    }
  }

  lemma {:induction false} SameIncreasing(v: seq<nat>, w: seq<nat>, n: nat)
    requires Increasing(v, n) && Increasing(w, n) && forall i: nat :: i in v <==> i in w
    ensures v == w
    decreases n
  {
    if v == [] {
      if w != [] {
        HoldsSome(w);
      }
    } else {
      FirstBelow(v, n);
      if n - 1 in v {
        var v', w' := SameRest(v, w, n - 1);
        SameIncreasing(v', w', n - 1);
      } else {
        LastIsMissing(v, n - 1);
        LastIsMissing(w, n - 1);
        SameIncreasing(v, w, n - 1);
      }
    }
  }

  /** Indices in order that hold every deserving signature: the same as without memory exactly if each one deserves. */
  lemma AgreesIff(c: Call, hsm: Module, n: nat, v: seq<nat>)
    requires n <= |c.sigs| && Increasing(v, n) && forall i | 0 <= i < n :: Deserves(c, i, hsm) ==> i in v
    ensures v == Deserving(c, hsm, n) <==> forall i | i in v :: i < n && Deserves(c, i, hsm)
  {
    forall i: nat ensures i in Deserving(c, hsm, n) <==> i < n && Deserves(c, i, hsm) {
      DeservingMeans(c, hsm, n, i);
    }
    DeservingIncreases(c, hsm, n);
    if forall i | i in v :: i < n && Deserves(c, i, hsm) {
      SameIncreasing(v, Deserving(c, hsm, n), n);
    }
  }

  ghost predicate Increasing(v: seq<nat>, n: nat) {
    (forall a | 0 <= a < |v| :: v[a] < n) && forall a, b :: 0 <= a < b < |v| ==> v[a] < v[b]
  }

  ghost function EntriesOf(cache: Cache?): map<string, int>
    reads cache
  {
    if cache == null then map[] else cache.entries
  }

  ghost function TtlOf(cache: Cache?): int { if cache == null then 0 else cache.ttl }

  /** The hypotheses under which the memory cannot be told from the module. */
  ghost predicate Trusted(c: Call, hsm: Module, before: map<string, int>)
    requires WellFormed(c)
  {
    Truthful(c, hsm) && Coherent(c.lib, hsm) && SoundMemory(c.lib, hsm, before)
  }

  lemma HitIsJustified(c: Call, i: nat, before: map<string, int>, entries: map<string, int>, ttl: int)
    requires WellFormed(c) && i < |c.sigs| && Passed(c, i) && Remembers(c, i, before, entries)
    requires Recalled(c, i, entries, ttl)
    ensures Justified(c, i, before, ttl)
  {
  }

  lemma StoredIsRemembered(c: Call, i: nat, before: map<string, int>, entries: map<string, int>,
                           entries': map<string, int>)
    requires WellFormed(c) && i < |c.sigs| && Passed(c, i) && Remembers(c, i, before, entries)
    requires forall k :: k in entries' ==>
      || (k in entries && entries'[k] == entries[k])
      || (k == KeyAt(c, i) && c.x.answers[i].Positive? && entries'[k] == c.x.store[i])
    ensures Remembers(c, i + 1, before, entries')
  {
  }

  /** Under the hypotheses, acceptance is the verdict and the memory stays sound. */
  lemma TrustedStep(c: Call, i: nat, hsm: Module, before: map<string, int>, entries: map<string, int>,
                    entries': map<string, int>)
    requires WellFormed(c) && i < |c.sigs| && Passed(c, i) && Trusted(c, hsm, before)
    requires SoundMemory(c.lib, hsm, entries)
    requires forall k :: k in entries' ==> k in entries || (k == KeyAt(c, i) && c.x.answers[i].Positive?)
    ensures SoundMemory(c.lib, hsm, entries')
    ensures Deserves(c, i, hsm) <==> c.x.answers[i].Positive?
    ensures KeyAt(c, i) in entries ==> Deserves(c, i, hsm)
  {
  }

  /** Why a signature that is not accepted is not. */
  ghost function WhyNot(c: Call, i: nat): SignatureError
    requires WellFormed(c) && i < |c.sigs|
  {
    match Gate(c.lib, c.ref, c.digest, c.sigs[i])
    case Err(e) => e
    case Ok(_) => if c.x.answers[i].Failed? then CallFailed else NotVerified
  }

  /** The memory answers for the signature. */
  ghost predicate Recalled(c: Call, i: nat, entries: map<string, int>, ttl: int)
    requires WellFormed(c) && i < |c.sigs|
  {
    Passed(c, i) && KeyAt(c, i) in entries && c.x.look[i] <= entries[KeyAt(c, i)] + ttl
  }

  /** What one signature does to the memory: only a positive answer that was asked for is added. */
  ghost predicate Learns(c: Call, i: nat, before: map<string, int>, after: map<string, int>, capacity: int, ttl: int)
    requires WellFormed(c) && i < |c.sigs|
  {
    if Answered(c, i) && !Recalled(c, i, before, ttl) && capacity > 0 && ttl > 0 then
      Adds(before, after, KeyAt(c, i), c.x.store[i], capacity)
    else after == before
  }

  /** The first n signatures, one after the other: accepted is exactly what is remembered or answered positively. */
  ghost predicate Goes(c: Call, n: nat, before: map<string, int>, after: map<string, int>, capacity: int, ttl: int,
                       verified: seq<nat>)
    requires WellFormed(c) && n <= |c.sigs|
    decreases n, 0
  {
    if n == 0 then after == before && verified == [] else GoesTo(c, n - 1, before, after, capacity, ttl, verified)
  }

  ghost predicate GoesTo(c: Call, i: nat, before: map<string, int>, after: map<string, int>, capacity: int, ttl: int,
                         verified: seq<nat>)
    requires WellFormed(c) && i < |c.sigs|
    decreases i, 1
  {
    exists mid ::
      && Learns(c, i, mid, after, capacity, ttl)
      && if Recalled(c, i, mid, ttl) || Answered(c, i) then
           var m := |verified| - 1;
           m >= 0 && verified[m] == i && Goes(c, i, before, mid, capacity, ttl, verified[..m])
         else Goes(c, i, before, mid, capacity, ttl, verified)
  }

  lemma GoesOn(c: Call, i: nat, before: map<string, int>, mid: map<string, int>, after: map<string, int>, capacity: int,
               ttl: int, verified: seq<nat>)
    requires WellFormed(c) && i < |c.sigs| && Goes(c, i, before, mid, capacity, ttl, verified)
    requires Learns(c, i, mid, after, capacity, ttl)
    ensures Goes(c, i + 1, before, after, capacity, ttl,
                 if Recalled(c, i, mid, ttl) || Answered(c, i) then verified + [i] else verified)
  {
    hide Learns, Recalled, Answered;
    assert (verified + [i])[..|verified|] == verified;
  }

  /** One signature. */
  method TryNext(c: Call, cache: Cache?, i: nat, ghost before: map<string, int>, ghost hsm: Module)
    returns (failure: Option<SignatureError>)
    requires WellFormed(c) && i < |c.sigs| && (cache != null ==> cache.Valid())
    requires Remembers(c, i, before, EntriesOf(cache))
    modifies cache
    ensures cache != null ==> cache.Valid()
    ensures failure.None? ==> Justified(c, i, before, TtlOf(cache))
    ensures failure.Some? ==> failure.value == WhyNot(c, i)
    ensures failure.None? <==> Answered(c, i) || (cache != null && Recalled(c, i, old(cache.entries), cache.ttl))
    ensures cache != null ==> Learns(c, i, old(cache.entries), cache.entries, cache.capacity, cache.ttl)
    ensures Remembers(c, i + 1, before, EntriesOf(cache))
    ensures Trusted(c, hsm, before) && SoundMemory(c.lib, hsm, old(EntriesOf(cache))) ==>
      (failure.None? <==> Deserves(c, i, hsm)) && SoundMemory(c.lib, hsm, EntriesOf(cache))
  {
    var gate := Gate(c.lib, c.ref, c.digest, c.sigs[i]);
    if gate.Err? {
      return Some(gate.error);
    }
    ghost var entries := EntriesOf(cache);
    var key := CacheKey(c.lib.sum, gate.value, c.ref.signer);
    failure := TryOne(cache, key, c.x.answers[i], c.x.look[i], c.x.store[i]);
    StoredIsRemembered(c, i, before, entries, EntriesOf(cache));
    if Trusted(c, hsm, before) && SoundMemory(c.lib, hsm, entries) {
      TrustedStep(c, i, hsm, before, entries, EntriesOf(cache));
    }
    if failure.None? && !c.x.answers[i].Positive? {
      HitIsJustified(c, i, before, entries, TtlOf(cache));
    }
  }

  /** The accepted ones among the first n: in order, each justified, and every one answered positively among them. */
  ghost predicate Accepts(c: Call, n: nat, verified: seq<nat>, before: map<string, int>, ttl: int)
    requires WellFormed(c) && n <= |c.sigs|
  {
    && Increasing(verified, n)
    && (forall i | i in verified :: i < n && Justified(c, i, before, ttl))
    && (forall i | 0 <= i < n :: Answered(c, i) ==> i in verified)
  }

  lemma AcceptsNext(c: Call, i: nat, verified: seq<nat>, before: map<string, int>, ttl: int)
    requires WellFormed(c) && i < |c.sigs| && Accepts(c, i, verified, before, ttl)
    ensures Justified(c, i, before, ttl) ==> Accepts(c, i + 1, verified + [i], before, ttl)
    ensures !Answered(c, i) ==> Accepts(c, i + 1, verified, before, ttl)
  {
  }

  lemma NoneTried(c: Call, hsm: Module, before: map<string, int>, capacity: int, ttl: int)
    requires WellFormed(c)
    ensures Accepts(c, 0, [], before, ttl) && Remembers(c, 0, before, before)
    ensures Goes(c, 0, before, before, capacity, ttl, [])
    ensures Trusted(c, hsm, before) ==> Deserving(c, hsm, 0) == [] && SoundMemory(c.lib, hsm, before)
  {
  }

  /** The loop over the signatures. */
  method TrySignatures(c: Call, cache: Cache?, ghost hsm: Module)
    returns (verified: seq<nat>, lastErr: Option<(nat, SignatureError)>)
    requires WellFormed(c) && (cache != null ==> cache.Valid())
    modifies cache
    ensures cache != null ==> cache.Valid()
    ensures Accepts(c, |c.sigs|, verified, old(EntriesOf(cache)), TtlOf(cache))
    ensures cache == null ==> forall i | i in verified :: i < |c.sigs| && Answered(c, i)
    ensures Remembers(c, |c.sigs|, old(EntriesOf(cache)), EntriesOf(cache))
    ensures cache != null ==>
      Goes(c, |c.sigs|, old(cache.entries), cache.entries, cache.capacity, cache.ttl, verified)
    ensures c.sigs != [] && verified == [] ==> lastErr == Some((|c.sigs| - 1, WhyNot(c, |c.sigs| - 1)))
    ensures Trusted(c, hsm, old(EntriesOf(cache))) ==>
      verified == Deserving(c, hsm, |c.sigs|) && SoundMemory(c.lib, hsm, EntriesOf(cache))
  {
    hide Goes, Learns, Recalled, Accepts, Remembers, Trusted, SoundMemory, Justified, Answered, Deserves;
    verified, lastErr := [], None;
    ghost var before := EntriesOf(cache);
    NoneTried(c, hsm, before, if cache == null then 0 else cache.capacity, TtlOf(cache));
    for i := 0 to |c.sigs|
      invariant cache != null ==> cache.Valid()
      invariant Accepts(c, i, verified, before, TtlOf(cache))
      invariant cache == null ==> forall j | j in verified :: j < i && Answered(c, j)
      invariant Remembers(c, i, before, EntriesOf(cache))
      invariant cache != null ==> Goes(c, i, before, cache.entries, cache.capacity, cache.ttl, verified)
      invariant i > 0 && verified == [] ==> lastErr == Some((i - 1, WhyNot(c, i - 1)))
      invariant Trusted(c, hsm, before) ==>
        verified == Deserving(c, hsm, i) && SoundMemory(c.lib, hsm, EntriesOf(cache))
    {
      ghost var mid := EntriesOf(cache);
      var failure := TryNext(c, cache, i, before, hsm);
      if cache != null {
        GoesOn(c, i, before, mid, cache.entries, cache.capacity, cache.ttl, verified);
      }
      AcceptsNext(c, i, verified, before, TtlOf(cache));
      if failure.Some? {
        lastErr := Some((i, failure.value));
      } else {
        verified := verified + [i];
      }
    }
  }

  ghost predicate Deserved(c: Call, hsm: Module, r: Result<seq<nat>, VerifyError>) {
    if Deserving(c, hsm, |c.sigs|) == [] then r.Err? else r == Ok(Deserving(c, hsm, |c.sigs|))
  }

  /**
   The entry point. The result holds, in order, signatures that passed the gates and are justified by an answer of the
   module, now or within the time to live; and, under the hypotheses on the module, it is the same with and without
   memory.
   */
  method Verify(lib: Library, ref: Option<GMSignatureRef>, hasClient: bool, fetched: Result<seq<Signature>, string>,
                digest: string, cache: Cache?, x: Exchange, ghost hsm: Module)
    returns (r: Result<seq<nat>, VerifyError>)
    requires cache != null ==> cache.Valid()
    requires fetched.Ok? ==> |x.answers| == |x.look| == |x.store| == |fetched.value|
    modifies cache
    ensures cache != null ==> cache.Valid()
    ensures Validate(ref).Some? ==> r == Err(Config(Validate(ref).value))
    ensures Validate(ref).None? && !hasClient ==> r == Err(NoClient)
    ensures Validate(ref).None? && hasClient && fetched.Err? ==> r == Err(FetchFailed(fetched.error))
    ensures Validate(ref).None? && hasClient && fetched == Ok([]) ==> r == Err(NoSignatures)
    ensures Validate(ref).None? && hasClient && fetched.Ok? && fetched.value != [] ==>
      var c := Call(lib, ref.value, digest, fetched.value, x);
      && Accepts(c, |c.sigs|, if r.Ok? then r.value else [], old(EntriesOf(cache)), TtlOf(cache))
      && Remembers(c, |c.sigs|, old(EntriesOf(cache)), EntriesOf(cache))
      && (cache != null ==>
            Goes(c, |c.sigs|, old(cache.entries), cache.entries, cache.capacity, cache.ttl,
                 if r.Ok? then r.value else []))
      && (r.Ok? ==> r.value != [])
      && (r.Err? ==> r.error == NoneVerified(|c.sigs| - 1, WhyNot(c, |c.sigs| - 1)))
      && (Trusted(c, hsm, old(EntriesOf(cache))) ==>
            Deserved(c, hsm, r) && SoundMemory(lib, hsm, EntriesOf(cache)))
  {
    var invalid := Validate(ref);
    if invalid.Some? {
      return Err(Config(invalid.value));
    }
    if !hasClient {
      return Err(NoClient);
    }
    if fetched.Err? {
      return Err(FetchFailed(fetched.error));
    }
    if fetched.value == [] {
      return Err(NoSignatures);
    }
    var c := Call(lib, ref.value, digest, fetched.value, x);
    var verified, lastErr := TrySignatures(c, cache, hsm);
    if verified == [] {
      return Err(NoneVerified(lastErr.value.0, lastErr.value.1));
    }
    return Ok(verified);
  }

  /** A digest without collisions tells apart pairs whose signatures have one length, or that name one signer. */
  lemma KeysTellApart(lib: Library, bytes: Bytes, signer: SignerTriple, bytes': Bytes, signer': SignerTriple)
    requires ShortParts(signer) && ShortParts(signer') && (|bytes| == |bytes'| || signer == signer')
    requires lib.sum(Preimage(bytes, signer)) == lib.sum(Preimage(bytes', signer')) ==>
      Preimage(bytes, signer) == Preimage(bytes', signer')
    ensures Key(lib, signer, bytes) == Key(lib, signer', bytes') <==> bytes == bytes' && signer == signer'
  {
    PreimageDecodes(bytes, signer, bytes', signer');
  }

  /**
   Questions whose keys tell them apart: signer parts are short, signatures have one length or name one signer, the
   digest does not collide on what is hashed, and one signature of one signer always comes with one payload, for one
   module.
   */
  ghost predicate ToldApart(lib: Library, u: Use, u': Use) {
    && ShortParts(u.ref.signer) && ShortParts(u'.ref.signer)
    && (|u.bytes| == |u'.bytes| || u.ref.signer == u'.ref.signer)
    && (lib.sum(Preimage(u.bytes, u.ref.signer)) == lib.sum(Preimage(u'.bytes, u'.ref.signer)) ==>
          Preimage(u.bytes, u.ref.signer) == Preimage(u'.bytes, u'.ref.signer))
    && (u.bytes == u'.bytes && u.ref.signer == u'.ref.signer ==> u == u')
  }

  /** Then, whatever the module's verdicts, the memory cannot confuse two of them. */
  lemma CoherentIfToldApart(lib: Library, hsm: Module)
    requires forall u, u' :: u in hsm.uses && u' in hsm.uses ==> ToldApart(lib, u, u')
    ensures Coherent(lib, hsm)
  {
    forall u, u' | u in hsm.uses && u' in hsm.uses && KeyOfUse(lib, u) == KeyOfUse(lib, u') ensures u == u' {
      assert ToldApart(lib, u, u');
      KeysTellApart(lib, u.bytes, u.ref.signer, u'.bytes, u'.ref.signer);
    }
  }
}
