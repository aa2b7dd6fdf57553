/**
 The bytes that are hashed into the key of a remembered verification. Go strings are byte sequences: one char per byte.
 */
module GmCacheKey {
  type Bytes = string

  datatype SignerTriple = SignerTriple(appId: Bytes, nodeId: Bytes, userId: Bytes)

  /** The length as four bytes, the most significant first; what does not fit is cut off. */
  function LengthPrefix(n: nat): (p: Bytes)
    ensures |p| == 4
  {
    [(n / 0x100_0000 % 0x100) as char, (n / 0x1_0000 % 0x100) as char, (n / 0x100 % 0x100) as char, (n % 0x100) as char]
  }

  function Prefixed(b: Bytes): Bytes { LengthPrefix(|b|) + b }

  function Suffix(signer: SignerTriple): Bytes {
    Prefixed(signer.appId) + (Prefixed(signer.nodeId) + Prefixed(signer.userId))
  }

  function Preimage(sig: Bytes, signer: SignerTriple): Bytes { sig + Suffix(signer) }

  predicate Short(b: Bytes) { |b| < 0x1_0000_0000 }

  predicate ShortParts(signer: SignerTriple) { Short(signer.appId) && Short(signer.nodeId) && Short(signer.userId) }

  function Value(p: Bytes): nat
    requires |p| == 4
  {
    p[0] as nat * 0x100_0000 + p[1] as nat * 0x1_0000 + p[2] as nat * 0x100 + p[3] as nat
  }

  /** Four bytes hold every length below 2^32. */
  lemma PrefixHoldsLength(n: nat)
    requires n < 0x1_0000_0000
    ensures Value(LengthPrefix(n)) == n
  {
    assert n / 0x100_0000 < 0x100;
    assert n == (n / 0x100) * 0x100 + n % 0x100;
    assert n / 0x100 == (n / 0x1_0000) * 0x100 + n / 0x100 % 0x100;
    assert n / 0x1_0000 == (n / 0x100_0000) * 0x100 + n / 0x1_0000 % 0x100;
  }

  /** A prefixed part tells where it ends. */
  lemma SplitOff(a: Bytes, b: Bytes, restA: Bytes, restB: Bytes)
    requires Short(a) && Short(b) && Prefixed(a) + restA == Prefixed(b) + restB
    ensures a == b && restA == restB
  {
    var x, y := Prefixed(a) + restA, Prefixed(b) + restB;
    assert x[..4] == LengthPrefix(|a|) && y[..4] == LengthPrefix(|b|);
    PrefixHoldsLength(|a|);
    PrefixHoldsLength(|b|);
    assert x[4..4 + |a|] == a && y[4..4 + |b|] == b;
    assert x[4 + |a|..] == restA && y[4 + |b|..] == restB;
  }

  lemma SuffixDecodes(s: SignerTriple, t: SignerTriple)
    requires ShortParts(s) && ShortParts(t) && Suffix(s) == Suffix(t)
    ensures s == t
  {
    SplitOff(s.appId, t.appId, Prefixed(s.nodeId) + Prefixed(s.userId), Prefixed(t.nodeId) + Prefixed(t.userId));
    SplitOff(s.nodeId, t.nodeId, Prefixed(s.userId), Prefixed(t.userId));
    assert Prefixed(s.userId) + [] == Prefixed(t.userId) + [];
    SplitOff(s.userId, t.userId, [], []);
  }

  /** Signatures of one length, or signatures for one signer: the hashed bytes determine signature and signer. */
  lemma PreimageDecodes(sig: Bytes, signer: SignerTriple, sig': Bytes, signer': SignerTriple)
    requires ShortParts(signer) && ShortParts(signer')
    requires |sig| == |sig'| || signer == signer'
    ensures Preimage(sig, signer) == Preimage(sig', signer') <==> sig == sig' && signer == signer'
  {
    if Preimage(sig, signer) == Preimage(sig', signer') {
      var p, p' := Preimage(sig, signer), Preimage(sig', signer');
      assert |sig| == |sig'|;
      assert p[..|sig|] == sig && p'[..|sig|] == sig';
      assert p[|sig|..] == Suffix(signer) && p'[|sig|..] == Suffix(signer');
      SuffixDecodes(signer, signer');
    }
  }

  /**
   The signature itself has no length before it, so every signature has a longer one that absorbs the start of an
   application id.
   */
  lemma PreimageCollision(sig: Bytes, x: char, nodeId: Bytes, userId: Bytes)
    ensures var zero := 0 as char;
      Preimage(sig, SignerTriple([zero, zero, zero, 1 as char, x], nodeId, userId)) ==
      Preimage(sig + [zero, zero, zero, 5 as char], SignerTriple([x], nodeId, userId))
  {
    var zero := 0 as char;
    var long, short := [zero, zero, zero, 1 as char, x], [zero, zero, zero, 5 as char];
    var rest := Prefixed(nodeId) + Prefixed(userId);
    assert Prefixed(long) == short + Prefixed([x]);
    assert sig + (Prefixed(long) + rest) == (sig + short) + (Prefixed([x]) + rest);
  }

  // ---------- writing the key ----------

  /** A running hash, known by what has been written to it. */
  class Hasher {
    var written: Bytes

    constructor ()
      ensures written == []
    {
      written := [];
    }

    method Write(b: Bytes)
      modifies this
      ensures written == old(written) + b
    {
      written := written + b;
    }
  }

  method WriteLen(h: Hasher, b: Bytes)
    modifies h
    ensures h.written == old(h.written) + Prefixed(b)
  {
    var lenBuf := new char[4];
    lenBuf[0] := (|b| / 0x100_0000 % 0x100) as char;
    lenBuf[1] := (|b| / 0x1_0000 % 0x100) as char;
    lenBuf[2] := (|b| / 0x100 % 0x100) as char;
    lenBuf[3] := (|b| % 0x100) as char;
    assert lenBuf[..] == LengthPrefix(|b|);
    h.Write(lenBuf[..]);
    h.Write(b);
    assert h.written == old(h.written) + Prefixed(b);
  }

  /** The key is the digest of the pre-image. */
  method CacheKey(sum: Bytes -> string, sig: Bytes, signer: SignerTriple) returns (key: string)
    ensures key == sum(Preimage(sig, signer))
    ensures key == sum(sig + LengthPrefix(|signer.appId|) + signer.appId + LengthPrefix(|signer.nodeId|) + signer.nodeId
                       + LengthPrefix(|signer.userId|) + signer.userId)
  {
    var h := new Hasher();
    h.Write(sig);
    WriteLen(h, signer.appId);
    WriteLen(h, signer.nodeId);
    WriteLen(h, signer.userId);
    assert h.written == Preimage(sig, signer);
    assert h.written == sig + LengthPrefix(|signer.appId|) + signer.appId + LengthPrefix(|signer.nodeId|) +
      signer.nodeId + LengthPrefix(|signer.userId|) + signer.userId;
    key := sum(h.written);
  }
}
