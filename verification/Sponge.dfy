/** DeepSeekHashV1 (pow/deepseek_hash.go): the SHA3-256 sponge over the shortened permutation. */
module Sponge {
  import opened Keccak

  const RATE := 136

  function Zero(): Lanes {
    seq(25, _ => 0)
  }

  /** A little-endian word. */
  function Word64(b: seq<bv8>): bv64
    requires |b| == 8
  {
    (b[0] as bv64) | ((b[1] as bv64) << 8) | ((b[2] as bv64) << 16) | ((b[3] as bv64) << 24)
    | ((b[4] as bv64) << 32) | ((b[5] as bv64) << 40) | ((b[6] as bv64) << 48) | ((b[7] as bv64) << 56)
  }

  function ByteOf(w: bv64, shift: bv64): bv8
    requires shift <= 56
  {
    ((w >> shift) & 0xFF) as bv8
  }

  function Bytes64(w: bv64): (b: seq<bv8>)
    ensures |b| == 8
  {
    [ByteOf(w, 0), ByteOf(w, 8), ByteOf(w, 16), ByteOf(w, 24),
     ByteOf(w, 32), ByteOf(w, 40), ByteOf(w, 48), ByteOf(w, 56)]
  }

  lemma WordBytes(w: bv64)
    ensures Word64(Bytes64(w)) == w
  {
  }

  lemma EachByte(b0: bv8, b1: bv8, b2: bv8, b3: bv8, b4: bv8, b5: bv8, b6: bv8, b7: bv8, w: bv64)
    requires w == ((b0 as bv64) | ((b1 as bv64) << 8) | ((b2 as bv64) << 16) | ((b3 as bv64) << 24)
      | ((b4 as bv64) << 32) | ((b5 as bv64) << 40) | ((b6 as bv64) << 48) | ((b7 as bv64) << 56))
    ensures ByteOf(w, 0) == b0
    ensures ByteOf(w, 8) == b1
    ensures ByteOf(w, 16) == b2
    ensures ByteOf(w, 24) == b3
    ensures ByteOf(w, 32) == b4
    ensures ByteOf(w, 40) == b5
    ensures ByteOf(w, 48) == b6
    ensures ByteOf(w, 56) == b7
  {
  }

  lemma BytesWord(b: seq<bv8>)
    requires |b| == 8
    ensures Bytes64(Word64(b)) == b
  {
    hide ByteOf;
    EachByte(b[0], b[1], b[2], b[3], b[4], b[5], b[6], b[7], Word64(b));
  }

  /** A block is added to the first 17 lanes. */
  function XorBlock(s: Lanes, b: seq<bv8>): Lanes
    requires |b| == RATE
  {
    seq(25, i requires 0 <= i < 25 => if i < RATE / 8 then Xor(s[i], Word64(b[8 * i..8 * i + 8])) else s[i])
  }

  /** FIPS 202 section 4: whole blocks absorbed one after the other. */
  function Absorb(f: Lanes -> Lanes, s: Lanes, m: seq<bv8>): Lanes
    requires |m| % RATE == 0
    decreases |m|
  {
    if m == [] then s else Absorb(f, f(XorBlock(s, m[..RATE])), m[RATE..])
  }

  function Zeros(n: nat): seq<bv8> {
    seq(n, _ => 0)
  }

  /** FIPS 202 sections 5.1 and 6.1 on whole bytes: the suffix 01 and pad10*1. */
  function Padding(length: nat): (p: seq<bv8>)
    ensures 1 <= |p| <= RATE && (length + |p|) % RATE == 0
  {
    var n := RATE - length % RATE;
    if n == 1 then [0x86] else [0x06] + Zeros(n - 2) + [0x80]
  }

  function Pad(m: seq<bv8>): (p: seq<bv8>)
    ensures |p| % RATE == 0 && |p| >= RATE
  {
    m + Padding(|m|)
  }

  /** The state the digest is read from. */
  function HashState(m: seq<bv8>): Lanes {
    Absorb(Permute, Zero(), Pad(m))
  }

  function Digest(s: Lanes): seq<bv8> {
    Bytes64(s[0]) + Bytes64(s[1]) + Bytes64(s[2]) + Bytes64(s[3])
  }

  function Hash(m: seq<bv8>): seq<bv8> {
    Digest(HashState(m))
  }

  /** The i-th bit of a byte string, the lowest bit of a byte first (FIPS 202 section B.1). */
  function Bit(b: seq<bv8>, i: nat): bool
    requires i < 8 * |b|
  {
    b[i / 8] & ((1 as bv8) << (i % 8)) != 0
  }

  lemma BitsOf(b: bv8, k: nat)
    requires k < 8
    ensures b == 0 ==> b & ((1 as bv8) << k) == 0
    ensures b == 0x06 ==> (b & ((1 as bv8) << k) != 0 <==> k == 1 || k == 2)
    ensures b == 0x80 ==> (b & ((1 as bv8) << k) != 0 <==> k == 7)
    ensures b == 0x86 ==> (b & ((1 as bv8) << k) != 0 <==> k == 1 || k == 2 || k == 7)
  {
    assert k == 0 || k == 1 || k == 2 || k == 3 || k == 4 || k == 5 || k == 6 || k == 7;
  }

  /** What is appended to a message is 01, a one, zeros and a one, up to the end of a block. */
  lemma PaddingBits(length: nat, i: nat)
    requires i < 8 * |Padding(length)|
    ensures (length + |Padding(length)|) % RATE == 0 && 3 < 8 * |Padding(length)| <= 8 * RATE
    ensures Bit(Padding(length), i) <==> i == 1 || i == 2 || i == 8 * |Padding(length)| - 1
  {
    var p := Padding(length);
    BitsOf(p[i / 8], i % 8);
    assert i == 8 * (i / 8) + i % 8;
  }

  /** A block changes exactly the bits of the rate that it has, and adding it again takes it out:
      twice the digest is out of its reach. */
  lemma {:induction false} XorBlockTwice(s: Lanes, b: seq<bv8>)
    requires |b| == RATE
    ensures XorBlock(XorBlock(s, b), b) == s
    ensures XorBlock(s, b)[RATE / 8..] == s[RATE / 8..] && 8 * |s| == RATE + 2 * |Digest(s)|
  {
    hide Word64;
    forall i | 0 <= i < 25 ensures XorBlock(XorBlock(s, b), b)[i] == s[i] {
      if i < RATE / 8 {
        XorTwice(s[i], Word64(b[8 * i..8 * i + 8]));
      }
    }
  }

  lemma XorTwice(v: bv64, w: bv64)
    ensures Xor(Xor(v, w), w) == v
  {
  }

  lemma {:induction false} WordIff(w: bv64, b: seq<bv8>)
    requires |b| == 8
    ensures Bytes64(w) == b <==> w == Word64(b)
  {
    hide Bytes64, Word64;
    WordBytes(w);
    BytesWord(b);
  }

  lemma FourParts(a: seq<bv8>, b: seq<bv8>, c: seq<bv8>, d: seq<bv8>, t: seq<bv8>)
    requires |a| == |b| == |c| == |d| == 8 && |t| == 32
    ensures a + b + c + d == t <==> a == t[0..8] && b == t[8..16] && c == t[16..24] && d == t[24..32]
  {
    assert t == t[0..8] + t[8..16] + t[16..24] + t[24..32];
    var m := a + b + c + d;
    assert m[0..8] == a && m[8..16] == b && m[16..24] == c && m[24..32] == d;
  }

  /** Two digests agree exactly when the four lanes they are read from agree. */
  lemma {:induction false} DigestLanes(s: Lanes, target: seq<bv8>)
    requires |target| == 32
    ensures Digest(s) == target <==>
      && s[0] == Word64(target[0..8]) && s[1] == Word64(target[8..16])
      && s[2] == Word64(target[16..24]) && s[3] == Word64(target[24..32])
  {
    hide Bytes64, Word64;
    FourParts(Bytes64(s[0]), Bytes64(s[1]), Bytes64(s[2]), Bytes64(s[3]), target);
    WordIff(s[0], target[0..8]);
    WordIff(s[1], target[8..16]);
    WordIff(s[2], target[16..24]);
    WordIff(s[3], target[24..32]);
  }

  lemma {:induction false} AbsorbSplit(f: Lanes -> Lanes, s: Lanes, a: seq<bv8>, b: seq<bv8>)
    requires |a| % RATE == 0 && |b| % RATE == 0
    ensures |a + b| % RATE == 0 && Absorb(f, s, a + b) == Absorb(f, Absorb(f, s, a), b)
    decreases |a|
  {
    hide XorBlock;
    if a == [] {
      assert a + b == b;
    } else {
      assert (a + b)[..RATE] == a[..RATE] && (a + b)[RATE..] == a[RATE..] + b;
      AbsorbSplit(f, f(XorBlock(s, a[..RATE])), a[RATE..], b);
    }
  }

  lemma AbsorbOne(f: Lanes -> Lanes, s: Lanes, b: seq<bv8>)
    requires |b| == RATE
    ensures Absorb(f, s, b) == f(XorBlock(s, b))
  {
    hide XorBlock;
    assert b[..RATE] == b && b[RATE..] == [];
  }

  /** Padding only looks at what follows the last whole block. */
  lemma {:induction false} PadSplit(a: seq<bv8>, b: seq<bv8>)
    requires |a| % RATE == 0
    ensures Pad(a + b) == a + Pad(b)
  {
    assert |a + b| % RATE == |b| % RATE;
    assert (a + b) + Padding(|b|) == a + (b + Padding(|b|));
  }

  /** Absorbing a prefix first changes nothing. */
  lemma {:induction false} HashStateSplit(a: seq<bv8>, b: seq<bv8>)
    requires |a| % RATE == 0
    ensures HashState(a + b) == Absorb(Permute, Absorb(Permute, Zero(), a), Pad(b))
  {
    hide Absorb, Permute;
    PadSplit(a, b);
    AbsorbSplit(Permute, Zero(), a, Pad(b));
  }

  /** Padded messages are equal only if the messages are. */
  lemma PadInjective(a: seq<bv8>, b: seq<bv8>)
    requires Pad(a) == Pad(b)
    ensures a == b
  {
    if |a| < |b| {
      PadTooShort(a, b);
    } else if |b| < |a| {
      PadTooShort(b, a);
    } else {
      assert a == Pad(a)[..|a|] && b == Pad(b)[..|b|];
    }
  }

  lemma PadTooShort(a: seq<bv8>, b: seq<bv8>)
    requires |a| < |b|
    ensures Pad(a) != Pad(b)
  {
    if |Pad(a)| == |Pad(b)| {
      var k := |b|;
      assert Pad(b)[k] == 0x06 || Pad(b)[k] == 0x86;
      assert Pad(a)[k] == Padding(|a|)[k - |a|];
      assert Pad(a)[k] == 0 || Pad(a)[k] == 0x80;
    }
  }

  /** Adds a block to the state in place. */
  method XorInto(s: array<bv64>, block: seq<bv8>)
    requires s.Length == 25 && |block| == RATE
    modifies s
    ensures s[..] == XorBlock(old(s[..]), block)
  {
    hide Word64, Xor;
    for i := 0 to RATE / 8
      invariant forall j :: 0 <= j < i ==> s[j] == Xor(old(s[j]), Word64(block[8 * j..8 * j + 8]))
      invariant forall j :: i <= j < 25 ==> s[j] == old(s[j])
    {
      s[i] := Xor(s[i], Word64(block[i * 8..i * 8 + 8]));
    }
  }

  /** Absorbs every whole block of `data` and returns where the rest starts. */
  method AbsorbBlocks(s: array<bv64>, data: seq<bv8>) returns (off: nat)
    requires s.Length == 25
    modifies s
    ensures off <= |data| < off + RATE && off % RATE == 0
    ensures s[..] == Absorb(Permute, old(s[..]), data[..off])
  {
    hide XorBlock, Permute;
    off := 0;
    while off + RATE <= |data|
      invariant off <= |data| && off % RATE == 0
      invariant s[..] == Absorb(Permute, old(s[..]), data[..off])
    {
      ghost var before := s[..];
      XorInto(s, data[off..off + RATE]);
      KeccakF23(s);
      AbsorbOne(Permute, before, data[off..off + RATE]);
      assert data[..off + RATE] == data[..off] + data[off..off + RATE];
      AbsorbSplit(Permute, old(s[..]), data[..off], data[off..off + RATE]);
      off := off + RATE;
    }
  }

  /** The last block as the source builds it: two bytes written into a zeroed buffer. */
  method FinalBlock(rest: seq<bv8>) returns (final: array<bv8>)
    requires |rest| < RATE
    ensures fresh(final) && final.Length == RATE && final[..] == Pad(rest)
  {
    final := new bv8[RATE](_ => 0);
    forall i | 0 <= i < |rest| {
      final[i] := rest[i];
    }
    final[|rest|] := 0x06;
    final[RATE - 1] := final[RATE - 1] | 0x80;
    LastBits();
    assert |Pad(rest)| == RATE;
    assert forall i :: 0 <= i < RATE ==> final[i] == Pad(rest)[i];
  }

  lemma LastBits()
    ensures (0x06 as bv8) | 0x80 == 0x86 && (0 as bv8) | 0x80 == 0x80
  {
  }

  method DeepSeekHashV1(data: seq<bv8>) returns (out: seq<bv8>)
    ensures out == Hash(data)
  {
    hide XorBlock, Permute, Absorb, Bytes64;
    var s := new bv64[25](_ => 0);
    assert s[..] == Zero();
    var off := AbsorbBlocks(s, data);
    var final := FinalBlock(data[off..]);
    ghost var before := s[..];
    XorInto(s, final[..]);
    KeccakF23(s);
    AbsorbOne(Permute, before, final[..]);
    HashStateSplit(data[..off], data[off..]);
    assert data[..off] + data[off..] == data;
    out := Bytes64(s[0]) + Bytes64(s[1]) + Bytes64(s[2]) + Bytes64(s[3]);
  }
}
