/** The proof-of-work search (pow/deepseek_pow.go): the prefix is absorbed once, every nonce is
    written by hand behind what is left of it, and one or two blocks finish the hash. */
module ProofOfWork {
  import opened Options
  import opened HexDigits
  import opened Keccak
  import opened Sponge

  type Int64 = i: int | -0x8000_0000_0000_0000 <= i < 0x8000_0000_0000_0000

  const DIGITS: seq<bv8> := [0x30, 0x31, 0x32, 0x33, 0x34, 0x35, 0x36, 0x37, 0x38, 0x39]

  function Digit(d: nat): bv8
    requires d < 10
  {
    DIGITS[d]
  }

  function Decimal(n: nat): (s: seq<bv8>)
    ensures |s| > 0
  {
    if n < 10 then [Digit(n)] else Decimal(n / 10) + [Digit(n % 10)]
  }

  function DigitValue(b: bv8): nat {
    if b == 0x31 then 1 else if b == 0x32 then 2 else if b == 0x33 then 3
    else if b == 0x34 then 4 else if b == 0x35 then 5 else if b == 0x36 then 6
    else if b == 0x37 then 7 else if b == 0x38 then 8 else if b == 0x39 then 9 else 0
  }

  function Value(s: seq<bv8>): nat {
    if s == [] then 0 else 10 * Value(s[..|s| - 1]) + DigitValue(s[|s| - 1])
  }

  /** The digits read back give the number. */
  lemma {:induction false} DecimalReadsBack(n: nat)
    ensures Value(Decimal(n)) == n
  {
    DigitReadsBack(n % 10);
    if n >= 10 {
      DecimalReadsBack(n / 10);
      assert Decimal(n)[..|Decimal(n)| - 1] == Decimal(n / 10);
    }
  }

  lemma DigitReadsBack(d: nat)
    requires d < 10
    ensures DigitValue(Digit(d)) == d
  {
  }

  function FormatInt(i: int): seq<bv8> {
    if i < 0 then [0x2D] + Decimal(-i) else Decimal(i)
  }

  const UNDERSCORE: bv8 := 0x5F

  function BuildPrefix(salt: seq<bv8>, expireAt: Int64): seq<bv8> {
    salt + [UNDERSCORE] + FormatInt(expireAt) + [UNDERSCORE]
  }

  // What the prefix and a nonce are as a text.

  predicate IsDigit(b: bv8) {
    b in DIGITS
  }

  /** Decimal digits without a leading zero. */
  predicate IsNumber(s: seq<bv8>) {
    s != [] && (forall i :: 0 <= i < |s| ==> IsDigit(s[i])) && (|s| > 1 ==> s[0] != 0x30)
  }

  predicate IsSigned(s: seq<bv8>) {
    if s != [] && s[0] == 0x2D then IsNumber(s[1..]) && s[1..] != [0x30] else IsNumber(s)
  }

  function SignedValue(s: seq<bv8>): int {
    if s != [] && s[0] == 0x2D then 0 - Value(s[1..]) else Value(s)
  }

  /** The last underscore before position `n`, or -1. */
  function LastUnderscore(s: seq<bv8>, n: nat): (r: int)
    requires n <= |s|
    ensures -1 <= r < n && (r >= 0 ==> s[r] == UNDERSCORE) && forall i :: r < i < n ==> s[i] != UNDERSCORE
  {
    if n == 0 then -1 else if s[n - 1] == UNDERSCORE then n - 1 else LastUnderscore(s, n - 1)
  }

  /** The text, split at its last two underscores, is this salt, this expiry and this nonce. */
  predicate ReadsAs(s: seq<bv8>, salt: seq<bv8>, expireAt: int, n: nat) {
    var j := LastUnderscore(s, |s|);
    j >= 0 &&
    var i := LastUnderscore(s, j);
    && i >= 0 && s[..i] == salt
    && IsSigned(s[i + 1..j]) && SignedValue(s[i + 1..j]) == expireAt
    && IsNumber(s[j + 1..]) && Value(s[j + 1..]) == n
  }

  lemma {:induction false} DecimalIsNumber(n: nat)
    ensures IsNumber(Decimal(n)) && (n > 0 ==> Decimal(n)[0] != 0x30)
  {
    if n >= 10 {
      DecimalIsNumber(n / 10);
    }
  }

  lemma DigitOf(b: bv8)
    requires IsDigit(b)
    ensures DigitValue(b) < 10 && Digit(DigitValue(b)) == b
  {
  }

  /** A number is read from one text only. */
  lemma {:induction false} NumberIsDecimal(s: seq<bv8>)
    requires IsNumber(s)
    ensures Decimal(Value(s)) == s
  {
    var k := |s| - 1;
    DigitOf(s[k]);
    assert s == s[..k] + [s[k]];
    if k > 0 {
      NumberIsDecimal(s[..k]);
      NumberIsPositive(s[..k]);
      assert Value(s) / 10 == Value(s[..k]) && Value(s) % 10 == DigitValue(s[k]);
    } else {
      assert s[..k] == [];
    }
  }

  lemma {:induction false} NumberIsPositive(s: seq<bv8>)
    requires IsNumber(s) && s[0] != 0x30
    ensures Value(s) > 0
  {
    var k := |s| - 1;
    DigitOf(s[k]);
    if k > 0 {
      NumberIsPositive(s[..k]);
    } else {
      assert s[..k] == [];
    }
  }

  lemma NoUnderscore(s: seq<bv8>)
    requires IsSigned(s)
    ensures UNDERSCORE !in s
  {
    forall i | 0 <= i < |s| ensures s[i] != UNDERSCORE {
      assert IsDigit(s[i]) || s[i] == 0x2D by {
        if s[0] == 0x2D && i > 0 {
          assert IsDigit(s[1..][i - 1]);
        }
      }
    }
  }

  lemma Unsigned(s: seq<bv8>)
    requires IsNumber(s)
    ensures IsSigned(s) && SignedValue(s) == Value(s)
  {
    hide Value;
    assert IsDigit(s[0]);
  }

  lemma WithMinus(s: seq<bv8>)
    requires IsNumber(s) && s != [0x30]
    ensures IsSigned([0x2D] + s) && SignedValue([0x2D] + s) == 0 - Value(s)
  {
    hide Value, IsNumber;
    assert ([0x2D] + s)[1..] == s;
  }

  lemma ZeroIs()
    ensures Value([0x30]) == 0
  {
    assert [0x30 as bv8][..0] == [];
  }

  lemma FormatIntReads(i: int)
    ensures IsSigned(FormatInt(i)) && SignedValue(FormatInt(i)) == i
  {
    hide Decimal, Value, IsNumber, IsSigned, SignedValue;
    var n := if i < 0 then -i else i;
    DecimalIsNumber(n);
    DecimalReadsBack(n);
    ZeroIs();
    if i < 0 {
      WithMinus(Decimal(n));
    } else {
      Unsigned(Decimal(n));
    }
  }

  lemma SignedIsFormatInt(s: seq<bv8>)
    requires IsSigned(s)
    ensures FormatInt(SignedValue(s)) == s
  {
    hide Decimal, Value;
    if s[0] == 0x2D {
      var d := s[1..];
      NumberIsDecimal(d);
      assert s == [0x2D] + d;
      if d[0] != 0x30 {
        NumberIsPositive(d);
      }
    } else {
      NumberIsDecimal(s);
    }
  }

  lemma UnderscoreAt(s: seq<bv8>, n: nat, j: nat)
    requires j < n <= |s| && s[j] == UNDERSCORE && forall i :: j < i < n ==> s[i] != UNDERSCORE
    ensures LastUnderscore(s, n) == j
  {
  }

  lemma TextReads(salt: seq<bv8>, expireAt: Int64, n: nat)
    ensures ReadsAs(BuildPrefix(salt, expireAt) + Decimal(n), salt, expireAt, n)
  {
    hide Decimal, Value, IsNumber, IsSigned, SignedValue, FormatInt;
    var mid, tail := FormatInt(expireAt), Decimal(n);
    var t := BuildPrefix(salt, expireAt) + tail;
    FormatIntReads(expireAt);
    NoUnderscore(mid);
    DecimalIsNumber(n);
    DecimalReadsBack(n);
    NumberNoUnderscore(tail);
    var i, j := |salt|, |salt| + 1 + |mid|;
    assert t[i] == UNDERSCORE && t[j] == UNDERSCORE;
    assert t[..i] == salt && t[i + 1..j] == mid && t[j + 1..] == tail;
    forall k | j < k < |t| ensures t[k] != UNDERSCORE {
      assert t[k] == tail[k - j - 1] && tail[k - j - 1] in tail;
    }
    forall k | i < k < j ensures t[k] != UNDERSCORE {
      assert t[k] == mid[k - i - 1] && mid[k - i - 1] in mid;
    }
    UnderscoreAt(t, |t|, j);
    UnderscoreAt(t, j, i);
  }

  /** Prefix and digits are the one text that reads as salt, expiry and nonce. */
  lemma {:induction false} AnswerTextIff(s: seq<bv8>, salt: seq<bv8>, expireAt: Int64, n: nat)
    ensures s == BuildPrefix(salt, expireAt) + Decimal(n) <==> ReadsAs(s, salt, expireAt, n)
  {
    hide Decimal, Value, IsNumber, IsSigned, SignedValue, FormatInt;
    TextReads(salt, expireAt, n);
    if ReadsAs(s, salt, expireAt, n) {
      var b := LastUnderscore(s, |s|);
      var a := LastUnderscore(s, b);
      SignedIsFormatInt(s[a + 1..b]);
      NumberIsDecimal(s[b + 1..]);
      assert s == s[..a] + [s[a]] + s[a + 1..b] + [s[b]] + s[b + 1..];
    }
  }

  lemma NumberNoUnderscore(s: seq<bv8>)
    requires IsNumber(s)
    ensures UNDERSCORE !in s
  {
    forall i | 0 <= i < |s| ensures s[i] != UNDERSCORE {
      assert IsDigit(s[i]);
    }
  }

  /** The hash of the text a nonce answers with. */
  function Answer(prefix: seq<bv8>, n: nat): seq<bv8> {
    Hash(prefix + Decimal(n))
  }

  function HexValue(c: char): int {
    if '0' <= c <= '9' then c as int - '0' as int
    else if 'a' <= c <= 'f' then c as int - 'a' as int + 10
    else if 'A' <= c <= 'F' then c as int - 'A' as int + 10
    else -1
  }

  /** `hex.DecodeString`. */
  function FromHalves(hi: nat, lo: nat): bv8
    requires hi < 16 && lo < 16
  {
    ((hi as bv8) << 4) | (lo as bv8)
  }

  function HexDecode(s: string): (r: Option<seq<bv8>>)
    ensures r.Some? ==> 2 * |r.value| == |s|
  {
    if s == "" then Some([])
    else if |s| == 1 then None
    else
      var hi, lo := HexValue(s[0]), HexValue(s[1]);
      if hi < 0 || lo < 0 then None
      else
        match HexDecode(s[2..])
        case None => None
        case Some(rest) => Some([FromHalves(hi, lo)] + rest)
  }

  function High(b: bv8): nat {
    (b >> 4) as nat
  }

  function Low(b: bv8): nat {
    (b & 0xF) as nat
  }

  /** Two digits for each byte, the higher half first. */
  ghost predicate WritesBytes(s: string, b: seq<bv8>) {
    |s| == 2 * |b| && forall k :: 0 <= k < |b| ==> WritesByte(s, 2 * k, b[k])
  }

  predicate WritesByte(s: string, i: nat, b: bv8) {
    i + 1 < |s| && WritesDigit(s[i], High(b)) && WritesDigit(s[i + 1], Low(b))
  }

  /** Exactly the texts that write the bytes decode to them. */
  lemma {:induction false} HexDecodeIff(s: string, b: seq<bv8>)
    ensures HexDecode(s) == Some(b) <==> WritesBytes(s, b)
    decreases |s|
  {
    hide WritesByte, HexValue, WritesBytes, FromHalves;
    WritesNext(s, b);
    if |s| >= 2 && b != [] {
      HexDecodeIff(s[2..], b[1..]);
      ByteFrom(s, b[0]);
      assert b == [b[0]] + b[1..];
    }
  }

  lemma WritesNext(s: string, b: seq<bv8>)
    ensures s == "" || b == [] ==> (WritesBytes(s, b) <==> s == "" && b == [])
    ensures |s| == 1 ==> !WritesBytes(s, b)
    ensures |s| >= 2 && b != [] ==> (WritesBytes(s, b) <==> WritesByte(s, 0, b[0]) && WritesBytes(s[2..], b[1..]))
  {
    hide WritesByte;
    if |s| >= 2 && b != [] && |s| == 2 * |b| {
      var t, c := s[2..], b[1..];
      forall k | 0 <= k < |c| ensures WritesByte(t, 2 * k, c[k]) <==> WritesByte(s, 2 * (k + 1), b[k + 1]) {
        LaterByte(s, 2 * k, c[k]);
      }
      if WritesByte(s, 0, b[0]) && WritesBytes(t, c) {
        forall k | 0 <= k < |b| ensures WritesByte(s, 2 * k, b[k]) {
          if k > 0 {
            assert WritesByte(t, 2 * (k - 1), c[k - 1]);
          }
        }
      }
    }
  }

  lemma LaterByte(s: string, i: nat, b: bv8)
    requires |s| >= 2
    ensures WritesByte(s[2..], i, b) <==> WritesByte(s, i + 2, b)
  {
    hide WritesDigit, High, Low;
  }

  lemma ByteFrom(s: string, b: bv8)
    requires |s| >= 2
    ensures var hi, lo := HexValue(s[0]), HexValue(s[1]);
      && -1 <= hi < 16 && -1 <= lo < 16
      && (WritesByte(s, 0, b) <==> hi >= 0 && lo >= 0 && FromHalves(hi, lo) == b)
  {
    hide HexValue, WritesDigit, High, Low, FromHalves;
    var hi, lo := HexValue(s[0]), HexValue(s[1]);
    HexValueIs(s[0]);
    HexValueIs(s[1]);
    HalvesBelow(b);
    HexValueIff(s[0], High(b));
    HexValueIff(s[1], Low(b));
    if hi >= 0 && lo >= 0 {
      HalvesIff(hi, lo, b);
    }
  }

  lemma HalvesBelow(b: bv8)
    ensures High(b) < 16 && Low(b) < 16
  {
  }

  lemma HalvesIff(hi: nat, lo: nat, b: bv8)
    requires hi < 16 && lo < 16
    ensures FromHalves(hi, lo) == b <==> hi == High(b) && lo == Low(b)
  {
    NibbleIff(hi, b >> 4);
    NibbleIff(lo, b & 0xF);
    JoinIff(hi as bv8, lo as bv8, b);
  }

  lemma JoinIff(x: bv8, y: bv8, b: bv8)
    requires x < 16 && y < 16
    ensures (x << 4) | y == b <==> x == b >> 4 && y == b & 0xF
  {
  }

  lemma NibbleIff(n: nat, x: bv8)
    requires n < 16
    ensures n as bv8 < 16 && (n as bv8 == x <==> n == x as nat)
  {
    assert n == 0 || n == 1 || n == 2 || n == 3 || n == 4 || n == 5 || n == 6 || n == 7
      || n == 8 || n == 9 || n == 10 || n == 11 || n == 12 || n == 13 || n == 14 || n == 15;
  }

  lemma HexValueIs(c: char)
    ensures -1 <= HexValue(c) < 16
  {
  }

  lemma HexValueIff(c: char, d: nat)
    requires d < 16
    ensures HexValue(c) == d <==> WritesDigit(c, d)
  {
  }

  datatype Outcome = BadLength | BadHex | Cancelled | Solved(nonce: nat) | Unsolved

  function Pow10(k: nat): nat {
    if k == 0 then 1 else 10 * Pow10(k - 1)
  }

  lemma {:induction false} DecimalLength(n: nat, k: nat)
    requires k > 0 && n < Pow10(k)
    ensures |Decimal(n)| <= k
  {
    if n >= 10 {
      DecimalLength(n / 10, k - 1);
    }
  }

  lemma NonceLength(n: nat)
    requires n < 0x8000_0000_0000_0000
    ensures |Decimal(n)| <= 19
  {
    assert Pow10(5) == 100000;
    assert Pow10(10) == 10000000000;
    assert Pow10(15) == 1000000000000000;
    assert Pow10(19) == 10000000000000000000;
    DecimalLength(n, 19);
  }

  /** Writes the digits of a nonce from the end of the buffer and returns where they start. */
  method FormatNonce(numBuf: array<bv8>, n: nat) returns (pos: nat)
    requires numBuf.Length == 20 && n < 0x8000_0000_0000_0000
    modifies numBuf
    ensures pos <= 20 && numBuf[pos..] == Decimal(n)
  {
    NonceLength(n);
    var v: nat := n;
    pos := 20;
    if v == 0 {
      pos := pos - 1;
      numBuf[pos] := Digit(0);
      assert numBuf[pos..] == [Digit(0)];
      assert Decimal(n) == [Digit(0)];
    } else {
      while v > 0
        invariant pos <= 20
        invariant v > 0 ==> Decimal(n) == Decimal(v) + numBuf[pos..]
        invariant v == 0 ==> Decimal(n) == numBuf[pos..]
      {
        ghost var written := numBuf[pos..];
        assert |Decimal(n)| == |Decimal(v)| + 20 - pos;
        pos := pos - 1;
        numBuf[pos] := Digit(v % 10);
        assert numBuf[pos..] == [Digit(v % 10)] + written;
        v := v / 10;
      }
    }
  }

  /** Copies `bytes` to the start of a zeroed block. */
  method NewBlock(bytes: seq<bv8>) returns (buf: array<bv8>)
    requires |bytes| <= RATE
    ensures fresh(buf) && buf.Length == RATE && buf[..] == bytes + Zeros(RATE - |bytes|)
  {
    buf := new bv8[RATE](_ => 0);
    forall i | 0 <= i < |bytes| {
      buf[i] := bytes[i];
    }
  }

  /** Adds a block to a copy of the state and permutes. */
  method Finish(s: array<bv64>, block: seq<bv8>)
    requires s.Length == 25 && |block| == RATE
    modifies s
    ensures s[..] == Absorb(Permute, old(s[..]), block)
  {
    hide Permute, XorBlock;
    ghost var before := s[..];
    XorInto(s, block);
    KeccakF23(s);
    AbsorbOne(Permute, before, block);
  }

  /** The state compared for one nonce: one block if the digits fit, two if they fill the block. */
  method NonceState(base: array<bv64>, tail: seq<bv8>, digits: seq<bv8>) returns (s: array<bv64>)
    requires base.Length == 25 && |tail| < RATE && |digits| <= 20
    ensures fresh(s) && s.Length == 25
    ensures s[..] == Absorb(Permute, base[..], Pad(tail + digits))
  {
    hide Permute, Absorb, Padding;
    s := new bv64[25](i requires 0 <= i < 25 reads base => base[i]);
    assert s[..] == base[..];
    var totalTail := |tail| + |digits|;
    if totalTail < RATE {
      var buf := FinalBlock(tail + digits);
      Finish(s, buf[..]);
    } else {
      var fits := RATE - |tail|;
      var buf := NewBlock(tail + digits[..fits]);
      assert buf[..] == tail + digits[..fits];
      Finish(s, buf[..]);
      var buf2 := FinalBlock(digits[fits..]);
      ghost var middle := s[..];
      Finish(s, buf2[..]);
      assert tail + digits == buf[..] + digits[fits..];
      PadSplit(buf[..], digits[fits..]);
      AbsorbSplit(Permute, base[..], buf[..], Pad(digits[fits..]));
    }
  }

  /** The search: the least nonce below the difficulty whose hash is the challenge. `cancelled(n)`
      says whether the context is cancelled when the search looks at it, before nonce n. */
  method SolvePow(cancelled: nat -> bool, challengeHex: string, salt: seq<bv8>, expireAt: Int64, difficulty: Int64)
    returns (r: Outcome)
    ensures r.BadLength? <==> |challengeHex| != 64
    ensures r.BadHex? <==> |challengeHex| == 64 && HexDecode(challengeHex).None?
    ensures |challengeHex| == 64 && HexDecode(challengeHex).Some? ==>
      Found(r, cancelled, salt, expireAt, HexDecode(challengeHex).value, difficulty)
  {
    if |challengeHex| != 64 {
      return BadLength;
    }
    var decoded := HexDecode(challengeHex);
    if decoded.None? {
      return BadHex;
    }
    var target := decoded.value;
    var t0, t1 := Word64(target[0..8]), Word64(target[8..16]);
    var t2, t3 := Word64(target[16..24]), Word64(target[24..32]);
    r := Search(cancelled, salt, expireAt, BuildPrefix(salt, expireAt), target, t0, t1, t2, t3, difficulty);
  }

  /** The context is looked at before every 1024th nonce. */
  predicate Stops(cancelled: nat -> bool, n: nat) {
    n % 1024 == 0 && cancelled(n)
  }

  /** The hash of the text that reads as salt, expiry and nonce is the challenge. */
  ghost predicate Solves(salt: seq<bv8>, expireAt: int, n: nat, target: seq<bv8>) {
    exists s :: ReadsAs(s, salt, expireAt, n) && Hash(s) == target
  }

  lemma SolvesIff(salt: seq<bv8>, expireAt: Int64, n: nat, target: seq<bv8>)
    ensures Solves(salt, expireAt, n, target) <==> Answer(BuildPrefix(salt, expireAt), n) == target
  {
    hide Hash, ReadsAs, Decimal, BuildPrefix;
    var t := BuildPrefix(salt, expireAt) + Decimal(n);
    AnswerTextIff(t, salt, expireAt, n);
    forall s | ReadsAs(s, salt, expireAt, n) ensures s == t {
      AnswerTextIff(s, salt, expireAt, n);
    }
  }

  /** What a search that was given a well-formed challenge returns. */
  ghost predicate Found(r: Outcome, cancelled: nat -> bool, salt: seq<bv8>, expireAt: int, target: seq<bv8>,
                        difficulty: int)
  {
    match r
    case Solved(n) =>
      && n < difficulty && Solves(salt, expireAt, n, target)
      && (forall m: nat :: m < n ==> !Solves(salt, expireAt, m, target))
      && (forall m: nat :: m <= n ==> !Stops(cancelled, m))
    case Unsolved =>
      && (forall m: nat :: m < difficulty ==> !Solves(salt, expireAt, m, target))
      && (forall m: nat :: m < difficulty ==> !Stops(cancelled, m))
    case Cancelled =>
      exists n: nat :: n < difficulty && Stops(cancelled, n)
        && (forall m: nat :: m < n ==> !Solves(salt, expireAt, m, target) && !Stops(cancelled, m))
    case _ => false
  }

  method Search(cancelled: nat -> bool, ghost salt: seq<bv8>, ghost expireAt: Int64, prefix: seq<bv8>,
                target: seq<bv8>, t0: bv64, t1: bv64, t2: bv64, t3: bv64, difficulty: Int64)
    returns (r: Outcome)
    requires Words(target, t0, t1, t2, t3) && prefix == BuildPrefix(salt, expireAt)
    ensures Found(r, cancelled, salt, expireAt, target, difficulty)
  {
    hide Absorb, Permute, Answer, Word64, Solves, BuildPrefix;
    var base := new bv64[25](_ => 0);
    assert base[..] == Zero();
    var off := AbsorbBlocks(base, prefix);
    var numBuf := new bv8[20];
    var n := 0;
    while n < difficulty
      invariant 0 <= n
      invariant base[..] == Absorb(Permute, Zero(), prefix[..off])
      invariant forall m: nat :: m < n ==> !Solves(salt, expireAt, m, target) && !Stops(cancelled, m)
      decreases difficulty - n
    {
      if n % 1024 == 0 && cancelled(n) {
        assert Stops(cancelled, n);
        return Cancelled;
      }
      var solved := TryNonce(base, numBuf, prefix, off, n, target, t0, t1, t2, t3, prefix[off..]);
      SolvesIff(salt, expireAt, n, target);
      if solved {
        return Solved(n);
      }
      n := n + 1;
    }
    r := Unsolved;
  }

  /** The four words of the challenge. */
  predicate Words(target: seq<bv8>, t0: bv64, t1: bv64, t2: bv64, t3: bv64) {
    && |target| == 32
    && t0 == Word64(target[0..8]) && t1 == Word64(target[8..16])
    && t2 == Word64(target[16..24]) && t3 == Word64(target[24..32])
  }

  /** One turn of the search. */
  method TryNonce(base: array<bv64>, numBuf: array<bv8>, ghost prefix: seq<bv8>, off: nat, n: nat,
                  ghost target: seq<bv8>, t0: bv64, t1: bv64, t2: bv64, t3: bv64, tail: seq<bv8>)
    returns (solved: bool)
    requires base.Length == 25 && numBuf.Length == 20 && n < 0x8000_0000_0000_0000
    requires off <= |prefix| < off + RATE && off % RATE == 0 && tail == prefix[off..]
    requires base[..] == Absorb(Permute, Zero(), prefix[..off])
    requires Words(target, t0, t1, t2, t3)
    modifies numBuf
    ensures solved <==> Answer(prefix, n) == target
  {
    hide Absorb, Permute, Word64, Digest, Pad, Answer, Decimal;
    var pos := FormatNonce(numBuf, n);
    NonceLength(n);
    var s := NonceState(base, tail, numBuf[pos..]);
    AnswerState(prefix, off, n, s[..]);
    DigestLanes(s[..], target);
    solved := s[0] == t0 && s[1] == t1 && s[2] == t2 && s[3] == t3;
  }

  /** The state compared for a nonce is the state of the plain hash of prefix and digits. */
  lemma {:induction false} AnswerState(prefix: seq<bv8>, off: nat, n: nat, s: Lanes)
    requires off <= |prefix| && off % RATE == 0
    requires s == Absorb(Permute, Absorb(Permute, Zero(), prefix[..off]), Pad(prefix[off..] + Decimal(n)))
    ensures s == HashState(prefix + Decimal(n)) && Answer(prefix, n) == Digest(s)
  {
    hide Absorb, Permute, Pad, Digest;
    HashStateSplit(prefix[..off], prefix[off..] + Decimal(n));
    assert prefix[..off] + (prefix[off..] + Decimal(n)) == prefix + Decimal(n);
  }
}
