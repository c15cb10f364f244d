/** The permutation of the proof-of-work hash (pow/deepseek_hash.go) against the step mappings of
    FIPS 202: Keccak-f[1600] without its first round. */
module Keccak {

  type Lanes = s: seq<bv64> | |s| == 25 witness seq(25, _ => 0)

  /** The source's rotation, made of shifts. */
  function Rotl(v: bv64, k: nat): bv64
    requires k < 64
  {
    (v << k) | (v >> (64 - k))
  }

  /** Rotation of a lane, as the standard's step mappings use it. */
  function Rot(v: bv64, k: nat): bv64
    requires k < 64
  {
    v.RotateLeft(k)
  }

  function Xor(v: bv64, w: bv64): bv64 {
    v ^ w
  }

  function AndNot(v: bv64, w: bv64): bv64 {
    !v & w
  }

  function Xor5(v0: bv64, v1: bv64, v2: bv64, v3: bv64, v4: bv64): bv64 {
    v0 ^ v1 ^ v2 ^ v3 ^ v4
  }

  // FIPS 202 section 3.1: the state is an array of five planes of five lanes.
  datatype Plane = Plane(x0: bv64, x1: bv64, x2: bv64, x3: bv64, x4: bv64) {
    function At(x: nat): bv64
      requires x < 5
    {
      if x == 0 then x0 else if x == 1 then x1 else if x == 2 then x2 else if x == 3 then x3 else x4
    }
  }

  datatype State = State(y0: Plane, y1: Plane, y2: Plane, y3: Plane, y4: Plane) {
    function Row(y: nat): Plane
      requires y < 5
    {
      if y == 0 then y0 else if y == 1 then y1 else if y == 2 then y2 else if y == 3 then y3 else y4
    }

    /** Lane A[x, y]. */
    function At(x: nat, y: nat): bv64
      requires x < 5 && y < 5
    {
      Row(y).At(x)
    }
  }

  type LaneMap = f: (nat, nat) --> bv64 | forall x, y :: x < 5 && y < 5 ==> f.requires(x, y)
    witness (x: nat, y: nat) requires x < 5 && y < 5 => 0

  function MakePlane(f: LaneMap, y: nat): Plane
    requires y < 5
  {
    Plane(f(0, y), f(1, y), f(2, y), f(3, y), f(4, y))
  }

  /** The state whose lane at x, y is f(x, y). */
  function Make(f: LaneMap): State {
    State(MakePlane(f, 0), MakePlane(f, 1), MakePlane(f, 2), MakePlane(f, 3), MakePlane(f, 4))
  }

  // FIPS 202 section 3.1.2: lane A[x, y] is word x + 5y.
  function ToState(s: Lanes): State {
    Make((x: nat, y: nat) requires x < 5 && y < 5 => s[x + 5 * y])
  }

  function PlaneLanes(p: Plane): seq<bv64> {
    [p.x0, p.x1, p.x2, p.x3, p.x4]
  }

  function ToLanes(A: State): Lanes {
    PlaneLanes(A.y0) + PlaneLanes(A.y1) + PlaneLanes(A.y2) + PlaneLanes(A.y3) + PlaneLanes(A.y4)
  }

  // FIPS 202 section 3.2.1.
  function C(A: State, x: nat): bv64
    requires x < 5
  {
    Xor5(A.At(x, 0), A.At(x, 1), A.At(x, 2), A.At(x, 3), A.At(x, 4))
  }

  function D(A: State, x: nat): bv64
    requires x < 5
  {
    Xor(C(A, (x + 4) % 5), Rot(C(A, (x + 1) % 5), 1))
  }

  function ThetaLane(A: State, x: nat, y: nat): bv64
    requires x < 5 && y < 5
  {
    Xor(A.At(x, y), D(A, x))
  }

  function Theta(A: State): State {
    Make((x: nat, y: nat) requires x < 5 && y < 5 => ThetaLane(A, x, y))
  }

  // FIPS 202 section 3.2.2: rotation offsets by lane; `OffsetsFollowWalk` ties them to the standard.
  const OFFSET: seq<seq<nat>> :=
    [[0, 1, 62, 28, 27],
     [36, 44, 6, 55, 20],
     [3, 10, 43, 25, 39],
     [41, 45, 15, 21, 8],
     [18, 2, 61, 56, 14]]

  function RhoLane(A: State, x: nat, y: nat): bv64
    requires x < 5 && y < 5
  {
    Rot(A.At(x, y), OFFSET[y][x])
  }

  function Rho(A: State): State {
    Make((x: nat, y: nat) requires x < 5 && y < 5 => RhoLane(A, x, y))
  }

  // FIPS 202 section 3.2.3.
  function PiLane(A: State, x: nat, y: nat): bv64
    requires x < 5 && y < 5
  {
    A.At((x + 3 * y) % 5, x)
  }

  function Pi(A: State): State {
    Make((x: nat, y: nat) requires x < 5 && y < 5 => PiLane(A, x, y))
  }

  // FIPS 202 section 3.2.4.
  function ChiLane(A: State, x: nat, y: nat): bv64
    requires x < 5 && y < 5
  {
    Xor(A.At(x, y), AndNot(A.At((x + 1) % 5, y), A.At((x + 2) % 5, y)))
  }

  function Chi(A: State): State {
    Make((x: nat, y: nat) requires x < 5 && y < 5 => ChiLane(A, x, y))
  }

  // FIPS 202 section 3.2.5: the round constants come from a linear feedback shift register.
  function LfsrStep(r: bv8): bv8 {
    (r << 1) ^ (if r & 0x80 != 0 then 0x71 else 0)
  }

  function Lfsr(t: nat): bv8 {
    if t == 0 then 1 else LfsrStep(Lfsr(t - 1))
  }

  function LfsrBit(t: nat, place: bv64): bv64 {
    if Lfsr(t) & 1 != 0 then place else 0
  }

  function RoundConstant(r: nat): bv64 {
    LfsrBit(7 * r, 0x1) | LfsrBit(7 * r + 1, 0x2) | LfsrBit(7 * r + 2, 0x8) | LfsrBit(7 * r + 3, 0x80)
    | LfsrBit(7 * r + 4, 0x8000) | LfsrBit(7 * r + 5, 0x8000_0000) | LfsrBit(7 * r + 6, 0x8000_0000_0000_0000)
  }

  function Iota(A: State, constant: bv64): State {
    A.(y0 := A.y0.(x0 := Xor(A.At(0, 0), constant)))
  }

  function Round(A: State, r: nat): State {
    Iota(Chi(Pi(Rho(Theta(A)))), RoundConstant(r))
  }

  /** Rounds `r` to 23 of Keccak-f[1600]. */
  function RoundsFrom(A: State, r: nat): State
    decreases 24 - r
  {
    if r >= 24 then A else RoundsFrom(Round(A, r), r + 1)
  }

  /** The permutation of DeepSeekHashV1: all rounds but the first. */
  function Permute(s: Lanes): Lanes {
    ToLanes(RoundsFrom(ToState(s), 1))
  }

  /** The n rounds after the first. */
  function Rounds(A: State, n: nat): State {
    if n == 0 then A else Round(Rounds(A, n - 1), n)
  }

  lemma {:induction false} RoundsOn(A: State, n: nat)
    requires n <= 23
    ensures RoundsFrom(A, 1) == RoundsFrom(Rounds(A, n), n + 1)
  {
    hide Round;
    if n > 0 {
      RoundsOn(A, n - 1);
    }
  }

  /** The permutation is 23 rounds, in their order; the first of the 24 is left out. */
  lemma TwentyThreeRounds(s: Lanes)
    ensures Permute(s) == ToLanes(Rounds(ToState(s), 23))
  {
    hide Round;
    RoundsOn(ToState(s), 23);
  }

  const RC: seq<bv64> :=
    [0x0000000000000001, 0x0000000000008082, 0x800000000000808A, 0x8000000080008000,
     0x000000000000808B, 0x0000000080000001, 0x8000000080008081, 0x8000000000008009,
     0x000000000000008A, 0x0000000000000088, 0x0000000080008009, 0x000000008000000A,
     0x000000008000808B, 0x800000000000008B, 0x8000000000008089, 0x8000000000008003,
     0x8000000000008002, 0x8000000000000080, 0x000000000000800A, 0x800000008000000A,
     0x8000000080008081, 0x8000000000008080, 0x0000000080000001, 0x8000000080008008]

  // The register before each round.
  const REGISTER: seq<bv8> :=
    [0x01, 0x80, 0xD8, 0x1A, 0xDF, 0x09, 0x35, 0x4F,
     0xCA, 0x70, 0x41, 0xEC, 0xD5, 0xCD, 0x63, 0xAB,
     0xAA, 0x2A, 0xF2, 0xE8, 0x37, 0x3E, 0x0B, 0x44]

  function Seven(r: bv8): bv8 {
    LfsrStep(LfsrStep(LfsrStep(LfsrStep(LfsrStep(LfsrStep(LfsrStep(r)))))))
  }

  function Place(r: bv8, place: bv64): bv64 {
    if r & 1 != 0 then place else 0
  }

  /** The constant of the round that starts with register `r`. */
  function Word(r: bv8): bv64 {
    var r1 := LfsrStep(r);
    var r2 := LfsrStep(r1);
    var r3 := LfsrStep(r2);
    var r4 := LfsrStep(r3);
    var r5 := LfsrStep(r4);
    var r6 := LfsrStep(r5);
    Place(r, 0x1) | Place(r1, 0x2) | Place(r2, 0x8) | Place(r3, 0x80)
    | Place(r4, 0x8000) | Place(r5, 0x8000_0000) | Place(r6, 0x8000_0000_0000_0000)
  }

  lemma {:induction false} RegisterSteps()
    ensures forall r :: 0 <= r < 23 ==> REGISTER[r + 1] == Seven(REGISTER[r])
  {
    assert Seven(0x01) == 0x80;
    assert Seven(0x80) == 0xD8;
    assert Seven(0xD8) == 0x1A;
    assert Seven(0x1A) == 0xDF;
    assert Seven(0xDF) == 0x09;
    assert Seven(0x09) == 0x35;
    assert Seven(0x35) == 0x4F;
    assert Seven(0x4F) == 0xCA;
    assert Seven(0xCA) == 0x70;
    assert Seven(0x70) == 0x41;
    assert Seven(0x41) == 0xEC;
    assert Seven(0xEC) == 0xD5;
    assert Seven(0xD5) == 0xCD;
    assert Seven(0xCD) == 0x63;
    assert Seven(0x63) == 0xAB;
    assert Seven(0xAB) == 0xAA;
    assert Seven(0xAA) == 0x2A;
    assert Seven(0x2A) == 0xF2;
    assert Seven(0xF2) == 0xE8;
    assert Seven(0xE8) == 0x37;
    assert Seven(0x37) == 0x3E;
    assert Seven(0x3E) == 0x0B;
    assert Seven(0x0B) == 0x44;
  }

  lemma Words0()
    ensures Word(0x01) == 0x0000000000000001
    ensures Word(0x80) == 0x0000000000008082
    ensures Word(0xD8) == 0x800000000000808A
  {
  }

  lemma Words1()
    ensures Word(0x1A) == 0x8000000080008000
    ensures Word(0xDF) == 0x000000000000808B
    ensures Word(0x09) == 0x0000000080000001
  {
  }

  lemma Words2()
    ensures Word(0x35) == 0x8000000080008081
    ensures Word(0x4F) == 0x8000000000008009
    ensures Word(0xCA) == 0x000000000000008A
  {
  }

  lemma Words3()
    ensures Word(0x70) == 0x0000000000000088
    ensures Word(0x41) == 0x0000000080008009
    ensures Word(0xEC) == 0x000000008000000A
  {
  }

  lemma Words4()
    ensures Word(0xD5) == 0x000000008000808B
    ensures Word(0xCD) == 0x800000000000008B
    ensures Word(0x63) == 0x8000000000008089
  {
  }

  lemma Words5()
    ensures Word(0xAB) == 0x8000000000008003
    ensures Word(0xAA) == 0x8000000000008002
    ensures Word(0x2A) == 0x8000000000000080
  {
  }

  lemma Words6()
    ensures Word(0xF2) == 0x000000000000800A
    ensures Word(0xE8) == 0x800000008000000A
    ensures Word(0x37) == 0x8000000080008081
  {
  }

  lemma Words7()
    ensures Word(0x3E) == 0x8000000000008080
    ensures Word(0x0B) == 0x0000000080000001
    ensures Word(0x44) == 0x8000000080008008
  {
  }

  lemma {:induction false} Words()
    ensures forall r :: 0 <= r < 24 ==> RC[r] == Word(REGISTER[r])
  {
    hide Word;
    Words0();
    Words1();
    Words2();
    Words3();
    Words4();
    Words5();
    Words6();
    Words7();
  }

  lemma {:induction false} LfsrRow(t: nat)
    ensures Lfsr(t + 7) == Seven(Lfsr(t))
    ensures LfsrBit(t, 0x1) | LfsrBit(t + 1, 0x2) | LfsrBit(t + 2, 0x8) | LfsrBit(t + 3, 0x80)
      | LfsrBit(t + 4, 0x8000) | LfsrBit(t + 5, 0x8000_0000) | LfsrBit(t + 6, 0x8000_0000_0000_0000) == Word(Lfsr(t))
  {
    hide LfsrStep;
    assert Lfsr(t + 1) == LfsrStep(Lfsr(t));
    assert Lfsr(t + 2) == LfsrStep(Lfsr(t + 1));
    assert Lfsr(t + 3) == LfsrStep(Lfsr(t + 2));
    assert Lfsr(t + 4) == LfsrStep(Lfsr(t + 3));
    assert Lfsr(t + 5) == LfsrStep(Lfsr(t + 4));
    assert Lfsr(t + 6) == LfsrStep(Lfsr(t + 5));
    assert Lfsr(t + 7) == LfsrStep(Lfsr(t + 6));
  }

  lemma {:induction false} RegisterAt(r: nat)
    requires r < 24
    ensures Lfsr(7 * r) == REGISTER[r]
  {
    hide Seven, Word, LfsrBit;
    if r > 0 {
      RegisterAt(r - 1);
      LfsrRow(7 * (r - 1));
      RegisterSteps();
      assert REGISTER[r - 1 + 1] == Seven(REGISTER[r - 1]);
    }
  }

  /** The table of the source is the sequence of constants the standard generates. */
  lemma RoundConstants(r: nat)
    requires r < 24
    ensures RC[r] == RoundConstant(r)
  {
    hide Word, Seven, LfsrBit, Lfsr;
    RegisterAt(r);
    LfsrRow(7 * r);
    Words();
  }

  /** The walk of FIPS 202 section 3.2.2 over the lanes. */
  function Walk(t: nat): (nat, nat) {
    if t == 0 then (1, 0)
    else
      var (x, y) := Walk(t - 1);
      (y, (2 * x + 3 * y) % 5)
  }

  lemma WalkSteps()
    ensures Walk(0) == (1, 0)
    ensures Walk(1) == (0, 2)
    ensures Walk(2) == (2, 1)
    ensures Walk(3) == (1, 2)
    ensures Walk(4) == (2, 3)
    ensures Walk(5) == (3, 3)
    ensures Walk(6) == (3, 0)
    ensures Walk(7) == (0, 1)
    ensures Walk(8) == (1, 3)
    ensures Walk(9) == (3, 1)
    ensures Walk(10) == (1, 4)
    ensures Walk(11) == (4, 4)
    ensures Walk(12) == (4, 0)
    ensures Walk(13) == (0, 3)
    ensures Walk(14) == (3, 4)
    ensures Walk(15) == (4, 3)
    ensures Walk(16) == (3, 2)
    ensures Walk(17) == (2, 2)
    ensures Walk(18) == (2, 0)
    ensures Walk(19) == (0, 4)
    ensures Walk(20) == (4, 2)
    ensures Walk(21) == (2, 4)
    ensures Walk(22) == (4, 1)
    ensures Walk(23) == (1, 1)
  {
    assert Walk(0) == (1, 0);
    assert Walk(1) == (0, 2);
    assert Walk(2) == (2, 1);
    assert Walk(3) == (1, 2);
    assert Walk(4) == (2, 3);
    assert Walk(5) == (3, 3);
    assert Walk(6) == (3, 0);
    assert Walk(7) == (0, 1);
    assert Walk(8) == (1, 3);
    assert Walk(9) == (3, 1);
    assert Walk(10) == (1, 4);
    assert Walk(11) == (4, 4);
    assert Walk(12) == (4, 0);
    assert Walk(13) == (0, 3);
    assert Walk(14) == (3, 4);
    assert Walk(15) == (4, 3);
    assert Walk(16) == (3, 2);
    assert Walk(17) == (2, 2);
    assert Walk(18) == (2, 0);
    assert Walk(19) == (0, 4);
    assert Walk(20) == (4, 2);
    assert Walk(21) == (2, 4);
    assert Walk(22) == (4, 1);
    assert Walk(23) == (1, 1);
  }

  function Triangle(t: nat): nat {
    (t + 1) * (t + 2) / 2 % 64
  }

  predicate OffsetAt(t: nat) {
    var (x, y) := Walk(t);
    x < 5 && y < 5 && OFFSET[y][x] == Triangle(t)
  }

  /** Step t of the walk visits a lane whose offset is the t-th triangular number modulo 64. */
  lemma OffsetsFollowWalk()
    ensures forall t :: 0 <= t < 24 ==> OffsetAt(t)
  {
    hide Walk;
    WalkSteps();
    assert OffsetAt(0);
    assert OffsetAt(1);
    assert OffsetAt(2);
    assert OffsetAt(3);
    assert OffsetAt(4);
    assert OffsetAt(5);
    assert OffsetAt(6);
    assert OffsetAt(7);
    assert OffsetAt(8);
    assert OffsetAt(9);
    assert OffsetAt(10);
    assert OffsetAt(11);
    assert OffsetAt(12);
    assert OffsetAt(13);
    assert OffsetAt(14);
    assert OffsetAt(15);
    assert OffsetAt(16);
    assert OffsetAt(17);
    assert OffsetAt(18);
    assert OffsetAt(19);
    assert OffsetAt(20);
    assert OffsetAt(21);
    assert OffsetAt(22);
    assert OffsetAt(23);
  }

  /** The walk visits every lane but the first, whose offset is zero. */
  lemma WalkVisitsAll(i: nat)
    requires 0 < i < 25
    ensures OFFSET[0][0] == 0 && exists t :: 0 <= t < 24 && Walk(t).0 + 5 * Walk(t).1 == i
  {
    hide Walk;
    WalkSteps();
  }

  // The source keeps the state in 25 local variables; the next lemmas say what each step mapping
  // puts in each of them.

  lemma Lanes25(A: State)
    ensures A.At(0, 0) == A.y0.x0 && A.At(1, 0) == A.y0.x1 && A.At(2, 0) == A.y0.x2 && A.At(3, 0) == A.y0.x3 &&
      A.At(4, 0) == A.y0.x4
    ensures A.At(0, 1) == A.y1.x0 && A.At(1, 1) == A.y1.x1 && A.At(2, 1) == A.y1.x2 && A.At(3, 1) == A.y1.x3 &&
      A.At(4, 1) == A.y1.x4
    ensures A.At(0, 2) == A.y2.x0 && A.At(1, 2) == A.y2.x1 && A.At(2, 2) == A.y2.x2 && A.At(3, 2) == A.y2.x3 &&
      A.At(4, 2) == A.y2.x4
    ensures A.At(0, 3) == A.y3.x0 && A.At(1, 3) == A.y3.x1 && A.At(2, 3) == A.y3.x2 && A.At(3, 3) == A.y3.x3 &&
      A.At(4, 3) == A.y3.x4
    ensures A.At(0, 4) == A.y4.x0 && A.At(1, 4) == A.y4.x1 && A.At(2, 4) == A.y4.x2 && A.At(3, 4) == A.y4.x3 &&
      A.At(4, 4) == A.y4.x4
  {
  }

  lemma ThetaRow(A: State, y: nat, d0: bv64, d1: bv64, d2: bv64, d3: bv64, d4: bv64)
    requires y < 5
    requires d0 == D(A, 0) && d1 == D(A, 1) && d2 == D(A, 2) && d3 == D(A, 3) && d4 == D(A, 4)
    ensures var p := A.Row(y);
      ThetaLane(A, 0, y) == Xor(p.x0, d0)
      && ThetaLane(A, 1, y) == Xor(p.x1, d1)
      && ThetaLane(A, 2, y) == Xor(p.x2, d2)
      && ThetaLane(A, 3, y) == Xor(p.x3, d3)
      && ThetaLane(A, 4, y) == Xor(p.x4, d4)
  {
    hide D, Xor, State.Row;
  }

  lemma {:induction false} ThetaLanes(A: State, d0: bv64, d1: bv64, d2: bv64, d3: bv64, d4: bv64)
    requires d0 == D(A, 0) && d1 == D(A, 1) && d2 == D(A, 2) && d3 == D(A, 3) && d4 == D(A, 4)
    ensures Theta(A) == State(Plane(Xor(A.y0.x0, d0), Xor(A.y0.x1, d1), Xor(A.y0.x2, d2), Xor(A.y0.x3, d3),
      Xor(A.y0.x4, d4)), Plane(Xor(A.y1.x0, d0), Xor(A.y1.x1, d1), Xor(A.y1.x2, d2), Xor(A.y1.x3, d3), Xor(A.y1.x4,
      d4)), Plane(Xor(A.y2.x0, d0), Xor(A.y2.x1, d1), Xor(A.y2.x2, d2), Xor(A.y2.x3, d3), Xor(A.y2.x4, d4)),
      Plane(Xor(A.y3.x0, d0), Xor(A.y3.x1, d1), Xor(A.y3.x2, d2), Xor(A.y3.x3, d3), Xor(A.y3.x4, d4)),
      Plane(Xor(A.y4.x0, d0), Xor(A.y4.x1, d1), Xor(A.y4.x2, d2), Xor(A.y4.x3, d3), Xor(A.y4.x4, d4)))
  {
    hide ThetaLane, D, Xor;
    ThetaRow(A, 0, d0, d1, d2, d3, d4);
    ThetaRow(A, 1, d0, d1, d2, d3, d4);
    ThetaRow(A, 2, d0, d1, d2, d3, d4);
    ThetaRow(A, 3, d0, d1, d2, d3, d4);
    ThetaRow(A, 4, d0, d1, d2, d3, d4);
  }

  lemma RhoRow(A: State, y: nat)
    requires y < 5
    ensures var p := A.Row(y); var n := OFFSET[y];
      RhoLane(A, 0, y) == Rot(p.x0, n[0])
      && RhoLane(A, 1, y) == Rot(p.x1, n[1])
      && RhoLane(A, 2, y) == Rot(p.x2, n[2])
      && RhoLane(A, 3, y) == Rot(p.x3, n[3])
      && RhoLane(A, 4, y) == Rot(p.x4, n[4])
  {
    hide Rot, State.Row;
  }

  lemma {:induction false} RhoLanes(A: State)
    ensures Rho(A) == State(Plane(A.y0.x0, Rot(A.y0.x1, 1), Rot(A.y0.x2, 62), Rot(A.y0.x3, 28), Rot(A.y0.x4, 27)),
      Plane(Rot(A.y1.x0, 36), Rot(A.y1.x1, 44), Rot(A.y1.x2, 6), Rot(A.y1.x3, 55), Rot(A.y1.x4, 20)),
      Plane(Rot(A.y2.x0, 3), Rot(A.y2.x1, 10), Rot(A.y2.x2, 43), Rot(A.y2.x3, 25), Rot(A.y2.x4, 39)),
      Plane(Rot(A.y3.x0, 41), Rot(A.y3.x1, 45), Rot(A.y3.x2, 15), Rot(A.y3.x3, 21), Rot(A.y3.x4, 8)),
      Plane(Rot(A.y4.x0, 18), Rot(A.y4.x1, 2), Rot(A.y4.x2, 61), Rot(A.y4.x3, 56), Rot(A.y4.x4, 14)))
  {
    hide RhoLane, Rot;
    RhoRow(A, 0);
    RhoRow(A, 1);
    RhoRow(A, 2);
    RhoRow(A, 3);
    RhoRow(A, 4);
    RotZero(A.y0.x0);
  }

  lemma RotZero(v: bv64)
    ensures Rot(v, 0) == v
  {
  }

  lemma PiRow0(A: State)
    ensures PiLane(A, 0, 0) == A.y0.x0 && PiLane(A, 1, 0) == A.y1.x1 && PiLane(A, 2, 0) == A.y2.x2 && PiLane(A, 3, 0)
      == A.y3.x3 && PiLane(A, 4, 0) == A.y4.x4
  {
    hide State.At;
    Lanes25(A);
  }

  lemma PiRow1(A: State)
    ensures PiLane(A, 0, 1) == A.y0.x3 && PiLane(A, 1, 1) == A.y1.x4 && PiLane(A, 2, 1) == A.y2.x0 && PiLane(A, 3, 1)
      == A.y3.x1 && PiLane(A, 4, 1) == A.y4.x2
  {
    hide State.At;
    Lanes25(A);
  }

  lemma PiRow2(A: State)
    ensures PiLane(A, 0, 2) == A.y0.x1 && PiLane(A, 1, 2) == A.y1.x2 && PiLane(A, 2, 2) == A.y2.x3 && PiLane(A, 3, 2)
      == A.y3.x4 && PiLane(A, 4, 2) == A.y4.x0
  {
    hide State.At;
    Lanes25(A);
  }

  lemma PiRow3(A: State)
    ensures PiLane(A, 0, 3) == A.y0.x4 && PiLane(A, 1, 3) == A.y1.x0 && PiLane(A, 2, 3) == A.y2.x1 && PiLane(A, 3, 3)
      == A.y3.x2 && PiLane(A, 4, 3) == A.y4.x3
  {
    hide State.At;
    Lanes25(A);
  }

  lemma PiRow4(A: State)
    ensures PiLane(A, 0, 4) == A.y0.x2 && PiLane(A, 1, 4) == A.y1.x3 && PiLane(A, 2, 4) == A.y2.x4 && PiLane(A, 3, 4)
      == A.y3.x0 && PiLane(A, 4, 4) == A.y4.x1
  {
    hide State.At;
    Lanes25(A);
  }

  lemma {:induction false} PiLanes(A: State)
    ensures Pi(A) == State(Plane(A.y0.x0, A.y1.x1, A.y2.x2, A.y3.x3, A.y4.x4), Plane(A.y0.x3, A.y1.x4, A.y2.x0,
      A.y3.x1, A.y4.x2), Plane(A.y0.x1, A.y1.x2, A.y2.x3, A.y3.x4, A.y4.x0), Plane(A.y0.x4, A.y1.x0, A.y2.x1, A.y3.x2,
      A.y4.x3), Plane(A.y0.x2, A.y1.x3, A.y2.x4, A.y3.x0, A.y4.x1))
  {
    hide PiLane;
    PiRow0(A);
    PiRow1(A);
    PiRow2(A);
    PiRow3(A);
    PiRow4(A);
  }

  lemma {:induction false} ChiRow(A: State, y: nat)
    requires y < 5
    ensures var p := A.Row(y);
      ChiLane(A, 0, y) == Xor(p.x0, AndNot(p.x1, p.x2))
      && ChiLane(A, 1, y) == Xor(p.x1, AndNot(p.x2, p.x3))
      && ChiLane(A, 2, y) == Xor(p.x2, AndNot(p.x3, p.x4))
      && ChiLane(A, 3, y) == Xor(p.x3, AndNot(p.x4, p.x0))
      && ChiLane(A, 4, y) == Xor(p.x4, AndNot(p.x0, p.x1))
  {
    hide Xor, AndNot, State.Row;
  }

  lemma {:induction false} ChiLanes(A: State)
    ensures Chi(A) == State(Plane(Xor(A.y0.x0, AndNot(A.y0.x1, A.y0.x2)), Xor(A.y0.x1, AndNot(A.y0.x2, A.y0.x3)),
      Xor(A.y0.x2, AndNot(A.y0.x3, A.y0.x4)), Xor(A.y0.x3, AndNot(A.y0.x4, A.y0.x0)), Xor(A.y0.x4, AndNot(A.y0.x0,
      A.y0.x1))), Plane(Xor(A.y1.x0, AndNot(A.y1.x1, A.y1.x2)), Xor(A.y1.x1, AndNot(A.y1.x2, A.y1.x3)), Xor(A.y1.x2,
      AndNot(A.y1.x3, A.y1.x4)), Xor(A.y1.x3, AndNot(A.y1.x4, A.y1.x0)), Xor(A.y1.x4, AndNot(A.y1.x0, A.y1.x1))),
      Plane(Xor(A.y2.x0, AndNot(A.y2.x1, A.y2.x2)), Xor(A.y2.x1, AndNot(A.y2.x2, A.y2.x3)), Xor(A.y2.x2,
      AndNot(A.y2.x3, A.y2.x4)), Xor(A.y2.x3, AndNot(A.y2.x4, A.y2.x0)), Xor(A.y2.x4, AndNot(A.y2.x0, A.y2.x1))),
      Plane(Xor(A.y3.x0, AndNot(A.y3.x1, A.y3.x2)), Xor(A.y3.x1, AndNot(A.y3.x2, A.y3.x3)), Xor(A.y3.x2,
      AndNot(A.y3.x3, A.y3.x4)), Xor(A.y3.x3, AndNot(A.y3.x4, A.y3.x0)), Xor(A.y3.x4, AndNot(A.y3.x0, A.y3.x1))),
      Plane(Xor(A.y4.x0, AndNot(A.y4.x1, A.y4.x2)), Xor(A.y4.x1, AndNot(A.y4.x2, A.y4.x3)), Xor(A.y4.x2,
      AndNot(A.y4.x3, A.y4.x4)), Xor(A.y4.x3, AndNot(A.y4.x4, A.y4.x0)), Xor(A.y4.x4, AndNot(A.y4.x0, A.y4.x1))))
  {
    hide ChiLane, Xor, AndNot;
    ChiRow(A, 0);
    ChiRow(A, 1);
    ChiRow(A, 2);
    ChiRow(A, 3);
    ChiRow(A, 4);
  }

  lemma {:induction false} ColumnParities(A: State, c0: bv64, c1: bv64, c2: bv64, c3: bv64, c4: bv64)
    requires c0 == Xor5(A.y0.x0, A.y1.x0, A.y2.x0, A.y3.x0, A.y4.x0)
    requires c1 == Xor5(A.y0.x1, A.y1.x1, A.y2.x1, A.y3.x1, A.y4.x1)
    requires c2 == Xor5(A.y0.x2, A.y1.x2, A.y2.x2, A.y3.x2, A.y4.x2)
    requires c3 == Xor5(A.y0.x3, A.y1.x3, A.y2.x3, A.y3.x3, A.y4.x3)
    requires c4 == Xor5(A.y0.x4, A.y1.x4, A.y2.x4, A.y3.x4, A.y4.x4)
    ensures D(A, 0) == Xor(c4, Rot(c1, 1)) && D(A, 1) == Xor(c0, Rot(c2, 1)) && D(A, 2) == Xor(c1, Rot(c3, 1))
    ensures D(A, 3) == Xor(c2, Rot(c4, 1)) && D(A, 4) == Xor(c3, Rot(c0, 1))
  {
    hide Rot, Xor, Xor5, State.At;
    Lanes25(A);
  }

  lemma StateOf(s: Lanes)
    ensures ToState(s) == State(Plane(s[0], s[1], s[2], s[3], s[4]), Plane(s[5], s[6], s[7], s[8], s[9]), Plane(s[10],
      s[11], s[12], s[13], s[14]), Plane(s[15], s[16], s[17], s[18], s[19]), Plane(s[20], s[21], s[22], s[23], s[24]))
  {
  }

  /** For every amount the permutation uses, the source's shifts rotate. */
  lemma UsedAmounts(v: bv64)
    ensures Rotl(v, 1) == Rot(v, 1) && Rotl(v, 2) == Rot(v, 2) && Rotl(v, 3) == Rot(v, 3) && Rotl(v, 6) == Rot(v, 6)
    ensures Rotl(v, 8) == Rot(v, 8) && Rotl(v, 10) == Rot(v, 10) && Rotl(v, 14) == Rot(v, 14)
    ensures Rotl(v, 15) == Rot(v, 15) && Rotl(v, 18) == Rot(v, 18) && Rotl(v, 20) == Rot(v, 20)
    ensures Rotl(v, 21) == Rot(v, 21) && Rotl(v, 25) == Rot(v, 25) && Rotl(v, 27) == Rot(v, 27)
    ensures Rotl(v, 28) == Rot(v, 28) && Rotl(v, 36) == Rot(v, 36) && Rotl(v, 39) == Rot(v, 39)
    ensures Rotl(v, 41) == Rot(v, 41) && Rotl(v, 43) == Rot(v, 43) && Rotl(v, 44) == Rot(v, 44)
    ensures Rotl(v, 45) == Rot(v, 45) && Rotl(v, 55) == Rot(v, 55) && Rotl(v, 56) == Rot(v, 56)
    ensures Rotl(v, 61) == Rot(v, 61) && Rotl(v, 62) == Rot(v, 62)
  {
  }

  /** The column parities and their mixing into every lane. */
  method UnrolledTheta(a0: bv64, a1: bv64, a2: bv64, a3: bv64, a4: bv64, a5: bv64, a6: bv64, a7: bv64, a8: bv64, a9:
    bv64, a10: bv64, a11: bv64, a12: bv64, a13: bv64, a14: bv64, a15: bv64, a16: bv64, a17: bv64, a18: bv64, a19:
    bv64, a20: bv64, a21: bv64, a22: bv64, a23: bv64, a24: bv64)
    returns (t0: bv64, t1: bv64, t2: bv64, t3: bv64, t4: bv64, t5: bv64, t6: bv64, t7: bv64, t8: bv64, t9: bv64, t10:
      bv64, t11: bv64, t12: bv64, t13: bv64, t14: bv64, t15: bv64, t16: bv64, t17: bv64, t18: bv64, t19: bv64, t20:
      bv64, t21: bv64, t22: bv64, t23: bv64, t24: bv64)
    ensures State(Plane(t0, t1, t2, t3, t4), Plane(t5, t6, t7, t8, t9), Plane(t10, t11, t12, t13, t14), Plane(t15,
      t16, t17, t18, t19), Plane(t20, t21, t22, t23, t24)) == Theta(State(Plane(a0, a1, a2, a3, a4), Plane(a5, a6, a7,
      a8, a9), Plane(a10, a11, a12, a13, a14), Plane(a15, a16, a17, a18, a19), Plane(a20, a21, a22, a23, a24)))
  {
    hide Rotl, Rot, Xor, Xor5, Theta, D, C;
    ghost var A := State(Plane(a0, a1, a2, a3, a4), Plane(a5, a6, a7, a8, a9), Plane(a10, a11, a12, a13, a14),
      Plane(a15, a16, a17, a18, a19), Plane(a20, a21, a22, a23, a24));
    var c0 := Xor5(a0, a5, a10, a15, a20);
    var c1 := Xor5(a1, a6, a11, a16, a21);
    var c2 := Xor5(a2, a7, a12, a17, a22);
    var c3 := Xor5(a3, a8, a13, a18, a23);
    var c4 := Xor5(a4, a9, a14, a19, a24);
    var d0 := Xor(c4, Rotl(c1, 1));
    var d1 := Xor(c0, Rotl(c2, 1));
    var d2 := Xor(c1, Rotl(c3, 1));
    var d3 := Xor(c2, Rotl(c4, 1));
    var d4 := Xor(c3, Rotl(c0, 1));
    UsedAmounts(c0);
    UsedAmounts(c1);
    UsedAmounts(c2);
    UsedAmounts(c3);
    UsedAmounts(c4);
    ColumnParities(A, c0, c1, c2, c3, c4);
    ThetaLanes(A, d0, d1, d2, d3, d4);
    t0 := Xor(a0, d0);
    t5 := Xor(a5, d0);
    t10 := Xor(a10, d0);
    t15 := Xor(a15, d0);
    t20 := Xor(a20, d0);
    t1 := Xor(a1, d1);
    t6 := Xor(a6, d1);
    t11 := Xor(a11, d1);
    t16 := Xor(a16, d1);
    t21 := Xor(a21, d1);
    t2 := Xor(a2, d2);
    t7 := Xor(a7, d2);
    t12 := Xor(a12, d2);
    t17 := Xor(a17, d2);
    t22 := Xor(a22, d2);
    t3 := Xor(a3, d3);
    t8 := Xor(a8, d3);
    t13 := Xor(a13, d3);
    t18 := Xor(a18, d3);
    t23 := Xor(a23, d3);
    t4 := Xor(a4, d4);
    t9 := Xor(a9, d4);
    t14 := Xor(a14, d4);
    t19 := Xor(a19, d4);
    t24 := Xor(a24, d4);
  }

  /** Rotation and rearrangement of the lanes. */
  method UnrolledPiRho(t0: bv64, t1: bv64, t2: bv64, t3: bv64, t4: bv64, t5: bv64, t6: bv64, t7: bv64, t8: bv64, t9:
    bv64, t10: bv64, t11: bv64, t12: bv64, t13: bv64, t14: bv64, t15: bv64, t16: bv64, t17: bv64, t18: bv64, t19:
    bv64, t20: bv64, t21: bv64, t22: bv64, t23: bv64, t24: bv64)
    returns (b0: bv64, b1: bv64, b2: bv64, b3: bv64, b4: bv64, b5: bv64, b6: bv64, b7: bv64, b8: bv64, b9: bv64, b10:
      bv64, b11: bv64, b12: bv64, b13: bv64, b14: bv64, b15: bv64, b16: bv64, b17: bv64, b18: bv64, b19: bv64, b20:
      bv64, b21: bv64, b22: bv64, b23: bv64, b24: bv64)
    ensures State(Plane(b0, b1, b2, b3, b4), Plane(b5, b6, b7, b8, b9), Plane(b10, b11, b12, b13, b14), Plane(b15,
      b16, b17, b18, b19), Plane(b20, b21, b22, b23, b24)) == Pi(Rho(State(Plane(t0, t1, t2, t3, t4), Plane(t5, t6,
      t7, t8, t9), Plane(t10, t11, t12, t13, t14), Plane(t15, t16, t17, t18, t19), Plane(t20, t21, t22, t23, t24))))
  {
    hide Rotl, Rot, Pi, Rho;
    RhoLanes(State(Plane(t0, t1, t2, t3, t4), Plane(t5, t6, t7, t8, t9), Plane(t10, t11, t12, t13, t14), Plane(t15,
      t16, t17, t18, t19), Plane(t20, t21, t22, t23, t24)));
    PiLanes(Rho(State(Plane(t0, t1, t2, t3, t4), Plane(t5, t6, t7, t8, t9), Plane(t10, t11, t12, t13, t14), Plane(t15,
      t16, t17, t18, t19), Plane(t20, t21, t22, t23, t24))));
    UsedAmounts(t1);
    UsedAmounts(t2);
    UsedAmounts(t3);
    UsedAmounts(t4);
    UsedAmounts(t5);
    UsedAmounts(t6);
    UsedAmounts(t7);
    UsedAmounts(t8);
    UsedAmounts(t9);
    UsedAmounts(t10);
    UsedAmounts(t11);
    UsedAmounts(t12);
    UsedAmounts(t13);
    UsedAmounts(t14);
    UsedAmounts(t15);
    UsedAmounts(t16);
    UsedAmounts(t17);
    UsedAmounts(t18);
    UsedAmounts(t19);
    UsedAmounts(t20);
    UsedAmounts(t21);
    UsedAmounts(t22);
    UsedAmounts(t23);
    UsedAmounts(t24);
    b0 := t0;
    b10 := Rotl(t1, 1);
    b20 := Rotl(t2, 62);
    b5 := Rotl(t3, 28);
    b15 := Rotl(t4, 27);
    b16 := Rotl(t5, 36);
    b1 := Rotl(t6, 44);
    b11 := Rotl(t7, 6);
    b21 := Rotl(t8, 55);
    b6 := Rotl(t9, 20);
    b7 := Rotl(t10, 3);
    b17 := Rotl(t11, 10);
    b2 := Rotl(t12, 43);
    b12 := Rotl(t13, 25);
    b22 := Rotl(t14, 39);
    b23 := Rotl(t15, 41);
    b8 := Rotl(t16, 45);
    b18 := Rotl(t17, 15);
    b3 := Rotl(t18, 21);
    b13 := Rotl(t19, 8);
    b14 := Rotl(t20, 18);
    b24 := Rotl(t21, 2);
    b9 := Rotl(t22, 61);
    b19 := Rotl(t23, 56);
    b4 := Rotl(t24, 14);
  }

  /** The mixing along each row. */
  method UnrolledChi(b0: bv64, b1: bv64, b2: bv64, b3: bv64, b4: bv64, b5: bv64, b6: bv64, b7: bv64, b8: bv64, b9:
    bv64, b10: bv64, b11: bv64, b12: bv64, b13: bv64, b14: bv64, b15: bv64, b16: bv64, b17: bv64, b18: bv64, b19:
    bv64, b20: bv64, b21: bv64, b22: bv64, b23: bv64, b24: bv64)
    returns (e0: bv64, e1: bv64, e2: bv64, e3: bv64, e4: bv64, e5: bv64, e6: bv64, e7: bv64, e8: bv64, e9: bv64, e10:
      bv64, e11: bv64, e12: bv64, e13: bv64, e14: bv64, e15: bv64, e16: bv64, e17: bv64, e18: bv64, e19: bv64, e20:
      bv64, e21: bv64, e22: bv64, e23: bv64, e24: bv64)
    ensures State(Plane(e0, e1, e2, e3, e4), Plane(e5, e6, e7, e8, e9), Plane(e10, e11, e12, e13, e14), Plane(e15,
      e16, e17, e18, e19), Plane(e20, e21, e22, e23, e24)) == Chi(State(Plane(b0, b1, b2, b3, b4), Plane(b5, b6, b7,
      b8, b9), Plane(b10, b11, b12, b13, b14), Plane(b15, b16, b17, b18, b19), Plane(b20, b21, b22, b23, b24)))
  {
    hide Xor, AndNot, Chi;
    ChiLanes(State(Plane(b0, b1, b2, b3, b4), Plane(b5, b6, b7, b8, b9), Plane(b10, b11, b12, b13, b14), Plane(b15,
      b16, b17, b18, b19), Plane(b20, b21, b22, b23, b24)));
    e0 := Xor(b0, AndNot(b1, b2));
    e1 := Xor(b1, AndNot(b2, b3));
    e2 := Xor(b2, AndNot(b3, b4));
    e3 := Xor(b3, AndNot(b4, b0));
    e4 := Xor(b4, AndNot(b0, b1));
    e5 := Xor(b5, AndNot(b6, b7));
    e6 := Xor(b6, AndNot(b7, b8));
    e7 := Xor(b7, AndNot(b8, b9));
    e8 := Xor(b8, AndNot(b9, b5));
    e9 := Xor(b9, AndNot(b5, b6));
    e10 := Xor(b10, AndNot(b11, b12));
    e11 := Xor(b11, AndNot(b12, b13));
    e12 := Xor(b12, AndNot(b13, b14));
    e13 := Xor(b13, AndNot(b14, b10));
    e14 := Xor(b14, AndNot(b10, b11));
    e15 := Xor(b15, AndNot(b16, b17));
    e16 := Xor(b16, AndNot(b17, b18));
    e17 := Xor(b17, AndNot(b18, b19));
    e18 := Xor(b18, AndNot(b19, b15));
    e19 := Xor(b19, AndNot(b15, b16));
    e20 := Xor(b20, AndNot(b21, b22));
    e21 := Xor(b21, AndNot(b22, b23));
    e22 := Xor(b22, AndNot(b23, b24));
    e23 := Xor(b23, AndNot(b24, b20));
    e24 := Xor(b24, AndNot(b20, b21));
  }

  method Store(s: array<bv64>, A: State)
    requires s.Length == 25
    modifies s
    ensures s[..] == ToLanes(A)
  {
    var w := ToLanes(A);
    forall i | 0 <= i < 25 {
      s[i] := w[i];
    }
  }

  /** The permutation of the source: 25 local variables taken through rounds 1 to 23. */
  method KeccakF23(s: array<bv64>)
    requires s.Length == 25
    modifies s
    ensures s[..] == Permute(old(s[..]))
  {
    hide Theta, Rho, Pi, Chi, RoundConstant, ToState, ToLanes, Xor;
    StateOf(s[..]);
    var a0, a1, a2, a3, a4 := s[0], s[1], s[2], s[3], s[4];
    var a5, a6, a7, a8, a9 := s[5], s[6], s[7], s[8], s[9];
    var a10, a11, a12, a13, a14 := s[10], s[11], s[12], s[13], s[14];
    var a15, a16, a17, a18, a19 := s[15], s[16], s[17], s[18], s[19];
    var a20, a21, a22, a23, a24 := s[20], s[21], s[22], s[23], s[24];
    for r := 1 to 24
      invariant RoundsFrom(State(Plane(a0, a1, a2, a3, a4), Plane(a5, a6, a7, a8, a9), Plane(a10, a11, a12, a13, a14),
        Plane(a15, a16, a17, a18, a19), Plane(a20, a21, a22, a23, a24)), r) == RoundsFrom(old(ToState(s[..])), 1)
    {
      ghost var A := State(Plane(a0, a1, a2, a3, a4), Plane(a5, a6, a7, a8, a9), Plane(a10, a11, a12, a13, a14),
        Plane(a15, a16, a17, a18, a19), Plane(a20, a21, a22, a23, a24));
      a0, a1, a2, a3, a4, a5, a6, a7, a8, a9, a10, a11, a12, a13, a14, a15, a16, a17, a18, a19, a20, a21, a22, a23,
        a24 :=
        UnrolledTheta(a0, a1, a2, a3, a4, a5, a6, a7, a8, a9, a10, a11, a12, a13, a14, a15, a16, a17, a18, a19, a20,
          a21, a22, a23, a24);
      a0, a1, a2, a3, a4, a5, a6, a7, a8, a9, a10, a11, a12, a13, a14, a15, a16, a17, a18, a19, a20, a21, a22, a23,
        a24 :=
        UnrolledPiRho(a0, a1, a2, a3, a4, a5, a6, a7, a8, a9, a10, a11, a12, a13, a14, a15, a16, a17, a18, a19, a20,
          a21, a22, a23, a24);
      a0, a1, a2, a3, a4, a5, a6, a7, a8, a9, a10, a11, a12, a13, a14, a15, a16, a17, a18, a19, a20, a21, a22, a23,
        a24 :=
        UnrolledChi(a0, a1, a2, a3, a4, a5, a6, a7, a8, a9, a10, a11, a12, a13, a14, a15, a16, a17, a18, a19, a20,
          a21, a22, a23, a24);
      a0 := Xor(a0, RC[r]);
      RoundConstants(r);
      assert State(Plane(a0, a1, a2, a3, a4), Plane(a5, a6, a7, a8, a9), Plane(a10, a11, a12, a13, a14), Plane(a15,
        a16, a17, a18, a19), Plane(a20, a21, a22, a23, a24)) == Round(A, r);
    }
    Store(s, State(Plane(a0, a1, a2, a3, a4), Plane(a5, a6, a7, a8, a9), Plane(a10, a11, a12, a13, a14), Plane(a15,
      a16, a17, a18, a19), Plane(a20, a21, a22, a23, a24)));
  }
}
