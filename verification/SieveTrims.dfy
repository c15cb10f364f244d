/** Which fence goes with a block that is cut out of the text. */
module SieveTrims {
  import opened Text
  import opened TextLaws
  import opened CodeFence
  import opened FenceLaws
  import opened SieveModel

  // Counting fences.

  lemma {:induction false} CountSkips(s: string, i: nat, j: nat)
    requires i <= j <= |s| && forall k :: i <= k < j ==> !At(s, k, TICKS)
    ensures CountTicks(s, i) == CountTicks(s, j)
  {
    hide At;
    var r, q := IndexFrom(s, TICKS, i), IndexFrom(s, TICKS, j);
    assert r == q;
  }

  lemma {:induction false} CountShift(x: string, s: string, i: nat)
    requires i <= |s|
    ensures CountTicks(x + s, |x| + i) == CountTicks(s, i)
    decreases |s| - i
  {
    hide At, IndexFrom;
    IndexShift(x, s, i);
    var r := IndexFrom(s, TICKS, i);
    if r >= 0 {
      AtInside(s, r, TICKS);
      CountShift(x, s, r + 3);
    }
  }

  lemma IndexShift(x: string, s: string, i: nat)
    ensures var r := IndexFrom(s, TICKS, i);
      IndexFrom(x + s, TICKS, |x| + i) == if r < 0 then -1 else |x| + r
  {
    hide At, IndexFrom;
    var r, q := IndexFrom(s, TICKS, i), IndexFrom(x + s, TICKS, |x| + i);
    if r >= 0 {
      AtShift(x, s, r, TICKS);
    }
    if q >= 0 {
      AtShift(x, s, q - |x|, TICKS);
    }
  }

  lemma NotTicks(s: string, k: nat, m: nat)
    requires k <= m < k + 3 && (m < |s| ==> s[m] != '`')
    ensures !At(s, k, TICKS)
  {
    if At(s, k, TICKS) {
      AtChar(s, k, TICKS, m - k);
    }
  }

  lemma AllTicks(n: nat, b: string)
    requires n >= 3
    ensures At(Ticks(n) + b, 0, TICKS)
  {
    forall k | 0 <= k < 3 ensures LowerChar((Ticks(n) + b)[0 + k]) == TICKS[k] {
    }
  }

  /** A run of back-ticks counts once for every three of them, wherever it stands. */
  lemma {:induction false} RunsCount(a: string, n: nat, b: string)
    requires NoTicks(a) && (b == "" || b[0] != '`')
    ensures CountTicks(a + Ticks(n) + b, 0) == n / 3 + CountTicks(b, 0)
    decreases |a| + n
  {
    hide At, CountTicks;
    var s := Ticks(n) + b;
    assert a + Ticks(n) + b == a + s;
    assert a == "" ==> a + s == s;
    assert |Ticks(3)| == 3 && |Ticks(n)| == n;
    if a != "" {
      forall k | 0 <= k < |a| ensures !At(a + s, k, TICKS) {
        NotTicks(a + s, k, k);
      }
      CountSkips(a + s, 0, |a|);
      CountShift(a, s, 0);
      RunsCount("", n, b);
      assert "" + Ticks(n) + b == s;
    } else if n >= 3 {
      AllTicks(n, b);
      CountsOne(s);
      assert Ticks(n) == Ticks(3) + Ticks(n - 3);
      assert s == Ticks(3) + (Ticks(n - 3) + b);
      CountShift(Ticks(3), Ticks(n - 3) + b, 0);
      RunsCount("", n - 3, b);
      assert "" + Ticks(n - 3) + b == Ticks(n - 3) + b;
    } else {
      forall k | 0 <= k < n ensures !At(s, k, TICKS) {
        NotTicks(s, k, n);
      }
      CountSkips(s, 0, n);
      CountShift(Ticks(n), b, 0);
    }
  }

  lemma CountsOne(s: string)
    requires At(s, 0, TICKS)
    ensures CountTicks(s, 0) == 1 + CountTicks(s, 3)
  {
  }

  // The fence around a block.

  /** What may stand between a fence and the block in it. */
  predicate Header(w: string) {
    All(w, SPACES) || SameWord(TrimSpace(w), "json")
  }

  lemma LastTicks(a: string, w: string)
    requires forall j :: 0 < j ==> !At("```" + w, j, TICKS)
    ensures LastIndexOf(a + "```" + w, TICKS) == |a|
  {
    hide At, LastIndexUpTo;
    var s := a + "```" + w;
    assert s == a + ("```" + w);
    assert "```" + w == Ticks(3) + w;
    AllTicks(3, w);
    AtShift(a, "```" + w, 0, TICKS);
    var r := LastIndexOf(s, TICKS);
    if r > |a| {
      AtShift(a, "```" + w, r - |a|, TICKS);
    }
  }

  /** The last three back-ticks before a block, followed by blanks or "json", and the three that come
      next behind it, but for line blanks, go with the block if the first open a fence; otherwise
      nothing goes. */
  lemma {:induction false} FenceGoesIff(a: string, w: string, b: string, c: string, d: string)
    requires forall j :: 0 < j ==> !At("```" + w, j, TICKS)
    requires All(b, " \t\r\n") && (w == "" || w[|w| - 1] !in " \t\r\n")
    requires All(c, " \t\r\n") && (d == "" || d[0] !in " \t\r\n")
    ensures TrimFence(a + "```" + w + b, c + d)
         == if CountTicks(a + "```", 0) % 2 == 1 && Header(w) && "```" <= d then (a, d[3..])
            else (a + "```" + w + b, c + d)
  {
    hide At, LastIndexOf, CountTicks, TrimSpace, All, SameWord;
    var t := a + "```" + w;
    assert t[|t| - 1] == (if w == "" then '`' else w[|w| - 1]);
    SameBlanks(b);
    SameBlanks(c);
    TrimBack(t, b, LINE_SPACES);
    TrimOver(c, d, LINE_SPACES);
    LastTicks(a, w);
    assert t[..|a| + 3] == a + "```" && t[|a| + 3..] == w && t[..|a|] == a;
    HeaderIs(w);
    TicksFirst(d);
  }

  lemma SameBlanks(b: string)
    requires All(b, " \t\r\n")
    ensures All(b, LINE_SPACES) && forall x :: x in LINE_SPACES <==> x in " \t\r\n"
  {
  }

  lemma HeaderIs(w: string)
    ensures JsonHeader(TrimSpace(w)) <==> Header(w)
  {
    hide TrimSpace, All;
    TrimsToNothing(w);
  }

  lemma TicksFirst(d: string)
    ensures At(d, 0, TICKS) <==> "```" <= d
  {
    if At(d, 0, TICKS) {
      AtChar(d, 0, TICKS, 0);
      AtChar(d, 0, TICKS, 1);
      AtChar(d, 0, TICKS, 2);
      assert d[..3] == "```";
    }
  }

  /** Nothing goes without three back-ticks before the block. */
  lemma NoFenceNoneGoes(before: string, after: string)
    requires forall j :: !At(before, j, TICKS)
    ensures TrimFence(before, after) == (before, after)
  {
    hide At, LastIndexUpTo;
    TrimRightSplit(before, LINE_SPACES);
    var t := TrimRight(before, LINE_SPACES);
    var k := LastIndexOf(t, TICKS);
    assert before == t + before[|t|..];
    if k >= 0 {
      AtAppend(t, before[|t|..], k, TICKS);
    }
  }
}
