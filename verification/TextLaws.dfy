/** What the small text functions mean. */
module TextLaws {
  import opened Text

  const UPPER := "ABCDEFGHIJKLMNOPQRSTUVWXYZ"
  const LOWER := "abcdefghijklmnopqrstuvwxyz"

  /** Lowering moves the 26 capitals to their small letters and nothing else. */
  lemma LowerPairs(c: char, k: nat)
    requires k < 26
    ensures LowerChar(UPPER[k]) == LOWER[k]
    ensures LowerChar(c) != c ==> c in UPPER
  {
    assert UPPER[k] as int == 65 + k;
    if 'A' <= c <= 'Z' {
      LetterAt(c as int - 65);
    }
  }

  lemma LetterAt(k: nat)
    requires k < 26
    ensures UPPER[k] as int == 65 + k
  {
  }

  /** The blanks are the space and the control characters 9 to 13. */
  lemma SpacesIff(c: char)
    ensures c in SPACES <==> c as int == 32 || 9 <= c as int <= 13
  {
  }

  lemma {:induction false} VisibleStep(s: string, target: string, i: nat, next: nat)
    requires i < |s| && SkipIgnored(s, i) == Advanced(next)
    ensures FindVisible(s, target, i) == FindVisible(s, target, next)
  {
  }

  lemma NoneVisibleHere(s: string, target: string, i: nat)
    requires i < |s| && SkipIgnored(s, i) == Blocked
    ensures FindVisible(s, target, i) == -1
  {
  }

  /** The first end of a piece that is closed at its own end. */
  lemma EndBehind(open: string, x: string, close: string, y: string)
    requires IndexFrom(x + close, close, 0) == |x|
    ensures IndexFrom(open + x + close + y, close, |open|) == |open| + |x|
  {
    hide IndexFrom;
    var s, m := open + x + close + y, |open| + |x|;
    assert s == open + (x + close) + y;
    SameInside(open, x + close, y, close, m);
    var r := IndexFrom(s, close, |open|);
    assert At(s, m, close);
    if r < m {
      SameInside(open, x + close, y, close, r);
    }
  }

  lemma SameInside(open: string, x: string, y: string, close: string, j: nat)
    requires |open| <= j && j + |close| <= |open| + |x|
    ensures At(open + x + y, j, close) == At(x, j - |open|, close)
  {
    AtShift(open, x, j - |open|, close);
    AtAppend(open + x, y, j, close);
  }

  lemma NoEnd(open: string, x: string, close: string)
    requires IndexFrom(x, close, 0) < 0
    ensures IndexFrom(open + x, close, |open|) < 0
  {
    hide IndexFrom;
    var r := IndexFrom(open + x, close, |open|);
    if r >= 0 {
      AtShift(open, x, r - |open|, close);
    }
  }

  /** Nothing is seen inside a comment: looking goes on behind its first end; a comment that does not
      end hides all that follows. */
  lemma CommentHides(x: string, y: string, target: string)
    ensures IndexFrom(x + "-->", "-->", 0) == |x| ==>
      FindVisible("<!--" + x + "-->" + y, target, 0) == FindVisible("<!--" + x + "-->" + y, target, |x| + 7)
    ensures IndexFrom(x, "-->", 0) < 0 ==> FindVisible("<!--" + x, target, 0) == -1
  {
    hide IndexFrom, FindVisible;
    assert COMMENT_OPEN == "<!--" && COMMENT_CLOSE == "-->";
    CommentStarts(x);
    CommentStarts(x + "-->" + y);
    var s := "<!--" + x + "-->" + y;
    assert s == "<!--" + (x + "-->" + y);
    if IndexFrom(x + "-->", "-->", 0) == |x| {
      EndBehind("<!--", x, "-->", y);
      VisibleStep(s, target, 0, |x| + 7);
    }
    if IndexFrom(x, "-->", 0) < 0 {
      NoEnd("<!--", x, "-->");
      NoneVisibleHere("<!--" + x, target, 0);
    }
  }

  lemma CommentStarts(x: string)
    ensures At("<!--" + x, 0, COMMENT_OPEN) && !At("<!--" + x, 0, CDATA_OPEN)
  {
    if At("<!--" + x, 0, CDATA_OPEN) {
      AtChar("<!--" + x, 0, CDATA_OPEN, 2);
    }
  }

  /** The same for sections. */
  lemma SectionHides(x: string, y: string, target: string)
    ensures IndexFrom(x + "]]>", "]]>", 0) == |x| ==>
      FindVisible("<![CDATA[" + x + "]]>" + y, target, 0) == FindVisible("<![CDATA[" + x + "]]>" + y, target, |x| + 12)
    ensures IndexFrom(x, "]]>", 0) < 0 ==> FindVisible("<![CDATA[" + x, target, 0) == -1
  {
    hide IndexFrom, FindVisible;
    assert CDATA_CLOSE == "]]>" && |CDATA_OPEN| == 9;
    SectionStarts(x);
    SectionStarts(x + "]]>" + y);
    var s := "<![CDATA[" + x + "]]>" + y;
    assert s == "<![CDATA[" + (x + "]]>" + y);
    if IndexFrom(x + "]]>", "]]>", 0) == |x| {
      EndBehind("<![CDATA[", x, "]]>", y);
      VisibleStep(s, target, 0, |x| + 12);
    }
    if IndexFrom(x, "]]>", 0) < 0 {
      NoEnd("<![CDATA[", x, "]]>");
      NoneVisibleHere("<![CDATA[" + x, target, 0);
    }
  }

  lemma SectionStarts(x: string)
    ensures At("<![CDATA[" + x, 0, CDATA_OPEN)
  {
    var s := "<![CDATA[" + x;
    assert s[0] == '<' && s[1] == '!' && s[2] == '[' && s[3] == 'C' && s[4] == 'D' && s[5] == 'A';
    assert s[6] == 'T' && s[7] == 'A' && s[8] == '[';
  }

  /** Blanks around a text do not change what is trimmed out of it. */
  lemma TrimPast(a: string, x: string, b: string)
    requires All(a, SPACES) && All(b, SPACES)
    ensures TrimSpace(a + x + b) == TrimSpace(x)
  {
    hide SPACES, TrimSpace;
    var t := TrimSpace(x);
    if t == "" {
      TrimsToNothing(x);
      AllJoin(a, x, b);
      TrimsToNothing(a + x + b);
    } else {
      var l, r := Around(x);
      AllJoin(a, l, "");
      AllJoin(r, b, "");
      TrimEnds(x);
      TrimPadded(a + l, t, r + b);
      assert a + x + b == (a + l) + t + (r + b);
    }
  }

  lemma AllJoin(a: string, x: string, b: string)
    requires All(a, SPACES) && All(x, SPACES) && All(b, SPACES)
    ensures All(a + x + b, SPACES) && All(a + x, SPACES)
  {
    hide SPACES;
  }

  lemma {:induction false} TrimOver(a: string, x: string, cut: string)
    requires All(a, cut) && (x == "" || x[0] !in cut)
    ensures TrimLeft(a + x, cut) == x
  {
    if a == "" {
      assert a + x == x;
    } else {
      assert (a + x)[1..] == a[1..] + x;
      TrimOver(a[1..], x, cut);
    }
  }

  lemma {:induction false} TrimBack(x: string, b: string, cut: string)
    requires All(b, cut) && (x == "" || x[|x| - 1] !in cut)
    ensures TrimRight(x + b, cut) == x
  {
    if b == "" {
      assert x + b == x;
    } else {
      var s, n := x + b, |b| - 1;
      assert s[..|s| - 1] == x + b[..n];
      assert s[|s| - 1] == b[n];
      TrimBack(x, b[..n], cut);
    }
  }
}
