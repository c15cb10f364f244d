/** When a fence opens in a text, read character by character. */
module FencedLines {
  import opened Text
  import opened FencedText

  predicate MarkerAt(t: string) {
    At(t, 0, TICKS) || At(t, 0, TILDES)
  }

  /** The text starts with a fence, after blanks. */
  predicate Fenced(t: string) {
    if t != "" && t[0] in INDENT then Fenced(t[1..]) else MarkerAt(t)
  }

  predicate HasMarker(t: string) {
    t != "" && (MarkerAt(t) || HasMarker(t[1..]))
  }

  /** No line after the first starts with a fence. */
  predicate QuietLines(t: string) {
    t != "" ==> (t[0] == '\n' ==> !Fenced(t[1..])) && QuietLines(t[1..])
  }

  /** A section opens before any fence marker. */
  predicate OpensSooner(t: string) {
    t != "" && (At(t, 0, CDATA_OPEN) || (!MarkerAt(t) && OpensSooner(t[1..])))
  }

  /** Letters that are part of no fence, and are not dropped in front of one. */
  predicate Solid(c: char) {
    c !in " \t`~"
  }

  lemma MarkerChars(t: string)
    ensures MarkerAt(t) <==> |t| >= 3 && t[0] in "`~" && t[1] == t[0] && t[2] == t[0]
  {
    MarkIs(t, '`');
    MarkIs(t, '~');
    assert TICKS == ['`', '`', '`'] && TILDES == ['~', '~', '~'];
  }

  lemma MarkIs(t: string, c: char)
    requires c in "`~"
    ensures At(t, 0, [c, c, c]) <==> |t| >= 3 && t[0] == c && t[1] == c && t[2] == c
  {
    if At(t, 0, [c, c, c]) {
      AtChar(t, 0, [c, c, c], 0);
      AtChar(t, 0, [c, c, c], 1);
      AtChar(t, 0, [c, c, c], 2);
    }
  }

  lemma {:induction false} FencedIff(l: string)
    ensures OpenMarker(TrimLeft(l, INDENT)) != "" <==> Fenced(l)
  {
    if l != "" && l[0] in INDENT {
      FencedIff(l[1..]);
    } else {
      MarkerChars(l);
      LeadingThree(l);
    }
  }

  lemma LeadingThree(l: string)
    ensures |l| >= 3 ==> (Leading(l, l[0]) >= 3 <==> l[1] == l[0] && l[2] == l[0])
  {
    if |l| >= 3 {
      assert l[1..][0] == l[1] && l[2..][0] == l[2] && l[1..][1..] == l[2..];
      assert Leading(l, l[0]) == 1 + Leading(l[1..], l[0]);
      if l[1] == l[0] {
        assert Leading(l[1..], l[0]) == 1 + Leading(l[2..], l[0]);
      }
    }
  }

  /** What stands behind a solid letter does not matter. */
  lemma MarkerStops(u: string, y: string)
    requires y != "" && Solid(y[0])
    ensures MarkerAt(u + y) == MarkerAt(u)
  {
    MarkerChars(u + y);
    MarkerChars(u);
    assert (u + y)[|u|] == y[0];
  }

  lemma {:induction false} FencedStops(u: string, y: string)
    requires y != "" && Solid(y[0])
    ensures Fenced(u + y) == Fenced(u)
  {
    MarkerStops(u, y);
    if u != "" && u[0] in INDENT {
      assert (u + y)[1..] == u[1..] + y;
      FencedStops(u[1..], y);
    } else if u == "" {
      assert u + y == y;
    }
  }

  lemma {:induction false} HasMarkerStops(u: string, y: string)
    requires y != "" && Solid(y[0])
    ensures HasMarker(u + y) == (HasMarker(u) || HasMarker(y))
  {
    MarkerStops(u, y);
    if u == "" {
      assert u + y == y;
    } else {
      assert (u + y)[1..] == u[1..] + y;
      HasMarkerStops(u[1..], y);
    }
  }

  /** Neither does what stands behind a line break. */
  lemma {:induction false} FencedLine(a: string, b: string)
    requires '\n' in a
    ensures Fenced(a + b) == Fenced(a)
  {
    if a[0] in INDENT {
      assert (a + b)[1..] == a[1..] + b && '\n' in a[1..];
      FencedLine(a[1..], b);
    } else {
      MarkerChars(a);
      MarkerChars(a + b);
    }
  }

  lemma {:induction false} QuietSkip(x: string, y: string)
    requires '\n' !in x
    ensures QuietLines(x + y) == QuietLines(y)
  {
    hide Fenced;
    if x == "" {
      assert x + y == y;
    } else {
      assert (x + y)[1..] == x[1..] + y && '\n' !in x[1..];
      QuietSkip(x[1..], y);
    }
  }

  lemma QuietBreak(y: string)
    ensures QuietLines("\n" + y) == (!Fenced(y) && QuietLines(y))
  {
    hide Fenced;
    assert ("\n" + y)[1..] == y;
  }

  lemma {:induction false} QuietStops(u: string, y: string)
    requires y != "" && Solid(y[0]) && '\n' !in y
    ensures QuietLines(u + y) == QuietLines(u)
  {
    hide Fenced;
    if u == "" {
      assert u + y == y && y + "" == y;
      QuietSkip(y, "");
    } else {
      assert (u + y)[1..] == u[1..] + y;
      QuietStops(u[1..], y);
      FencedStops(u[1..], y);
    }
  }

  /** A line alone, and the lines behind it. */
  lemma {:induction false} QuietLinesLine(l: string, rest: string)
    requires l != "" && l[|l| - 1] == '\n' && '\n' !in l[..|l| - 1]
    ensures QuietLines(l + rest) == (!Fenced(rest) && QuietLines(rest))
  {
    hide Fenced, QuietLines;
    assert l + rest == l[..|l| - 1] + ("\n" + rest);
    QuietSkip(l[..|l| - 1], "\n" + rest);
    QuietBreak(rest);
  }

  /** Lines that end in a line break, and text behind them that holds none. */
  lemma {:induction false} QuietLinesEnd(a: string, h: string)
    requires a != "" && a[|a| - 1] == '\n' && '\n' !in h
    ensures QuietLines(a + h) == (QuietLines(a) && !Fenced(h))
  {
    hide Fenced;
    assert (a + h)[1..] == a[1..] + h;
    if |a| == 1 {
      assert a == "\n" && a[1..] == "" && "" + h == h && h + "" == h;
      NothingFenced();
      QuietSkip(h, "");
    } else {
      QuietLinesEnd(a[1..], h);
      FencedLine(a[1..], h);
    }
  }

  lemma NothingFenced()
    ensures !Fenced("")
  {
  }

  // Sections.

  lemma {:induction false} SoonerIff(l: string)
    ensures SectionFirst(l) <==> OpensSooner(l)
  {
    hide At;
    if l == "" {
      NothingAt();
    } else {
      SoonerIff(l[1..]);
      ShiftIndex(l, CDATA_OPEN);
      ShiftIndex(l, TICKS);
      ShiftIndex(l, TILDES);
      if At(l, 0, CDATA_OPEN) {
        AtChar(l, 0, CDATA_OPEN, 0);
        MarkerChars(l);
      }
    }
  }

  lemma NothingAt()
    ensures IndexFrom("", CDATA_OPEN, 0) < 0
  {
  }

  lemma {:induction false} ShiftIndex(l: string, p: string)
    requires l != "" && p != ""
    ensures var i := IndexFrom(l[1..], p, 0);
      IndexFrom(l, p, 0) == if At(l, 0, p) then 0 else if i < 0 then -1 else i + 1
  {
    hide At;
    var i, k := IndexFrom(l[1..], p, 0), IndexFrom(l, p, 0);
    assert l == l[..1] + l[1..];
    if k > 0 {
      AtShift(l[..1], l[1..], k - 1, p);
    }
    if i >= 0 {
      AtShift(l[..1], l[1..], i, p);
    }
  }

  /** No comment, no section: what follows an opening bracket is not an exclamation mark. */
  predicate TagsOnly(t: string) {
    forall i :: 0 <= i < |t| && t[i] == '<' ==> i + 1 < |t| && t[i + 1] != '!'
  }

  lemma TagsOnlyTail(t: string)
    requires t != "" && TagsOnly(t)
    ensures TagsOnly(t[1..])
  {
    forall i | 0 <= i < |t[1..]| && t[1..][i] == '<' ensures i + 1 < |t[1..]| && t[1..][i + 1] != '!' {
      assert t[i + 1] == '<';
    }
  }

  lemma NoOpenerAt(u: string, y: string)
    requires u != "" && TagsOnly(u)
    ensures !At(u + y, 0, CDATA_OPEN)
  {
    if At(u + y, 0, CDATA_OPEN) {
      AtChar(u + y, 0, CDATA_OPEN, 0);
      AtChar(u + y, 0, CDATA_OPEN, 1);
    }
  }

  lemma {:induction false} TagsOnlySooner(h: string)
    requires TagsOnly(h)
    ensures !OpensSooner(h)
  {
    hide TagsOnly, MarkerAt;
    if h != "" {
      TagsOnlyTail(h);
      TagsOnlySooner(h[1..]);
      assert h + "" == h;
      NoOpenerAt(h, "");
    }
  }

  /** A section opened behind text without one. */
  lemma {:induction false} SoonerBehind(h: string, y: string)
    requires TagsOnly(h) && At(y, 0, CDATA_OPEN)
    ensures OpensSooner(h + y) == !HasMarker(h)
    ensures SectionAfter(false, h + y) == SectionAfter(true, y[9..])
  {
    hide TagsOnly, MarkerAt;
    if h == "" {
      assert h + y == y;
    } else {
      TagsOnlyTail(h);
      assert (h + y)[1..] == h[1..] + y;
      SoonerBehind(h[1..], y);
      NoOpenerAt(h, y);
      AtChar(y, 0, CDATA_OPEN, 0);
      assert y[0] == '<' && Solid(y[0]);
      MarkerStops(h, y);
    }
  }

  // Lines joined.

  /** Whether a section is open after these lines. */
  function Left(section: bool, t: string): bool
    decreases |t|
  {
    if t == "" then section
    else
      var l, rest := Line(t), t[|Line(t)|..];
      if section || SectionFirst(l) then Left(SectionAfter(section, l), rest) else Left(section, rest)
  }

  predicate Closed(a: string) {
    a == "" || a[|a| - 1] == '\n'
  }

  lemma {:induction false} LineOf(l: string, rest: string)
    requires l != "" && l[|l| - 1] == '\n' && '\n' !in l[..|l| - 1]
    ensures Line(l + rest) == l && (l + rest)[|l|..] == rest
    decreases |l|
  {
    if |l| == 1 {
      assert l == ['\n'];
    } else {
      assert l[0] == l[..|l| - 1][0];
      assert (l + rest)[1..] == l[1..] + rest;
      assert l[1..][..|l| - 2] == l[..|l| - 1][1..];
      LineOf(l[1..], rest);
      assert [l[0]] + l[1..] == l;
    }
  }

  lemma {:induction false} QuietJoin(section: bool, a: string, b: string)
    requires Closed(a)
    ensures Quiet(section, a + b) == (Quiet(section, a) && Quiet(Left(section, a), b))
    ensures Left(section, a + b) == Left(Left(section, a), b)
    decreases |a|
  {
    hide SectionFirst, SectionAfter, OpenMarker, TrimLeft, Line;
    if a == "" {
      assert a + b == b;
    } else {
      var l, rest := Line(a), a[|Line(a)|..];
      LineInside(a);
      assert l[|l| - 1] == '\n' by {
        if l[|l| - 1] != '\n' {
          assert l == a;
        }
      }
      assert a == l + rest && a + b == l + (rest + b);
      LineOf(l, rest + b);
      QuietJoin(if section || SectionFirst(l) then SectionAfter(section, l) else section, rest, b);
    }
  }

  /** One line with its line break. */
  lemma QuietOne(section: bool, l: string)
    requires l != "" && l[|l| - 1] == '\n' && '\n' !in l[..|l| - 1]
    ensures Quiet(section, l) <==> section || OpensSooner(l) || !Fenced(l)
    ensures Left(section, l) == if section || OpensSooner(l) then SectionAfter(section, l) else section
  {
    hide SectionFirst, SectionAfter, OpenMarker, TrimLeft, Line, OpensSooner, Fenced;
    assert l + "" == l;
    LineOf(l, "");
    SoonerIff(l);
    FencedIff(l);
    assert forall open :: Quiet(open, "") && Left(open, "") == open;
  }

  lemma TagsOnlyLine(t: string)
    requires t != "" && TagsOnly(t)
    ensures var l := Line(t); TagsOnly(l) && TagsOnly(t[|l|..])
  {
    var l := Line(t);
    LineInside(t);
    assert t == l + t[|l|..];
    forall i | 0 <= i < |l| && l[i] == '<' ensures i + 1 < |l| && l[i + 1] != '!' {
      assert t[i] == '<';
    }
    forall i | 0 <= i < |t[|l|..]| && t[|l|..][i] == '<' ensures i + 1 < |t[|l|..]| && t[|l|..][i + 1] != '!' {
      assert t[|l| + i] == '<';
    }
  }

  /** A text without sections is quiet if none of its lines starts with a fence. */
  lemma {:induction false} QuietPlain(t: string)
    requires TagsOnly(t)
    ensures Quiet(false, t) <==> !Fenced(t) && QuietLines(t)
    ensures !Left(false, t)
    decreases |t|
  {
    hide SectionFirst, SectionAfter, OpenMarker, TrimLeft, Line, OpensSooner, Fenced, TagsOnly, QuietLines;
    if t == "" {
      NothingFenced();
      assert QuietLines(t) by { NoLines0(); }
    } else {
      var l, rest := Line(t), t[|Line(t)|..];
      TagsOnlyLine(t);
      TagsOnlySooner(l);
      SoonerIff(l);
      FencedIff(l);
      QuietPlain(rest);
      LineInside(t);
      if l[|l| - 1] == '\n' {
        assert t == l + rest;
        QuietLinesLine(l, rest);
        FencedLine(l, rest);
      } else {
        assert rest == "" && t + "" == t;
        OneLineOnly(t);
        NothingFenced();
        NoLines0();
      }
    }
  }

  lemma NoLines0()
    ensures QuietLines("")
  {
  }

  lemma OneLineOnly(t: string)
    requires t != "" && Line(t) == t && t[|t| - 1] != '\n'
    ensures QuietLines(t)
  {
    hide QuietLines, Line, Fenced;
    LineInside(t);
    forall i | 0 <= i < |t| ensures t[i] != '\n' {
      assert i < |t| - 1 ==> t[i] == t[..|t| - 1][i];
    }
    assert t + "" == t;
    QuietSkip(t, "");
    NoLines0();
  }
}
