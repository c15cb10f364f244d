/** When cutting fenced lines leaves rendered tool calls alone. */
module FencedCalls {
  import opened Text
  import opened FencedText
  import opened FencedLines
  import opened ToolCallText
  import opened MarkupScan
  import opened MarkupInert
  import opened ToolCallRoundTrip

  function LastLine(n: string): string {
    if '\n' in n then LastLine(n[1..]) else n
  }

  /** A section opens in this line of a value before any fence marker: where the value opens one, or
      holds a closer, which is rendered as a closer and an opener. */
  predicate EntersSection(l: string) {
    l != "" &&
    (At(l, 0, CDATA_OPEN) || At(l, 0, CDATA_CLOSE) || (!MarkerAt(l) && EntersSection(l[1..])))
  }

  /** No line of a value that is read outside its section starts with a fence. */
  predicate QuietOutside(w: string)
    decreases |w|
  {
    w == "" || EntersSection(Line(w)) || (!Fenced(w) && QuietOutside(w[|Line(w)|..]))
  }

  function AfterLine(v: string): string {
    if v == "" then "" else v[|Line(v)|..]
  }

  /** A parameter no fence opens in: neither in a line of its name, nor, if the last line of the name
      hides the start of its section from the scan, in the value's lines after the first. */
  predicate QuietParam(p: (string, string)) {
    var name := TrimSpace(p.0);
    QuietLines(name) && (HasMarker(LastLine(name)) ==> QuietOutside(AfterLine(p.1)))
  }

  predicate QuietParams(ps: seq<(string, string)>) {
    forall i :: 0 <= i < |ps| ==> QuietParam(ps[i])
  }

  predicate QuietCall(json: string, c: Call) {
    TrimSpace(c.name) != "" ==> QuietLines(TrimSpace(c.name)) && QuietParams(Shown(json, c))
  }

  // Names.

  predicate Starts(s: string, c: char, n: nat) {
    n == 0 || (s != "" && s[0] == c && Starts(s[1..], c, n - 1))
  }

  lemma MarkerStarts(s: string)
    ensures MarkerAt(s) <==> Starts(s, '`', 3) || Starts(s, '~', 3)
  {
    MarkerChars(s);
    StartsThree(s, '`');
    StartsThree(s, '~');
  }

  lemma {:induction false} StartsLong(s: string, c: char, n: nat)
    requires Starts(s, c, n)
    ensures |s| >= n
  {
    if n > 0 {
      StartsLong(s[1..], c, n - 1);
    }
  }

  lemma StartsThree(s: string, c: char)
    ensures Starts(s, c, 3) <==> |s| >= 3 && s[0] == c && s[1] == c && s[2] == c
  {
    if Starts(s, c, 3) {
      StartsLong(s, c, 3);
    }
    if |s| >= 3 {
      assert s[1..][0] == s[1] && s[1..][1..][0] == s[2];
      assert Starts(s[1..], c, 2) <==> s[1] == c && Starts(s[1..][1..], c, 1);
      assert Starts(s[1..][1..], c, 1) <==> s[2] == c;
    }
  }

  lemma {:induction false} EscapeStarts(s: string, c: char, n: nat)
    requires c in "`~"
    ensures Starts(Escape(s), c, n) == Starts(s, c, n)
  {
    if n > 0 && s != "" {
      EscapeStarts(s[1..], c, n - 1);
      if s[0] in "`~" {
        assert Escape(s) == [s[0]] + Escape(s[1..]);
        assert Escape(s)[1..] == Escape(s[1..]);
      }
    }
  }

  lemma EscapeMarker(s: string)
    ensures MarkerAt(Escape(s)) == MarkerAt(s)
  {
    MarkerStarts(s);
    MarkerStarts(Escape(s));
    EscapeStarts(s, '`', 3);
    EscapeStarts(s, '~', 3);
  }

  lemma {:induction false} EscapeFenced(s: string)
    ensures Fenced(Escape(s)) == Fenced(s)
  {
    hide MarkerAt;
    EscapeMarker(s);
    if s != "" && s[0] in INDENT {
      assert Escape(s)[1..] == Escape(s[1..]);
      EscapeFenced(s[1..]);
    }
  }

  lemma {:induction false} EscapeBreaks(s: string)
    ensures '\n' in Escape(s) <==> '\n' in s
  {
    if s != "" {
      EscapeBreaks(s[1..]);
      assert s == [s[0]] + s[1..];
    }
  }

  lemma {:induction false} EscapeLines(s: string)
    ensures QuietLines(Escape(s)) == QuietLines(s)
  {
    hide Fenced;
    if s != "" {
      EscapeLines(s[1..]);
      EscapeFenced(s[1..]);
      if s[0] == '\n' {
        assert Escape(s) == "\n" + Escape(s[1..]);
        QuietBreak(Escape(s[1..]));
      } else {
        QuietSkip(EscapeChar(s[0]), Escape(s[1..]));
      }
    }
  }

  lemma {:induction false} MarkSkip(x: string, y: string)
    requires forall i :: 0 <= i < |x| ==> x[i] !in "`~"
    ensures HasMarker(x + y) == HasMarker(y)
  {
    if x == "" {
      assert x + y == y;
    } else {
      assert (x + y)[1..] == x[1..] + y;
      MarkSkip(x[1..], y);
      MarkerChars(x + y);
    }
  }

  lemma {:induction false} EscapeHasMarker(s: string)
    ensures HasMarker(Escape(s)) == HasMarker(s)
  {
    hide MarkerAt, EscapeChar;
    if s != "" {
      EscapeHasMarker(s[1..]);
      EscapeMarker(s);
      if s[0] in "`~" {
        EscapeOne(s[0]);
        assert Escape(s)[1..] == Escape(s[1..]);
      } else {
        EscapeNoMark(s[0]);
        MarkSkip(EscapeChar(s[0]), Escape(s[1..]));
        MarkerChars(s);
      }
    }
  }

  lemma EscapeOne(c: char)
    requires c in "`~"
    ensures EscapeChar(c) == [c]
  {
  }

  lemma EscapeNoMark(c: char)
    requires c !in "`~"
    ensures forall i :: 0 <= i < |EscapeChar(c)| ==> EscapeChar(c)[i] !in "`~"
  {
  }

  lemma {:induction false} LastSkip(x: string, y: string)
    requires '\n' in y || (x != "" && x[|x| - 1] == '\n')
    ensures LastLine(x + y) == LastLine(y)
  {
    if x == "" {
      assert x + y == y;
    } else {
      assert (x + y)[1..] == x[1..] + y;
      assert '\n' in x + y;
      if |x| == 1 {
        assert x[1..] + y == y;
      } else {
        LastSkip(x[1..], y);
      }
    }
  }

  lemma {:induction false} LastAppend(u: string, y: string)
    requires '\n' !in y
    ensures LastLine(u + y) == LastLine(u) + y
  {
    if '\n' in u {
      assert (u + y)[1..] == u[1..] + y;
      LastAppend(u[1..], y);
    }
  }

  lemma {:induction false} LastIsEnd(n: string)
    ensures var h := LastLine(n); |h| <= |n| && n[|n| - |h|..] == h && '\n' !in h && ('\n' !in n ==> h == n)
  {
    if '\n' in n {
      LastIsEnd(n[1..]);
    }
  }

  lemma {:induction false} LastIsLine(n: string)
    requires '\n' in n
    ensures var k := |n| - |LastLine(n)|; 0 < k && n[k - 1] == '\n'
  {
    LastIsEnd(n[1..]);
    assert n == [n[0]] + n[1..];
    if '\n' in n[1..] {
      LastIsLine(n[1..]);
    }
  }

  lemma LastSplits(n: string)
    ensures var h := LastLine(n);
      && |h| <= |n| && n == n[..|n| - |h|] + h && Closed(n[..|n| - |h|]) && '\n' !in h
      && ('\n' in n <==> |h| < |n|)
  {
    LastIsEnd(n);
    if '\n' in n {
      LastIsLine(n);
    }
    hide LastLine;
    SplitsThere(n, |n| - |LastLine(n)|);
  }

  lemma SplitsThere(n: string, k: nat)
    requires k <= |n|
    ensures n == n[..k] + n[k..] && (k > 0 && n[k - 1] == '\n' ==> Closed(n[..k]) && '\n' in n)
    ensures k == 0 ==> n[k..] == n
  {
  }

  lemma {:induction false} EscapeLast(n: string)
    ensures LastLine(Escape(n)) == Escape(LastLine(n))
  {
    EscapeBreaks(n);
    if '\n' in n {
      EscapeLast(n[1..]);
      EscapeBreaks(n[1..]);
      LastSkip(EscapeChar(n[0]), Escape(n[1..]));
    }
  }

  // Values.

  lemma SplitFirst(v: string)
    requires v != "" && !At(v, 0, CDATA_CLOSE)
    ensures SplitCloses(v) == [v[0]] + SplitCloses(v[1..])
  {
    hide At, IndexFrom, SplitCloses;
    ShiftIndex(v, CDATA_CLOSE);
    SplitUnfolds(v);
    SplitUnfolds(v[1..]);
    var i := IndexFrom(v[1..], CDATA_CLOSE, 0);
    if i >= 0 {
      assert v[..i + 1] == [v[0]] + v[1..][..i];
      assert v[1..][i + 3..] == v[i + 1 + 3..];
      Associate([v[0]], v[1..][..i], SECTION_SPLIT, SplitCloses(v[1..][i + 3..]));
    } else {
      assert v == [v[0]] + v[1..];
    }
  }

  lemma IndexHere(v: string, p: string)
    requires At(v, 0, p)
    ensures IndexFrom(v, p, 0) == 0
  {
  }

  lemma CloserChars(t: string)
    ensures At(t, 0, CDATA_CLOSE) <==> |t| >= 3 && t[0] == ']' && t[1] == ']' && t[2] == '>'
  {
    if At(t, 0, CDATA_CLOSE) {
      AtChar(t, 0, CDATA_CLOSE, 0);
      AtChar(t, 0, CDATA_CLOSE, 1);
      AtChar(t, 0, CDATA_CLOSE, 2);
    }
  }

  lemma SplitCloser(v: string)
    requires At(v, 0, CDATA_CLOSE)
    ensures |v| >= 3 && v[0] == ']' && v[1] == ']' && v[2] == '>'
    ensures SplitCloses(v) == SECTION_SPLIT + SplitCloses(v[3..])
  {
    hide *;
    CloserChars(v);
    IndexHere(v, CDATA_CLOSE);
    SplitsHere(v, 0);
    NoneBefore(v[..0], SECTION_SPLIT, SplitCloses(v[3..]));
  }

  lemma SplitsHere(v: string, i: nat)
    requires IndexFrom(v, CDATA_CLOSE, 0) == i && i + 3 <= |v|
    ensures SplitCloses(v) == v[..i] + SECTION_SPLIT + SplitCloses(v[i + 3..])
  {
  }

  lemma NoneBefore(x: string, y: string, z: string)
    requires x == ""
    ensures x + y + z == y + z
  {
  }

  /** What may follow a rendered value: nothing, or its closer. */
  predicate Behind(y: string) {
    y == "" || (|y| >= 3 && y[0] == ']' && y[1] == ']' && y[2] == '>')
  }

  /** A rendered value starts with the same letters as the value. */
  lemma {:induction false} SplitStarts(v: string, y: string)
    requires Behind(y)
    ensures var s := SplitCloses(v) + y;
      if v == "" then s == y else s != "" && s[0] == v[0]
  {
    hide At, IndexFrom, SplitCloses;
    SplitUnfolds(v);
    if v == "" {
      assert SplitCloses(v) == "" by { EmptySplit(); }
      assert "" + y == y;
    } else if At(v, 0, CDATA_CLOSE) {
      SplitCloser(v);
    } else {
      SplitFirst(v);
    }
  }

  lemma EmptySplit()
    ensures SplitCloses("") == ""
  {
  }

  lemma SplitSecond(u: string, y: string)
    requires Behind(y)
    ensures var r := SplitCloses(u) + y;
      |r| >= 2 && r[0] == ']' && r[1] == '>' ==> |u| >= 2 && u[0] == ']' && u[1] == '>'
  {
    hide At, SplitCloses;
    var r := SplitCloses(u) + y;
    SplitStarts(u, y);
    if u != "" {
      if At(u, 0, CDATA_CLOSE) {
        SplitCloser(u);
        assert r[1] == SECTION_SPLIT[1];
      } else {
        SplitFirst(u);
        SplitStarts(u[1..], y);
        assert r[1..] == SplitCloses(u[1..]) + y;
        assert |r| >= 2 ==> r[1] == r[1..][0];
      }
    }
  }

  /** No closer starts in a rendered value but those put in. */
  lemma {:induction false} NoCloser(v: string, y: string)
    requires v != "" && !At(v, 0, CDATA_CLOSE) && Behind(y)
    ensures !At(SplitCloses(v) + y, 0, CDATA_CLOSE)
  {
    hide At, SplitCloses;
    var s := SplitCloses(v) + y;
    SplitFirst(v);
    CloserChars(v);
    CloserChars(s);
    SplitSecond(v[1..], y);
    assert s[1..] == SplitCloses(v[1..]) + y;
    assert |s| >= 3 ==> s[1] == s[1..][0] && s[2] == s[1..][1];
  }

  /** The section stays open through the value. */
  lemma {:induction false} SectionThrough(v: string, y: string)
    requires Behind(y)
    ensures SectionAfter(true, SplitCloses(v) + y) == SectionAfter(true, y)
    decreases |v|
  {
    hide At, IndexFrom, SplitCloses;
    var s := SplitCloses(v) + y;
    if v == "" {
      EmptySplit();
      assert "" + y == y;
    } else if At(v, 0, CDATA_CLOSE) {
      SplitCloser(v);
      var r := SplitCloses(v[3..]) + y;
      assert s == SECTION_SPLIT + r;
      SplitReopens(r);
      SectionThrough(v[3..], y);
    } else {
      NoCloser(v, y);
      SplitFirst(v);
      assert s[1..] == SplitCloses(v[1..]) + y;
      SectionThrough(v[1..], y);
    }
  }

  lemma SectionStep(open: bool, t: string, z: string)
    requires t != "" && t[1..] == z && !At(t, 0, Sought(open))
    ensures SectionAfter(open, t) == SectionAfter(open, z)
  {
  }

  lemma SoonerStep(t: string, z: string)
    requires t != "" && t[1..] == z && !MarkerAt(t) && OpensSooner(z)
    ensures OpensSooner(t)
  {
  }

  /** A closer put in is followed by an opener, for a scan inside and outside a section. */
  lemma SplitReopens(r: string)
    ensures SectionAfter(true, SECTION_SPLIT + r) == SectionAfter(true, r)
    ensures SectionAfter(false, SECTION_SPLIT + r) == SectionAfter(true, r)
    ensures OpensSooner(SECTION_SPLIT + r)
  {
    hide At, SectionAfter, OpensSooner, MarkerAt;
    var z := ">" + r;
    var o := SECTION_OPEN + z;
    OpenerHere(o);
    assert SECTION_SPLIT + r == "]]]]>" + o;
    Reopens(o, z);
    CloserChars(z);
    SectionStep(true, z, r);
    BracketsPass("]]]]>", o);
    BracketsPass("]]>", o);
    ClosesTwo("]]" + ("]]>" + o), "]]>" + o, o);
    assert "]]" + ("]]>" + o) == "]]]]>" + o;
  }

  lemma Reopens(o: string, z: string)
    requires At(o, 0, CDATA_OPEN) && o == SECTION_OPEN + z
    ensures SectionAfter(false, o) == SectionAfter(true, z) && OpensSooner(o)
  {
    assert o[9..] == z;
  }

  /** Outside a section the brackets of a closer are passed over. */
  lemma {:induction false} BracketsPass(x: string, o: string)
    requires (forall i :: 0 <= i < |x| ==> x[i] in "]>") && OpensSooner(o)
    ensures SectionAfter(false, x + o) == SectionAfter(false, o) && OpensSooner(x + o)
  {
    hide At, SectionAfter, OpensSooner, MarkerAt;
    if x == "" {
      assert x + o == o;
    } else {
      var t := x + o;
      assert t[1..] == x[1..] + o;
      BracketsPass(x[1..], o);
      NotOpener(t);
      MarkerChars(t);
      SectionStep(false, t, x[1..] + o);
      SoonerStep(t, x[1..] + o);
    }
  }

  lemma ClosesTwo(t: string, c: string, o: string)
    requires t == "]]" + c && c == "]]>" + o
    ensures SectionAfter(true, t) == SectionAfter(false, o)
  {
    hide At, SectionAfter;
    CloserChars(t);
    CloserChars(t[1..]);
    CloserChars(c);
    SectionStep(true, t, t[1..]);
    SectionStep(true, t[1..], c);
    SectionTurns(true, c);
    assert c[3..] == o;
  }

  lemma OpenerHere(o: string)
    requires SECTION_OPEN <= o
    ensures At(o, 0, CDATA_OPEN)
  {
    forall k | 0 <= k < 9 ensures LowerChar(o[0 + k]) == CDATA_OPEN[k] {
      assert o[k] == SECTION_OPEN[k] && LowerChar(SECTION_OPEN[k]) == CDATA_OPEN[k];
    }
  }

  lemma NotOpener(t: string)
    requires t != "" && t[0] != '<'
    ensures !At(t, 0, CDATA_OPEN)
  {
    if At(t, 0, CDATA_OPEN) {
      AtChar(t, 0, CDATA_OPEN, 0);
    }
  }

  /** A pattern without brackets that close stands at the start of a rendered value exactly if it
      stands at the start of the value. */
  lemma {:induction false} SplitAtStart(v: string, y: string, p: string)
    requires Behind(y) && forall k :: 0 <= k < |p| ==> p[k] != ']'
    ensures At(SplitCloses(v) + y, 0, p) == At(v, 0, p)
    decreases |p|
  {
    hide IndexFrom, SplitCloses;
    SplitStarts(v, y);
    var s := SplitCloses(v) + y;
    if p != "" {
      AtFirst(s, p);
      AtFirst(v, p);
      if v != "" && LowerChar(v[0]) == p[0] {
        assert !At(v, 0, CDATA_CLOSE) by { CloserChars(v); }
        SplitFirst(v);
        assert s[1..] == SplitCloses(v[1..]) + y;
        SplitAtStart(v[1..], y, p[1..]);
      }
    }
  }

  lemma AtFirst(s: string, p: string)
    requires p != ""
    ensures At(s, 0, p) <==> s != "" && LowerChar(s[0]) == p[0] && At(s[1..], 0, p[1..])
  {
    if s != "" && LowerChar(s[0]) == p[0] && At(s[1..], 0, p[1..]) {
      forall k | 0 <= k < |p| ensures LowerChar(s[0 + k]) == p[k] {
        if k > 0 {
          assert LowerChar(s[1..][0 + (k - 1)]) == p[1..][k - 1];
        }
      }
    }
    if At(s, 0, p) {
      forall k | 0 <= k < |p[1..]| ensures LowerChar(s[1..][0 + k]) == p[1..][k] {
        assert LowerChar(s[0 + (k + 1)]) == p[k + 1];
      }
      assert LowerChar(s[0 + 0]) == p[0];
    }
  }

  lemma SplitKeeps(v: string, y: string)
    requires Behind(y)
    ensures MarkerAt(SplitCloses(v) + y) == MarkerAt(v)
    ensures At(SplitCloses(v) + y, 0, CDATA_OPEN) == At(v, 0, CDATA_OPEN)
  {
    hide At, SplitCloses;
    SplitAtStart(v, y, TICKS);
    SplitAtStart(v, y, TILDES);
    SplitAtStart(v, y, CDATA_OPEN);
  }

  lemma {:induction false} SplitFenced(v: string, y: string)
    requires Behind(y)
    ensures Fenced(SplitCloses(v) + y) == Fenced(v)
  {
    hide At, SplitCloses, MarkerAt;
    SplitKeeps(v, y);
    SplitStarts(v, y);
    if v != "" && v[0] in INDENT {
      assert !At(v, 0, CDATA_CLOSE) by { CloserChars(v); }
      SplitFirst(v);
      assert (SplitCloses(v) + y)[1..] == SplitCloses(v[1..]) + y;
      SplitFenced(v[1..], y);
    }
  }

  /** Whether a section opens in a rendered line outside a section. */
  lemma {:induction false} SplitEnters(l: string, y: string)
    requires Behind(y) && !OpensSooner(y)
    ensures OpensSooner(SplitCloses(l) + y) == EntersSection(l)
    decreases |l|
  {
    hide At, SplitCloses, MarkerAt;
    var s := SplitCloses(l) + y;
    SplitKeeps(l, y);
    SplitStarts(l, y);
    if l != "" {
      if At(l, 0, CDATA_CLOSE) {
        SplitCloser(l);
        assert s == SECTION_SPLIT + (SplitCloses(l[3..]) + y);
        SplitReopens(SplitCloses(l[3..]) + y);
      } else {
        SplitFirst(l);
        assert s[1..] == SplitCloses(l[1..]) + y;
        SplitEnters(l[1..], y);
      }
    }
  }

  /** Once a line has entered a section it does not leave it. */
  lemma {:induction false} EnteredStays(l: string, y: string)
    requires Behind(y) && EntersSection(l)
    ensures SectionAfter(false, SplitCloses(l) + y) == SectionAfter(true, y)
    decreases |l|
  {
    hide At, SplitCloses, MarkerAt;
    var s := SplitCloses(l) + y;
    SplitKeeps(l, y);
    SplitStarts(l, y);
    if At(l, 0, CDATA_CLOSE) {
      SplitCloser(l);
      assert s == SECTION_SPLIT + (SplitCloses(l[3..]) + y);
      SplitReopens(SplitCloses(l[3..]) + y);
      SectionThrough(l[3..], y);
    } else if At(l, 0, CDATA_OPEN) {
      OpenerSplits(l, y);
      SectionThrough(l[9..], y);
    } else {
      SplitFirst(l);
      assert s[1..] == SplitCloses(l[1..]) + y;
      EnteredStays(l[1..], y);
    }
  }

  lemma OpenerSplits(l: string, y: string)
    requires At(l, 0, CDATA_OPEN) && Behind(y)
    ensures |l| >= 9 && (SplitCloses(l) + y)[9..] == SplitCloses(l[9..]) + y && |SplitCloses(l)| >= 9
  {
    hide SplitCloses;
    AtInside(l, 0, CDATA_OPEN);
    forall k | 0 <= k < 9 ensures l[k] != ']' {
      AtChar(l, 0, CDATA_OPEN, k);
    }
    SplitPrefix(l, 9);
  }

  /** Letters that are no closing brackets are rendered as they are. */
  lemma {:induction false} SplitPrefix(l: string, n: nat)
    requires n <= |l| && forall k :: 0 <= k < n ==> l[k] != ']'
    ensures SplitCloses(l) == l[..n] + SplitCloses(l[n..])
  {
    hide SplitCloses, At;
    if n > 0 {
      assert !At(l, 0, CDATA_CLOSE) by { CloserChars(l); }
      SplitFirst(l);
      SplitPrefix(l[1..], n - 1);
      assert l[1..][n - 1..] == l[n..] && l[..n] == [l[0]] + l[1..][..n - 1];
    } else {
      assert l[0..] == l && l[..0] == "";
    }
  }

  /** Values are split line by line. */
  lemma {:induction false} SplitLines(a: string, w: string)
    requires Closed(a)
    ensures SplitCloses(a + w) == SplitCloses(a) + SplitCloses(w)
    decreases |a|
  {
    hide SplitCloses, At;
    CloserChars(a);
    CloserChars(a + w);
    if a == "" {
      EmptySplit();
      assert a + w == w;
    } else if At(a + w, 0, CDATA_CLOSE) {
      assert |a| >= 3;
      SplitCloser(a + w);
      SplitCloser(a);
      assert (a + w)[3..] == a[3..] + w;
      SplitLines(a[3..], w);
    } else {
      SplitFirst(a + w);
      SplitFirst(a);
      assert (a + w)[1..] == a[1..] + w;
      SplitLines(a[1..], w);
    }
  }

  lemma {:induction false} SplitLine(b: string)
    requires '\n' !in b
    ensures SplitCloses(b + "\n") == SplitCloses(b) + "\n" && '\n' !in SplitCloses(b)
    decreases |b|
  {
    hide SplitCloses, At;
    CloserChars(b);
    CloserChars(b + "\n");
    if b == "" {
      EmptySplit();
      CloserChars("\n");
      SplitFirst("\n");
      assert b + "\n" == "\n" && "\n"[1..] == "";
    } else if At(b, 0, CDATA_CLOSE) {
      SplitCloser(b);
      SplitCloser(b + "\n");
      assert (b + "\n")[3..] == b[3..] + "\n";
      SplitLine(b[3..]);
    } else {
      SplitFirst(b);
      SplitFirst(b + "\n");
      assert (b + "\n")[1..] == b[1..] + "\n";
      SplitLine(b[1..]);
    }
  }

  /** The first line of a text with a line break, and how it is rendered in a value. */
  lemma FirstLineSplit(v: string)
    requires '\n' in v
    ensures var a, w := Line(v), v[|Line(v)|..];
      && v == a + w && SplitCloses(v) == SplitCloses(a) + SplitCloses(w)
      && a[|a| - 1] == '\n' && '\n' !in a[..|a| - 1]
      && var l := SplitCloses(a); l != "" && l[|l| - 1] == '\n' && '\n' !in l[..|l| - 1]
  {
    hide SplitCloses, Line;
    LineInside(v);
    var a, w := Line(v), v[|Line(v)|..];
    assert v == a + w && a == a[..|a| - 1] + [a[|a| - 1]];
    assert a[|a| - 1] == '\n';
    assert a == a[..|a| - 1] + "\n";
    SplitLine(a[..|a| - 1]);
    SplitLines(a, w);
    var l := SplitCloses(a);
    assert l[..|l| - 1] == SplitCloses(a[..|a| - 1]);
  }

  // Parameters.

  const VALUE_END := "]]></parameter>\n"

  lemma {:induction false} SectionPlain(h: string)
    requires TagsOnly(h)
    ensures !SectionAfter(false, h)
  {
    hide TagsOnly, At;
    if h != "" {
      TagsOnlyTail(h);
      assert h + "" == h;
      NoOpenerAt(h, "");
      SectionPlain(h[1..]);
    }
  }

  lemma ValueEnds()
    ensures Behind(VALUE_END) && !OpensSooner(VALUE_END) && !Fenced(VALUE_END)
    ensures !SectionAfter(true, VALUE_END) && !SectionAfter(false, VALUE_END)
  {
    hide SectionAfter, OpensSooner, At, MarkerAt;
    TagsOnlySooner(VALUE_END);
    SectionPlain(VALUE_END);
    CloserChars(VALUE_END);
    MarkerChars(VALUE_END);
    var t := VALUE_END[3..];
    assert t == "</parameter>\n";
    SectionPlain(t);
    SectionTurns(true, VALUE_END);
  }

  function ValueTail(v: string): string {
    SplitCloses(v) + VALUE_END
  }

  lemma LastLineShape(x: string, v: string)
    requires '\n' !in x && '\n' !in v
    ensures var l := x + ValueTail(v); l != "" && l[|l| - 1] == '\n' && '\n' !in l[..|l| - 1]
  {
    hide SplitCloses;
    SplitLine(v);
    var l := x + ValueTail(v);
    assert l == x + SplitCloses(v) + "]]></parameter>" + "\n";
    assert l[..|l| - 1] == x + SplitCloses(v) + "]]></parameter>";
  }

  /** Inside its section a value is quiet whatever it holds, and its end closes the section. */
  lemma {:induction false} QuietInside(v: string)
    ensures Quiet(true, ValueTail(v)) && !Left(true, ValueTail(v))
    decreases |v|
  {
    hide SplitCloses, Line, Quiet, Left, SectionAfter, OpensSooner, Fenced;
    ValueEnds();
    if '\n' in v {
      FirstLineSplit(v);
      var a, w := Line(v), v[|Line(v)|..];
      var l := SplitCloses(a);
      assert ValueTail(v) == l + ValueTail(w);
      QuietJoin(true, l, ValueTail(w));
      QuietOne(true, l);
      assert l + "" == l;
      SectionThrough(a, "");
      NothingAfter(true, "");
      QuietInside(w);
    } else {
      LastLineShape("", v);
      assert "" + ValueTail(v) == ValueTail(v);
      QuietOne(true, ValueTail(v));
      SectionThrough(v, VALUE_END);
    }
  }

  /** Outside its section it is read as lines until one of them enters a section. */
  lemma {:induction false} QuietOutsideIff(w: string)
    ensures Quiet(false, ValueTail(w)) <==> QuietOutside(w)
    ensures QuietOutside(w) ==> !Left(false, ValueTail(w))
    decreases |w|
  {
    hide SplitCloses, Line, Quiet, Left, SectionAfter, OpensSooner, Fenced, EntersSection;
    ValueEnds();
    if '\n' in w {
      FirstLineSplit(w);
      var a, rest := Line(w), w[|Line(w)|..];
      var l := SplitCloses(a);
      assert ValueTail(w) == l + ValueTail(rest);
      QuietJoin(false, l, ValueTail(rest));
      QuietOne(false, l);
      assert l + "" == l;
      NothingSooner();
      SplitEnters(a, "");
      SplitFenced(a, "");
      FencedLine(a, rest);
      if EntersSection(a) {
        EnteredStays(a, "");
        NothingAfter(true, "");
        QuietInside(rest);
      } else {
        QuietOutsideIff(rest);
      }
    } else {
      LastLineShape("", w);
      assert "" + ValueTail(w) == ValueTail(w);
      QuietOne(false, ValueTail(w));
      SplitEnters(w, VALUE_END);
      SplitFenced(w, VALUE_END);
      if w == "" {
        EmptySplit();
        assert "" + VALUE_END == VALUE_END;
      } else {
        OneLine(w);
        assert QuietOutside("");
        if EntersSection(w) {
          EnteredStays(w, VALUE_END);
        }
      }
    }
  }

  lemma NothingSooner()
    ensures !OpensSooner("")
  {
  }

  /** The text an element starts with, up to its name. */
  predicate Opening(pre: string) {
    && pre != "" && '\n' !in pre && Solid(pre[|pre| - 1]) && pre[|pre| - 1] != '<'
    && TagsOnly(pre) && !Fenced(pre) && forall i :: 0 <= i < |pre| ==> pre[i] !in "`~"
  }

  lemma HeadTags(pre: string, name: string)
    requires Opening(pre)
    ensures TagsOnly(pre + (Escape(name) + "\">"))
  {
    EscapedIsSafe(name);
    var head := pre + (Escape(name) + "\">");
    forall i | 0 <= i < |head| && head[i] == '<' ensures i + 1 < |head| && head[i + 1] != '!' {
      assert i < |pre| && pre[i] == '<';
      assert pre[i + 1] == head[i + 1];
    }
  }

  lemma HeadLines(pre: string, name: string)
    requires Opening(pre)
    ensures QuietLines(pre + (Escape(name) + "\">")) == QuietLines(name)
  {
    hide Fenced, QuietLines, TagsOnly;
    QuietSkip(pre, Escape(name) + "\">");
    QuietStops(Escape(name), "\">");
    EscapeLines(name);
  }

  lemma HeadMarker(pre: string, name: string)
    requires Opening(pre)
    ensures HasMarker(LastLine(pre + (Escape(name) + "\">"))) == HasMarker(LastLine(name))
  {
    hide Fenced, HasMarker, TagsOnly, LastLine, Escape;
    var e := Escape(name);
    var tail := e + "\">";
    EscapeLast(name);
    EscapeHasMarker(LastLine(name));
    LastAppend(e, "\">");
    HasMarkerStops(LastLine(e), "\">");
    NoMarker();
    if '\n' in tail {
      LastSkip(pre, tail);
    } else {
      OnlyLine(e);
      OnlyLine(pre + tail);
      MarkSkip(pre, tail);
    }
  }

  lemma OnlyLine(n: string)
    requires '\n' !in n
    ensures LastLine(n) == n
  {
  }

  lemma NoMarker()
    ensures !HasMarker("\">")
  {
    MarkerChars("\">");
    MarkerChars(">");
    assert "\">"[1..] == ">" && ">"[1..] == "";
  }

  lemma {:induction false} FencedMarked(h: string)
    requires Fenced(h)
    ensures HasMarker(h)
  {
    hide MarkerAt;
    if h != "" && h[0] in INDENT {
      FencedMarked(h[1..]);
    } else if h == "" {
      MarkerChars(h);
    }
  }

  /** A section behind the last line of a head. */
  lemma {:induction false} SectionBehind(h: string, v: string)
    requires TagsOnly(h) && '\n' !in h
    ensures var b := h + (SECTION_OPEN + ValueTail(v));
      && (Quiet(false, b) <==> (HasMarker(h) ==> !Fenced(h) && QuietOutside(AfterLine(v))))
      && (Quiet(false, b) ==> !Left(false, b))
  {
    hide SplitCloses, Line, Quiet, Left, SectionAfter, OpensSooner, Fenced, EntersSection, HasMarker, TagsOnly;
    hide QuietOutside;
    var b := h + (SECTION_OPEN + ValueTail(v));
    ValueEnds();
    if '\n' in v {
      FirstLineSplit(v);
      var a, w := Line(v), v[|Line(v)|..];
      var l, o := h + (SECTION_OPEN + SplitCloses(a)), SECTION_OPEN + SplitCloses(a);
      FirstOf(h, SplitCloses(a), ValueTail(w));
      assert b == l + ValueTail(w) by { assert ValueTail(v) == SplitCloses(a) + ValueTail(w); }
      OpenerHere(o);
      SoonerBehind(h, o);
      FencedStops(h, o);
      QuietJoin(false, l, ValueTail(w));
      QuietOne(false, l);
      assert o[9..] == SplitCloses(a) == SplitCloses(a) + "";
      SectionThrough(a, "");
      NothingAfter(true, "");
      QuietInside(w);
      QuietOutsideIff(w);
    } else {
      var o := SECTION_OPEN + ValueTail(v);
      assert b == (h + SECTION_OPEN) + ValueTail(v);
      LastLineShape(h + SECTION_OPEN, v);
      OpenerHere(o);
      SoonerBehind(h, o);
      FencedStops(h, o);
      QuietOne(false, b);
      assert o[9..] == ValueTail(v);
      SectionThrough(v, VALUE_END);
      NoneOutside(v);
    }
  }

  lemma NoneOutside(v: string)
    requires '\n' !in v
    ensures QuietOutside(AfterLine(v))
  {
    if v != "" {
      OneLine(v);
    }
  }

  lemma FirstOf(h: string, s: string, tail: string)
    requires '\n' !in h && s != "" && s[|s| - 1] == '\n' && '\n' !in s[..|s| - 1]
    ensures var l := h + (SECTION_OPEN + s);
      && l != "" && l[|l| - 1] == '\n' && '\n' !in l[..|l| - 1]
      && h + (SECTION_OPEN + (s + tail)) == l + tail
  {
    var l := h + (SECTION_OPEN + s);
    assert l[..|l| - 1] == h + SECTION_OPEN + s[..|s| - 1];
  }

  lemma OpeningNotFenced(pre: string, y: string)
    requires Opening(pre)
    ensures !Fenced(pre + y)
  {
    hide Fenced;
    var n := |pre| - 1;
    var c := [pre[n]];
    assert pre == pre[..n] + c && pre + y == pre[..n] + (c + y);
    FencedStops(pre[..n], c);
    FencedStops(pre[..n], c + y);
  }

  /** A head taken apart at the start of its last line. */
  lemma HeadSplits(pre: string, head: string) returns (a: string, h: string)
    requires Opening(pre) && pre <= head && TagsOnly(head)
    ensures head == a + h && Closed(a) && '\n' !in h && h == LastLine(head) && TagsOnly(a) && TagsOnly(h)
    ensures Quiet(false, a) == QuietLines(a) && !Left(false, a)
    ensures QuietLines(head) == (QuietLines(a) && !Fenced(h))
  {
    hide Fenced, Quiet, Left, LastLine, QuietLines;
    LastSplits(head);
    h := LastLine(head);
    a := head[..|head| - |h|];
    forall i | 0 <= i < |a| && a[i] == '<' ensures i + 1 < |a| && a[i + 1] != '!' {
      assert head[i] == '<';
    }
    forall i | 0 <= i < |h| && h[i] == '<' ensures i + 1 < |h| && h[i + 1] != '!' {
      assert head[|a| + i] == '<';
    }
    QuietPlain(a);
    assert head == pre + head[|pre|..];
    OpeningNotFenced(pre, head[|pre|..]);
    if a == "" {
      assert h == head && head + "" == head;
      QuietSkip(head, "");
      NoLines0();
      NothingFenced();
    } else {
      FencedLine(a, h);
      QuietLinesEnd(a, h);
    }
  }

  /** An element with a section. */
  lemma {:induction false} QuietSectionIff(pre: string, name: string, v: string)
    requires Opening(pre)
    ensures var t := pre + (Escape(name) + "\">") + (SECTION_OPEN + ValueTail(v));
      && (Quiet(false, t) <==>
            QuietLines(name) && (HasMarker(LastLine(name)) ==> QuietOutside(AfterLine(v))))
      && (Quiet(false, t) ==> !Left(false, t))
  {
    hide Fenced, Quiet, Left, LastLine, QuietLines, HasMarker, TagsOnly, QuietOutside, Escape, ValueTail, AfterLine;
    var head := pre + (Escape(name) + "\">");
    HeadTags(pre, name);
    HeadLines(pre, name);
    HeadMarker(pre, name);
    var a, h := HeadSplits(pre, head);
    var b := h + (SECTION_OPEN + ValueTail(v));
    assert head + (SECTION_OPEN + ValueTail(v)) == a + b;
    QuietJoin(false, a, b);
    SectionBehind(h, v);
    if Fenced(h) {
      FencedMarked(h);
    }
  }

  lemma {:induction false} QuietBreakEnd(u: string)
    ensures QuietLines(u + "\n") == QuietLines(u)
  {
    hide Fenced;
    NothingFenced();
    NoLines0();
    if u == "" {
      assert u + "\n" == "\n" + "";
      QuietBreak("");
    } else {
      assert (u + "\n")[1..] == u[1..] + "\n";
      QuietBreakEnd(u[1..]);
      FencedStops(u[1..], "\n");
    }
  }

  /** An element without one, up to a line break. */
  lemma {:induction false} QuietElementIff(pre: string, name: string, end: string)
    requires Opening(pre) && TagsOnly(end) && '\n' !in end && (end == "" || Solid(end[0]))
    ensures var t := pre + (Escape(name) + "\">") + end + "\n";
      (Quiet(false, t) <==> QuietLines(name)) && !Left(false, t)
  {
    hide Fenced, Quiet, Left, QuietLines, Escape;
    var head := pre + (Escape(name) + "\">");
    var t := head + end + "\n";
    HeadTags(pre, name);
    HeadLines(pre, name);
    forall i | 0 <= i < |t| && t[i] == '<' ensures i + 1 < |t| && t[i + 1] != '!' {
      if i < |head| {
        assert head[i] == '<';
      } else {
        assert end[i - |head|] == '<' && t[i + 1] == end[i - |head| + 1];
      }
    }
    QuietPlain(t);
    assert t == pre + (Escape(name) + "\">" + end + "\n");
    OpeningNotFenced(pre, Escape(name) + "\">" + end + "\n");
    QuietBreakEnd(head + end);
    if end == "" {
      assert head + end == head;
    } else {
      QuietStops(head, end);
    }
  }

  const PARAM_HEAD := "    <parameter name=\""
  const INVOKE_HEAD := "  <invoke name=\""

  lemma HeadsOpen()
    ensures Opening(PARAM_HEAD) && Opening(INVOKE_HEAD)
  {
    hide Opening;
    HeadOpens(PARAM_HEAD, 4);
    HeadOpens(INVOKE_HEAD, 2);
  }

  lemma HeadOpens(t: string, i: nat)
    requires i + 1 < |t| && t[i] == '<' && t[i + 1] != '!' && t[|t| - 1] == '"'
    requires forall k :: 0 <= k < i ==> t[k] == ' '
    requires forall k :: i < k < |t| ==> t[k] == ' ' || t[k] == '=' || t[k] == '"' || 'a' <= t[k] <= 'z'
    ensures Opening(t)
  {
    hide Fenced;
    IndentedNotFenced(t, i);
    assert TagsOnly(t);
  }

  lemma {:induction false} IndentedNotFenced(t: string, i: nat)
    requires i < |t| && t[i] == '<' && forall k :: 0 <= k < i ==> t[k] == ' '
    ensures !Fenced(t)
  {
    if i == 0 {
      MarkerChars(t);
    } else {
      IndentedNotFenced(t[1..], i - 1);
    }
  }

  // Calls.

  function ParamLine(p: (string, string)): string {
    PARAM_INDENT + Param(p) + "\n"
  }

  function ParamLines(ps: seq<(string, string)>): string {
    if ps == [] then "" else ParamLine(ps[0]) + ParamLines(ps[1..])
  }

  lemma ElementParts(indent: string, tag: string, name: string, body: string)
    ensures indent + Element(tag, name, body) + "\n"
         == (indent + "<" + tag + NAME_OPEN) + (Escape(name) + "\">") + body + "</" + tag + ">" + "\n"
  {
    hide Escape;
    assert NameAttr(Escape(name)) + ">" == NAME_OPEN + (Escape(name) + "\">");
  }

  lemma SectionParts(head: string, s: string)
    ensures head + (SECTION_OPEN + s + CDATA_CLOSE) + "</" + "parameter" + ">" + "\n"
         == head + (SECTION_OPEN + (s + VALUE_END))
  {
    assert CDATA_CLOSE + "</" + "parameter" + ">" + "\n" == VALUE_END;
  }

  lemma ParamParts(p: (string, string))
    ensures var head := PARAM_HEAD + (Escape(TrimSpace(p.0)) + "\">");
      ParamLine(p) == if p.1 == "" then head + "</parameter>" + "\n" else head + (SECTION_OPEN + ValueTail(p.1))
  {
    hide SplitCloses, Escape, TrimSpace, Element;
    var name := TrimSpace(p.0);
    var head := PARAM_HEAD + (Escape(name) + "\">");
    ElementParts(PARAM_INDENT, "parameter", name, RenderText(p.1));
    assert PARAM_INDENT + "<" + "parameter" + NAME_OPEN == PARAM_HEAD;
    if p.1 == "" {
      assert head + "" + "</" + "parameter" + ">" + "\n" == head + "</parameter>" + "\n";
    } else {
      SectionParts(head, SplitCloses(p.1));
    }
  }

  lemma QuietParamIff(p: (string, string))
    ensures Quiet(false, ParamLine(p)) <==> QuietParam(p)
    ensures QuietParam(p) ==> !Left(false, ParamLine(p))
  {
    hide Quiet, Left, QuietLines, HasMarker, LastLine, QuietOutside, ValueTail, Escape, TrimSpace, ParamLine, Opening;
    HeadsOpen();
    ParamParts(p);
    var name := TrimSpace(p.0);
    if p.1 == "" {
      EndTags();
      QuietElementIff(PARAM_HEAD, name, "</parameter>");
      assert AfterLine(p.1) == "" && QuietOutside("") by { NothingOutside(); }
    } else {
      QuietSectionIff(PARAM_HEAD, name, p.1);
    }
  }

  lemma NothingOutside()
    ensures QuietOutside("")
  {
  }

  lemma EndTags()
    ensures TagsOnly("</parameter>") && TagsOnly("</invoke>") && TagsOnly("")
    ensures Solid('<') && '\n' !in "</parameter>" && '\n' !in "</invoke>"
  {
  }

  lemma {:induction false} QuietParamsIff(ps: seq<(string, string)>)
    ensures Closed(ParamLines(ps))
    ensures Quiet(false, ParamLines(ps)) <==> QuietParams(ps)
    ensures QuietParams(ps) ==> !Left(false, ParamLines(ps))
  {
    hide Quiet, Left, QuietParam, ParamLine;
    NothingQuiet();
    if ps != [] {
      QuietParamIff(ps[0]);
      QuietParamsIff(ps[1..]);
      ParamCloses(ps[0]);
      QuietJoin(false, ParamLine(ps[0]), ParamLines(ps[1..]));
      assert QuietParams(ps) <==> QuietParam(ps[0]) && QuietParams(ps[1..]);
    }
  }

  lemma NothingQuiet()
    ensures Quiet(false, "") && !Left(false, "")
  {
  }

  lemma ParamCloses(p: (string, string))
    ensures ParamLine(p) != "" && Closed(ParamLine(p))
  {
    hide Param;
    var x := PARAM_INDENT + Param(p);
    assert (x + "\n")[|x|] == '\n';
  }

  lemma {:induction false} LinesOfParams(ps: seq<(string, string)>)
    requires ps != []
    ensures PARAM_INDENT + ParamsTail(ps) + "\n" == ParamLines(ps)
  {
    hide Param;
    if |ps| > 1 {
      LinesOfParams(ps[1..]);
      assert "\n    " == "\n" + PARAM_INDENT;
      var rest := ParamsTail(ps[1..]);
      assert PARAM_INDENT + (Param(ps[0]) + ("\n    " + rest)) + "\n"
        == (PARAM_INDENT + Param(ps[0]) + "\n") + (PARAM_INDENT + rest + "\n");
    } else {
      assert ParamsTail(ps) == Param(ps[0]) + "" == Param(ps[0]);
      assert ParamLines(ps[1..]) == "";
    }
  }

  function CallLine(json: string, c: Call): string {
    CALL_INDENT + Invoke(json, c) + "\n"
  }

  const INVOKE_END := "  </invoke>\n"

  lemma CallParts(json: string, c: Call)
    ensures var head := INVOKE_HEAD + (Escape(TrimSpace(c.name)) + "\">");
      var ps := Shown(json, c);
      CallLine(json, c) ==
        if ps == [] then head + "</invoke>" + "\n" else (head + "" + "\n") + (ParamLines(ps) + INVOKE_END)
  {
    hide Escape, TrimSpace, ParamsTail, Shown, ParamLines, Element;
    var name, ps := TrimSpace(c.name), Shown(json, c);
    var head := INVOKE_HEAD + (Escape(name) + "\">");
    ElementParts(CALL_INDENT, "invoke", name, InvokeBody(ps));
    assert CALL_INDENT + "<" + "invoke" + NAME_OPEN == INVOKE_HEAD;
    if ps == [] {
      assert head + "" + "</" + "invoke" + ">" + "\n" == head + "</invoke>" + "\n";
    } else {
      LinesOfParams(ps);
      BodyParts(head, PARAM_INDENT + ParamsTail(ps));
    }
  }

  lemma BodyParts(head: string, lines: string)
    ensures head + ("\n" + lines + "\n" + CALL_INDENT) + "</" + "invoke" + ">" + "\n"
         == (head + "" + "\n") + (lines + "\n" + INVOKE_END)
  {
    assert CALL_INDENT + "</" + "invoke" + ">" + "\n" == INVOKE_END;
  }

  lemma InvokeEnds()
    ensures Closed(INVOKE_END) && Quiet(false, INVOKE_END) && !Left(false, INVOKE_END)
    ensures Quiet(false, "</tool_calls>") && Quiet(false, "<tool_calls>\n") && !Left(false, "<tool_calls>\n")
  {
    hide Quiet, Left, Fenced, QuietLines;
    IndentedNotFenced(INVOKE_END, 2);
    IndentedNotFenced("</tool_calls>", 0);
    IndentedNotFenced("<tool_calls>\n", 0);
    QuietPlain(INVOKE_END);
    QuietPlain("</tool_calls>");
    QuietPlain("<tool_calls>\n");
    NoLines0();
    assert INVOKE_END == "  </invoke>" + "\n" && "</tool_calls>" + "" == "</tool_calls>";
    assert "<tool_calls>\n" == "<tool_calls>" + "\n" && "  </invoke>" + "" == "  </invoke>";
    assert "<tool_calls>" + "" == "<tool_calls>";
    QuietBreakEnd("  </invoke>");
    QuietSkip("  </invoke>", "");
    QuietSkip("</tool_calls>", "");
    QuietBreakEnd("<tool_calls>");
    QuietSkip("<tool_calls>", "");
  }

  lemma QuietCallIff(json: string, c: Call)
    requires TrimSpace(c.name) != ""
    ensures Closed(CallLine(json, c))
    ensures Quiet(false, CallLine(json, c)) <==> QuietCall(json, c)
    ensures QuietCall(json, c) ==> !Left(false, CallLine(json, c))
  {
    hide Quiet, Left, QuietLines, Escape, TrimSpace, Opening, ParamLines, Shown, QuietParams, Invoke;
    HeadsOpen();
    EndTags();
    CallParts(json, c);
    InvokeEnds();
    var name, ps := TrimSpace(c.name), Shown(json, c);
    var head := INVOKE_HEAD + (Escape(name) + "\">");
    if ps == [] {
      QuietElementIff(INVOKE_HEAD, name, "</invoke>");
      assert QuietParams(ps) by { NoParamsQuiet(); }
    } else {
      QuietElementIff(INVOKE_HEAD, name, "");
      QuietParamsIff(ps);
      var first := head + "" + "\n";
      QuietJoin(false, first, ParamLines(ps) + INVOKE_END);
      QuietJoin(false, ParamLines(ps), INVOKE_END);
    }
  }

  lemma NoParamsQuiet()
    ensures QuietParams([])
  {
  }

  function CallLines(json: seq<(string, string)> -> string, calls: seq<Call>): string {
    if calls == [] then ""
    else
      (if TrimSpace(calls[0].name) == "" then "" else CallLine(json(calls[0].params), calls[0]))
      + CallLines(json, calls[1..])
  }

  lemma {:induction false} RestIsLines(json: seq<(string, string)> -> string, calls: seq<Call>)
    ensures Rest(json, calls) == "\n" + CallLines(json, calls)
    decreases |calls|
  {
    hide TrimSpace, Invoke;
    if calls != [] {
      RestIsLines(json, calls[1..]);
    }
  }

  predicate QuietCalls(json: seq<(string, string)> -> string, calls: seq<Call>) {
    forall i :: 0 <= i < |calls| ==> QuietCall(json(calls[i].params), calls[i])
  }

  lemma {:induction false} QuietCallsIff(json: seq<(string, string)> -> string, calls: seq<Call>)
    ensures Closed(CallLines(json, calls))
    ensures Quiet(false, CallLines(json, calls)) <==> QuietCalls(json, calls)
    ensures QuietCalls(json, calls) ==> !Left(false, CallLines(json, calls))
    decreases |calls|
  {
    hide Quiet, Left, CallLine, TrimSpace;
    NothingQuiet();
    if calls != [] {
      var c := calls[0];
      QuietCallsIff(json, calls[1..]);
      var line, rest := CallLine(json(c.params), c), CallLines(json, calls[1..]);
      CallsSplit(json, calls);
      if TrimSpace(c.name) != "" {
        QuietCallIff(json(c.params), c);
        QuietJoin(false, line, rest);
      } else {
        assert "" + rest == rest;
      }
    }
  }

  lemma CallsSplit(json: seq<(string, string)> -> string, calls: seq<Call>)
    requires calls != []
    ensures QuietCalls(json, calls) <==> QuietCall(json(calls[0].params), calls[0]) && QuietCalls(json, calls[1..])
  {
    hide QuietCall;
  }

  /** Cutting fenced lines leaves a rendering alone exactly if no fence opens in a name, or in a
      value whose section the scan misses because of a marker in the name before it. */
  lemma {:induction false} StripLeavesCallsIff(json: seq<(string, string)> -> string, calls: seq<Call>)
    requires RenderCalls(json, calls) != []
    ensures StripFences(Format(json, calls)) == Format(json, calls) <==> QuietCalls(json, calls)
  {
    hide Quiet, Left, CallLines, QuietCalls, RenderCalls, Join, Rest, Lines;
    var blocks := RenderCalls(json, calls);
    RenderedLines(json, calls);
    JoinedLines(blocks);
    RestIsLines(json, calls);
    var t := Format(json, calls);
    FormatLines(Join(blocks), CallLines(json, calls));
    assert t == "<tool_calls>\n" + (CallLines(json, calls) + "</tool_calls>");
    InvokeEnds();
    QuietCallsIff(json, calls);
    QuietJoin(false, "<tool_calls>\n", CallLines(json, calls) + "</tool_calls>");
    QuietJoin(false, CallLines(json, calls), "</tool_calls>");
    StripLeavesIff(t);
  }

  lemma FormatLines(lines: string, rest: string)
    requires "\n" + lines + "\n" == "\n" + rest
    ensures "<tool_calls>\n" + lines + "\n</tool_calls>" == "<tool_calls>\n" + (rest + "</tool_calls>")
  {
    assert lines + "\n" == ("\n" + lines + "\n")[1..] == ("\n" + rest)[1..] == rest;
    assert lines + "\n</tool_calls>" == (lines + "\n") + "</tool_calls>";
  }
}
