/** What a fence does to a text before tool calls are read in it: closed, it goes with all that is in
    it but sections; left open, it takes everything. */
module FenceCuts {
  import opened Text
  import opened TextLaws
  import opened FencedText
  import opened FencedLines

  function Run(c: char, n: nat): string {
    seq(n, i requires 0 <= i < n => c)
  }

  /** Blanks, at least three marks, and text that does not go on with the mark. */
  predicate Opens(l: string, a: string, c: char, n: nat, info: string) {
    && c in "`~" && n >= 3 && All(a, INDENT) && (info == "" || info[0] != c)
    && l == a + Run(c, n) + info
  }

  /** Marks and nothing else but blanks. */
  predicate Closes(l: string, a: string, c: char, n: nat, b: string) {
    c in "`~" && All(a, INDENT) && All(b, SPACES) && l == a + Run(c, n) + b
  }

  lemma LeadingRun(c: char, n: nat, y: string)
    requires y == "" || y[0] != c
    ensures Leading(Run(c, n) + y, c) == n
  {
    var s := Run(c, n) + y;
    assert forall i :: 0 <= i < n ==> s[i] == c;
    assert y != "" ==> s[n] == y[0];
  }

  /** A line opens a fence exactly if it has that form. */
  lemma OpensIff(l: string, m: string)
    requires m != ""
    ensures OpenMarker(TrimLeft(l, INDENT)) == m
       <==> exists a, c, n: nat, info :: Opens(l, a, c, n, info) && m == Run(c, n)
  {
    hide OpenMarker, TrimLeft, Opens;
    if OpenMarker(TrimLeft(l, INDENT)) == m {
      OpenerForm(l);
    }
    if a, c, n: nat, info :| Opens(l, a, c, n, info) && m == Run(c, n) {
      OpenerIs(l, a, c, n, info);
    }
  }

  lemma MarkedParts(u: string)
    requires OpenMarker(u) != ""
    ensures var c := u[0]; var n := Leading(u, c);
      && c in "`~" && n >= 3 && OpenMarker(u) == Run(c, n) && u == Run(c, n) + u[n..] && (n < |u| ==> u[n] != c)
  {
    hide Leading, Run;
    LeadingParts(u, u[0]);
  }

  lemma LeadingParts(u: string, c: char)
    ensures var n := Leading(u, c); u[..n] == Run(c, n) && u == Run(c, n) + u[n..]
  {
    hide Leading;
    var n := Leading(u, c);
    assert u[..n] == Run(c, n);
  }

  lemma OpenerForm(l: string)
    requires OpenMarker(TrimLeft(l, INDENT)) != ""
    ensures exists a, c, n: nat, info :: Opens(l, a, c, n, info) && OpenMarker(TrimLeft(l, INDENT)) == Run(c, n)
  {
    hide TrimLeft, All, OpenMarker, Leading, Run;
    var u := TrimLeft(l, INDENT);
    TrimLeftSplit(l, INDENT);
    MarkedParts(u);
    var a, c := l[..|l| - |u|], u[0];
    var n := Leading(u, c);
    assert l == a + u;
    assert Opens(l, a, c, n, u[n..]);
  }

  lemma OpenerIs(l: string, a: string, c: char, n: nat, info: string)
    requires Opens(l, a, c, n, info)
    ensures OpenMarker(TrimLeft(l, INDENT)) == Run(c, n)
  {
    var u := Run(c, n) + info;
    assert l == a + u;
    assert u[0] == c;
    TrimOver(a, u, INDENT);
    LeadingRun(c, n, info);
  }

  /** A line closes a fence exactly if it has that form, with at least as many marks. */
  lemma ClosesIff(l: string, c: char, m: nat)
    requires c in "`~" && m >= 1
    ensures ClosesFence(TrimLeft(l, INDENT), Run(c, m)) <==> exists a, n: nat, b :: n >= m && Closes(l, a, c, n, b)
  {
    hide SPACES, TrimSpace, ClosesFence, Closes, TrimLeft;
    if ClosesFence(TrimLeft(l, INDENT), Run(c, m)) {
      CloserForm(l, c, m);
    }
    if a, n: nat, b :| n >= m && Closes(l, a, c, n, b) {
      CloserIs(l, a, c, m, n, b);
    }
  }

  lemma CloserHasMark(l: string, a: string, c: char, n: nat, b: string)
    ensures n >= 1 && Closes(l, a, c, n, b) ==> c in l
  {
    if n >= 1 && Closes(l, a, c, n, b) {
      assert l[|a|] == c;
    }
  }

  lemma CloserForm(l: string, c: char, m: nat)
    requires c in "`~" && m >= 1 && ClosesFence(TrimLeft(l, INDENT), Run(c, m))
    ensures exists a, n: nat, b :: n >= m && Closes(l, a, c, n, b)
  {
    hide SPACES, TrimSpace, TrimLeft, All;
    var u := TrimLeft(l, INDENT);
    assert Run(c, m)[0] == c;
    TrimLeftSplit(l, INDENT);
    var a, n := l[..|l| - |u|], Leading(u, c);
    TrimsToNothing(u[n..]);
    assert u == Run(c, n) + u[n..];
    assert l == a + u;
    assert Closes(l, a, c, n, u[n..]);
  }

  lemma CloserIs(l: string, a: string, c: char, m: nat, n: nat, b: string)
    requires 1 <= m <= n && Closes(l, a, c, n, b)
    ensures ClosesFence(TrimLeft(l, INDENT), Run(c, m))
  {
    hide TrimSpace;
    var u := Run(c, n) + b;
    assert l == a + u;
    assert u[0] == c;
    TrimOver(a, u, INDENT);
    BlankStarts(b, c);
    LeadingRun(c, n, b);
    assert u[n..] == b;
    TrimsToNothing(b);
  }

  lemma BlankStarts(b: string, c: char)
    requires All(b, SPACES) && c in "`~"
    ensures b == "" || b[0] != c
  {
  }

  // Texts.

  predicate WholeLine(l: string) {
    l != "" && l[|l| - 1] == '\n' && '\n' !in l[..|l| - 1]
  }

  /** No line closes a fence of n marks; what is in a section does not count. */
  ghost predicate NeverCloses(section: bool, c: char, n: nat, t: string)
    decreases |t|
  {
    t == "" ||
    (var l, rest := Line(t), t[|Line(t)|..];
     if section || SectionFirst(l) then NeverCloses(SectionAfter(section, l), c, n, rest)
     else (forall a, k: nat, b :: k >= n ==> !Closes(l, a, c, k, b)) && NeverCloses(section, c, n, rest))
  }

  /** The lines that open a section or are in one. */
  function Sections(section: bool, t: string): string
    decreases |t|
  {
    if t == "" then ""
    else
      var l, rest := Line(t), t[|Line(t)|..];
      if section || SectionFirst(l) then l + Sections(SectionAfter(section, l), rest) else Sections(section, rest)
  }

  /** Lines in which no fence opens are passed on. */
  lemma {:induction false} KeptScan(section: bool, a: string, b: string)
    requires Closed(a) && Quiet(section, a)
    ensures var (s, out) := Scanned(Scan("", Left(section, a)), SplitAfter(b));
      Scanned(Scan("", section), SplitAfter(a + b)) == (s, a + out)
    decreases |a|
  {
    hide SectionFirst, SectionAfter, OpenMarker, TrimLeft, ClosesFence, Scanned, SplitAfter, Line;
    if a == "" {
      assert a + b == b;
      var out := Scanned(Scan("", section), SplitAfter(b)).1;
      assert a + out == out;
    } else {
      var l, rest := Line(a), a[|Line(a)|..];
      LineInside(a);
      assert a == l + rest && a + b == l + (rest + b);
      LineOf(l, rest + b);
      assert '\n' in a + b;
      FirstStep(Scan("", section), a + b);
      var (s, out) := Step(Scan("", section), l);
      KeptStep(section, a);
      KeptScan(s.section, rest, b);
      Together(l, rest, Scanned(Scan("", Left(section, a)), SplitAfter(b)).1);
    }
  }

  lemma KeptStep(section: bool, a: string)
    requires a != "" && Quiet(section, a)
    ensures var (s, out) := Step(Scan("", section), Line(a));
      && s.marker == "" && out == Line(a)
      && Quiet(s.section, a[|Line(a)|..]) && Left(s.section, a[|Line(a)|..]) == Left(section, a)
  {
    hide SectionFirst, SectionAfter, OpenMarker, TrimLeft;
  }

  lemma FenceStep(s: Scan, l: string, rest: string)
    requires l != "" && l[|l| - 1] == '\n' && '\n' !in l[..|l| - 1]
    ensures var (s', out) := Step(s, l);
      var (s'', more) := Scanned(s', SplitAfter(rest));
      Scanned(s, SplitAfter(l + rest)) == (s'', out + more)
  {
    hide Step, Scanned, SplitAfter, Line;
    LineOf(l, rest);
    assert '\n' in l + rest;
    FirstStep(s, l + rest);
  }

  lemma InsideStep(section: bool, c: char, n: nat, t: string)
    requires t != "" && NeverCloses(section, c, n, t) && c in "`~" && n >= 3
    ensures var l, rest := Line(t), t[|Line(t)|..];
      var (s, out) := Step(Scan(Run(c, n), section), l);
      && s.marker == Run(c, n) && NeverCloses(s.section, c, n, rest)
      && Left(s.section, rest) == Left(section, t) && out + Sections(s.section, rest) == Sections(section, t)
  {
    hide SectionFirst, SectionAfter, TrimLeft, Closes, ClosesFence;
    ClosesIff(Line(t), c, n);
    assert Run(c, n) != "";
  }

  /** Inside a fence that nothing closes, sections are passed on. */
  lemma {:induction false} InsideScan(section: bool, c: char, n: nat, t: string, rest: string)
    requires Closed(t) && NeverCloses(section, c, n, t) && c in "`~" && n >= 3
    ensures var (s, out) := Scanned(Scan(Run(c, n), Left(section, t)), SplitAfter(rest));
      Scanned(Scan(Run(c, n), section), SplitAfter(t + rest)) == (s, Sections(section, t) + out)
    decreases |t|
  {
    hide SectionFirst, SectionAfter, NeverCloses, Scanned, SplitAfter, Line, Step;
    if t == "" {
      assert t + rest == rest;
      var out := Scanned(Scan(Run(c, n), section), SplitAfter(rest)).1;
      assert "" + out == out;
    } else {
      var l, more := Line(t), t[|Line(t)|..];
      LineInside(t);
      assert t == l + more && t + rest == l + (more + rest);
      FenceStep(Scan(Run(c, n), section), l, more + rest);
      InsideStep(section, c, n, t);
      var (s, out) := Step(Scan(Run(c, n), section), l);
      InsideScan(s.section, c, n, more, rest);
      Together(out, Sections(s.section, more), Scanned(Scan(Run(c, n), Left(section, t)), SplitAfter(rest)).1);
    }
  }

  /** A fence that nothing closes stays open. */
  lemma {:induction false} StaysOpen(section: bool, c: char, n: nat, t: string)
    requires NeverCloses(section, c, n, t) && c in "`~" && n >= 3
    ensures Scanned(Scan(Run(c, n), section), SplitAfter(t)).0.marker == Run(c, n)
    decreases |t|
  {
    hide SectionFirst, SectionAfter, NeverCloses, Scanned, SplitAfter, Line, Step;
    var s := Scan(Run(c, n), section);
    if t != "" {
      InsideStep(section, c, n, t);
    }
    if '\n' in t {
      FirstStep(s, t);
      StaysOpen(Step(s, Line(t)).0.section, c, n, t[|Line(t)|..]);
    } else {
      LastStep(s, t);
      OneLine(t);
      EmptyStep(s);
    }
  }

  /** Lines in sections open no fence. */
  lemma {:induction false} SectionsAreQuiet(section: bool, t: string)
    requires Closed(t)
    ensures var kept := Sections(section, t);
      Closed(kept) && Quiet(section, kept) && Left(section, kept) == Left(section, t)
    decreases |t|
  {
    hide SectionFirst, SectionAfter, Line, OpenMarker;
    if t != "" {
      var l, rest := Line(t), t[|Line(t)|..];
      LineInside(t);
      assert t == l + rest;
      var after := if section || SectionFirst(l) then SectionAfter(section, l) else section;
      SectionsAreQuiet(after, rest);
      LineOf(l, Sections(after, rest));
    }
  }

  lemma NoSection(l: string)
    requires '<' !in l
    ensures !SectionFirst(l)
  {
    hide FirstMarker;
    var i := IndexFrom(l, CDATA_OPEN, 0);
    if i >= 0 {
      AtChar(l, i, CDATA_OPEN, 0);
    }
  }

  lemma CloserHasNoSection(l: string, a: string, c: char, n: nat, b: string)
    requires Closes(l, a, c, n, b)
    ensures !SectionFirst(l)
  {
    hide SectionFirst;
    assert '<' !in l;
    NoSection(l);
  }

  /** A closed fence goes, and of what is in it only the sections stay. */
  lemma FenceIsCut(before: string, opener: string, inside: string, closer: string, after: string,
                   a: string, info: string, b: string, e: string, c: char, n: nat, k: nat)
    requires Closed(before) && Quiet(false, before) && !Left(false, before)
    requires Opens(opener, a, c, n, info) && WholeLine(opener) && !SectionFirst(opener)
    requires Closed(inside) && NeverCloses(false, c, n, inside) && !Left(false, inside)
    requires k >= n && Closes(closer, b, c, k, e) && WholeLine(closer)
    ensures StripFences(before + (opener + (inside + (closer + after))))
         == StripFences(before + (Sections(false, inside) + after))
  {
    hide Quiet, Left, Scanned, SplitAfter, Step, SectionFirst, NeverCloses, Sections, Opens, Closes, WholeLine;
    var outside, fenced := Scan("", false), Scan(Run(c, n), false);
    var kept, behind := Sections(false, inside), Scanned(outside, SplitAfter(after)).1;
    OpenStep(opener, a, c, n, info);
    CloseStep(closer, b, c, n, k, e);
    KeptScan(false, before, opener + (inside + (closer + after)));
    FenceStep(outside, opener, inside + (closer + after));
    InsideScan(false, c, n, inside, closer + after);
    FenceStep(fenced, closer, after);
    SectionsAreQuiet(false, inside);
    KeptScan(false, before, kept + after);
    KeptScan(false, kept, after);
    assert "" + behind == behind && "" + (kept + behind) == kept + behind;
    StripOfNothing(before + (kept + after));
  }

  lemma StripOfNothing(t: string)
    ensures var (s, out) := Scanned(Scan("", false), SplitAfter(t));
      StripFences(t) == if s.marker != "" then "" else out
  {
    if t == "" {
      EmptyStep(Scan("", false));
      LastStep(Scan("", false), t);
    }
  }

  lemma OpenStep(l: string, a: string, c: char, n: nat, info: string)
    requires Opens(l, a, c, n, info) && WholeLine(l) && !SectionFirst(l)
    ensures Step(Scan("", false), l) == (Scan(Run(c, n), false), "")
    ensures l != "" && l[|l| - 1] == '\n' && '\n' !in l[..|l| - 1] && c in "`~" && n >= 3
  {
    hide SectionFirst, TrimLeft;
    OpenerIs(l, a, c, n, info);
    assert Run(c, n) != "";
  }

  lemma CloseStep(l: string, a: string, c: char, n: nat, k: nat, b: string)
    requires Closes(l, a, c, k, b) && 3 <= n <= k && WholeLine(l)
    ensures Step(Scan(Run(c, n), false), l) == (Scan("", false), "")
    ensures l != "" && l[|l| - 1] == '\n' && '\n' !in l[..|l| - 1]
  {
    hide SectionFirst, TrimLeft, ClosesFence;
    CloserHasNoSection(l, a, c, k, b);
    CloserIs(l, a, c, n, k, b);
    assert Run(c, n) != "";
  }

  /** A fence that is never closed takes everything, even what stands before it. */
  lemma OpenFenceTakesAll(before: string, opener: string, inside: string,
                          a: string, info: string, c: char, n: nat)
    requires Closed(before) && Quiet(false, before) && !Left(false, before)
    requires Opens(opener, a, c, n, info) && WholeLine(opener) && !SectionFirst(opener)
    requires NeverCloses(false, c, n, inside)
    ensures StripFences(before + (opener + inside)) == ""
  {
    hide Quiet, Left, Scanned, SplitAfter, Step, SectionFirst, NeverCloses, Opens, WholeLine;
    OpenStep(opener, a, c, n, info);
    KeptScan(false, before, opener + inside);
    FenceStep(Scan("", false), opener, inside);
    StaysOpen(false, c, n, inside);
    assert Run(c, n)[0] == c;
    StripOfNothing(before + (opener + inside));
  }
}
