/** Fenced lines are cut out of a text before tool calls are read in it
    (internal/toolcall/toolcalls_parse.go). */
module FencedText {
  import opened Text

  const TICKS := "```"
  const TILDES := "~~~"
  const INDENT := " \t"

  /** The text up to the end of its first line, the line break included. */
  function Line(t: string): (l: string)
    requires t != ""
    ensures l <= t && l != ""
  {
    if t[0] == '\n' || |t| == 1 then t[..1] else [t[0]] + Line(t[1..])
  }

  /** `strings.SplitAfter` at line breaks: a text that ends in one has an empty last line. */
  function SplitAfter(t: string): seq<string>
    decreases |t|
  {
    if '\n' in t then [Line(t)] + SplitAfter(t[|Line(t)|..]) else [t]
  }

  function Joined(lines: seq<string>): string {
    if lines == [] then "" else lines[0] + Joined(lines[1..])
  }

  function FirstMarker(line: string): int {
    var ticks, tildes := IndexFrom(line, TICKS, 0), IndexFrom(line, TILDES, 0);
    if ticks < 0 then tildes
    else if tildes < 0 then ticks
    else if ticks < tildes then ticks else tildes
  }

  /** The line opens a section, and no fence marker stands before that. */
  predicate SectionFirst(line: string) {
    var i, k := IndexFrom(line, CDATA_OPEN, 0), FirstMarker(line);
    i >= 0 && (k < 0 || i < k)
  }

  /** Whether a section is open after this text. */
  function SectionAfter(open: bool, t: string): bool
    decreases |t|
  {
    if t == "" then open
    else if open then if At(t, 0, CDATA_CLOSE) then SectionAfter(false, t[3..]) else SectionAfter(true, t[1..])
    else if At(t, 0, CDATA_OPEN) then SectionAfter(true, t[9..]) else SectionAfter(false, t[1..])
  }

  function Leading(line: string, c: char): (n: nat)
    ensures n <= |line| && forall i :: 0 <= i < n ==> line[i] == c
    ensures n < |line| ==> line[n] != c
  {
    if line != "" && line[0] == c then 1 + Leading(line[1..], c) else 0
  }

  /** The marker of a line that opens a fence, or the empty string. */
  function OpenMarker(line: string): string {
    if |line| < 3 || (line[0] != '`' && line[0] != '~') || Leading(line, line[0]) < 3 then ""
    else line[..Leading(line, line[0])]
  }

  predicate ClosesFence(line: string, marker: string) {
    && marker != "" && line != "" && line[0] == marker[0]
    && Leading(line, marker[0]) >= |marker|
    && TrimSpace(line[Leading(line, marker[0])..]) == ""
  }

  /** The scanner's state; `marker` is that of the open fence, or empty. */
  datatype Scan = Scan(marker: string, section: bool)

  function Step(s: Scan, line: string): (Scan, string) {
    var trimmed := TrimLeft(line, INDENT);
    if s.section || SectionFirst(line) then (s.(section := SectionAfter(s.section, line)), line)
    else if s.marker == "" then
      if OpenMarker(trimmed) != "" then (s.(marker := OpenMarker(trimmed)), "") else (s, line)
    else (if ClosesFence(trimmed, s.marker) then s.(marker := "") else s, "")
  }

  function Scanned(s: Scan, lines: seq<string>): (Scan, string)
    decreases |lines|
  {
    if lines == [] then (s, "")
    else
      var (s', out) := Step(s, lines[0]);
      var (s'', rest) := Scanned(s', lines[1..]);
      (s'', out + rest)
  }

  /** `stripFencedCodeBlocks`: nothing is left of a text whose last fence stays open. */
  function StripFences(t: string): string {
    if t == "" then ""
    else
      var (s, out) := Scanned(Scan("", false), SplitAfter(t));
      if s.marker != "" then "" else out
  }

  // The loops as they run.

  /** What the scan of sections looks for next. */
  function Sought(open: bool): string {
    if open then CDATA_CLOSE else CDATA_OPEN
  }

  lemma {:induction false} SectionSkips(open: bool, t: string, i: nat, j: nat)
    requires i <= j <= |t|
    requires forall k :: i <= k < j ==> !At(t, k, Sought(open))
    ensures SectionAfter(open, t[i..]) == SectionAfter(open, t[j..])
    decreases j - i
  {
    if i < j {
      AtTail(t, i, Sought(open));
      assert t[i..][1..] == t[i + 1..];
      SectionSkips(open, t, i + 1, j);
    }
  }

  lemma AtTail(t: string, i: nat, p: string)
    requires i <= |t|
    ensures At(t[i..], 0, p) == At(t, i, p)
  {
    if At(t[i..], 0, p) {
      forall k | 0 <= k < |p| ensures LowerChar(t[i + k]) == p[k] {
        assert t[i + k] == t[i..][0 + k];
      }
    }
    if At(t, i, p) {
      forall k | 0 <= k < |p| ensures LowerChar(t[i..][0 + k]) == p[k] {
        assert t[i..][k] == t[i + k];
      }
    }
  }

  /** `updateCDATAState`. */
  method UpdateCDATAState(inCDATA: bool, line: string) returns (state: bool)
    ensures state == SectionAfter(inCDATA, line)
  {
    hide At, SectionAfter;
    var pos := 0;
    state := inCDATA;
    assert line[0..] == line;
    while pos < |line|
      invariant 0 <= pos <= |line|
      invariant SectionAfter(inCDATA, line) == SectionAfter(state, line[pos..])
      decreases |line| - pos
    {
      var sought := Sought(state);
      var i := IndexFrom(line, sought, pos);
      if i < 0 {
        SectionSkips(state, line, pos, |line|);
        NothingAfter(state, line[|line|..]);
        return state;
      }
      AtInside(line, i, sought);
      SectionSkips(state, line, pos, i);
      AtTail(line, i, sought);
      SectionTurns(state, line[i..]);
      assert line[i..][|sought|..] == line[i + |sought|..];
      pos := i + |sought|;
      state := !state;
    }
    NothingAfter(state, line[pos..]);
  }

  lemma SectionTurns(open: bool, t: string)
    requires At(t, 0, Sought(open))
    ensures var n := |Sought(open)|;
      n <= |t| && SectionAfter(open, t) == SectionAfter(!open, t[n..])
  {
  }

  lemma NothingAfter(open: bool, t: string)
    requires t == ""
    ensures SectionAfter(open, t) == open
  {
  }

  lemma NextLine(s: Scan, lines: seq<string>, i: nat)
    requires i < |lines|
    ensures var (s', out) := Step(s, lines[i]);
      Scanned(s, lines[i..]) == (Scanned(s', lines[i + 1..]).0, out + Scanned(s', lines[i + 1..]).1)
  {
    hide Step;
    assert lines[i..][1..] == lines[i + 1..];
  }

  method StripFencedCodeBlocks(text: string) returns (r: string)
    ensures r == StripFences(text)
  {
    if text == "" {
      return "";
    }
    hide OpenMarker, ClosesFence, SectionFirst, SectionAfter, SplitAfter, Scanned;
    var lines := SplitAfter(text);
    var inCDATA, fenceMarker := false, "";
    r := "";
    assert lines[0..] == lines;
    ghost var all := Scanned(Scan("", false), lines);
    assert "" + all.1 == all.1;
    for i := 0 to |lines|
      invariant var rest := Scanned(Scan(fenceMarker, inCDATA), lines[i..]); all == (rest.0, r + rest.1)
    {
      var line := lines[i];
      ghost var was := Scan(fenceMarker, inCDATA);
      NextLine(was, lines, i);
      Together(r, Step(was, line).1, Scanned(Step(was, line).0, lines[i + 1..]).1);
      if inCDATA || SectionFirst(line) {
        r := r + line;
        inCDATA := UpdateCDATAState(inCDATA, line);
        continue;
      }
      var trimmed := TrimLeft(line, INDENT);
      if fenceMarker == "" {
        var marker := OpenMarker(trimmed);
        if marker != "" {
          fenceMarker := marker;
          continue;
        }
        r := r + line;
        continue;
      }
      if ClosesFence(trimmed, fenceMarker) {
        fenceMarker := "";
      }
    }
    NoLines(Scan(fenceMarker, inCDATA), lines[|lines|..]);
    if fenceMarker != "" {
      return "";
    }
  }

  lemma Together(a: string, b: string, c: string)
    ensures a + (b + c) == (a + b) + c && a + "" == a
  {
  }

  lemma NoLines(s: Scan, lines: seq<string>)
    requires lines == []
    ensures Scanned(s, lines) == (s, "")
  {
  }

  // When nothing is cut.

  /** No fence opens in this text, read from the start of a line. */
  predicate Quiet(section: bool, t: string)
    decreases |t|
  {
    t == "" ||
    (var l, rest := Line(t), t[|Line(t)|..];
     if section || SectionFirst(l) then Quiet(SectionAfter(section, l), rest)
     else OpenMarker(TrimLeft(l, INDENT)) == "" && Quiet(section, rest))
  }

  /** A line has no line break but at its end, and is the whole text if it has none there. */
  lemma {:induction false} LineInside(t: string)
    requires t != ""
    ensures var l := Line(t); '\n' !in l[..|l| - 1] && (l[|l| - 1] != '\n' ==> l == t)
  {
    if t[0] != '\n' && |t| > 1 {
      LineInside(t[1..]);
      var l := Line(t[1..]);
      assert Line(t)[..|l|] == [t[0]] + l[..|l| - 1];
      assert Line(t)[|l|] == l[|l| - 1];
      assert t == [t[0]] + t[1..];
    }
  }

  lemma {:induction false} CutsShorten(s: Scan, lines: seq<string>)
    ensures |Scanned(s, lines).1| <= |Joined(lines)|
    decreases |lines|
  {
    hide SectionFirst, SectionAfter, OpenMarker, ClosesFence, TrimLeft;
    if lines != [] {
      CutsShorten(Step(s, lines[0]).0, lines[1..]);
    }
  }

  lemma {:induction false} JoinedAfter(t: string)
    ensures Joined(SplitAfter(t)) == t
    decreases |t|
  {
    if '\n' in t {
      JoinedAfter(t[|Line(t)|..]);
      assert t == Line(t) + t[|Line(t)|..];
      assert SplitAfter(t)[1..] == SplitAfter(t[|Line(t)|..]);
    } else {
      assert [t][1..] == [] && t + "" == t;
    }
  }

  lemma OneLine(t: string)
    requires '\n' !in t
    ensures SplitAfter(t) == [t] && (t != "" ==> Line(t) == t && t[|t|..] == "")
  {
    if t != "" {
      LineInside(t);
    }
  }

  lemma FirstStep(s: Scan, t: string)
    requires '\n' in t
    ensures var (s', out) := Step(s, Line(t));
      var (s'', rest) := Scanned(s', SplitAfter(t[|Line(t)|..]));
      Scanned(s, SplitAfter(t)) == (s'', out + rest)
  {
    hide Step;
    assert SplitAfter(t)[1..] == SplitAfter(t[|Line(t)|..]);
  }

  lemma LastStep(s: Scan, t: string)
    requires '\n' !in t
    ensures Scanned(s, SplitAfter(t)) == Step(s, t)
  {
    hide Step;
    OneLine(t);
    var (s', out) := Step(s, t);
    assert [t][1..] == [] && out + "" == out;
  }

  lemma EmptyStep(s: Scan)
    ensures Step(s, "") == (s, "")
  {
  }

  lemma QuietLine(section: bool, t: string)
    requires t != "" && Line(t) == t
    ensures Quiet(section, t) <==> section || SectionFirst(t) || OpenMarker(TrimLeft(t, INDENT)) == ""
  {
    hide SectionFirst, SectionAfter, OpenMarker, TrimLeft;
    assert t[|t|..] == "";
  }

  /** A scan that meets no fence gives back its text; one that meets a fence gives back less. */
  lemma {:induction false} QuietIff(section: bool, t: string)
    ensures var (s, out) := Scanned(Scan("", section), SplitAfter(t));
      && (Quiet(section, t) ==> s.marker == "" && out == t)
      && (!Quiet(section, t) ==> |out| < |t|)
    decreases |t|
  {
    hide SectionFirst, SectionAfter, OpenMarker, TrimLeft, ClosesFence, Scanned, SplitAfter;
    var start := Scan("", section);
    if '\n' in t {
      var l, rest := Line(t), t[|Line(t)|..];
      assert t == l + rest;
      FirstStep(start, t);
      QuietIff(Step(start, l).0.section, rest);
      CutsShorten(Step(start, l).0, SplitAfter(rest));
      JoinedAfter(rest);
    } else {
      LastStep(start, t);
      OneLine(t);
      EmptyStep(start);
      if t != "" {
        QuietLine(section, t);
      }
    }
  }

  /** Exactly the texts in which no fence opens are left alone. */
  lemma StripLeavesIff(t: string)
    ensures StripFences(t) == t <==> Quiet(false, t)
  {
    hide Quiet, Scanned, SplitAfter;
    QuietIff(false, t);
  }
}
