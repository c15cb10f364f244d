/** What a blank piece that the fence tracker does not read changes about what is shown. */
module SieveFences {
  import opened Text
  import opened CodeFence
  import opened FenceLaws
  import opened SieveModel
  import opened SieveConservation
  import opened SieveRuns
  import opened SieveReference
  import opened SieveRefinement
  import opened SieveSteady
  import SieveCuts

  /** A tag outside a fence with a complete block behind it. */
  predicate FindsBlock(f: Fence, t: string) {
    var k := SegmentStart(f, t, 0);
    k >= 0 && FirstBlock(t[k..]).Some?
  }

  // What is recognised.

  predicate NoTag(t: string) {
    forall i :: 0 <= i < |t| ==> !TagAt(t, i)
  }

  lemma {:induction false} NoTagNoSegment(f: Fence, t: string, i: nat)
    requires NoTag(t)
    ensures SegmentStart(f, t, i) < 0
    decreases |t| - i
  {
    hide TagAt, Inside;
    if i < |t| {
      NoTagNoSegment(f, t, i + 1);
    }
  }

  lemma {:induction false} NoTagNothing(p: Parser, st: State)
    requires !st.capturing && NoTag(st.pending)
    ensures Recognised(p, st) == []
    decreases |st.pending|
  {
    hide TagAt, SegmentStart, SafeLength, Note;
    var s := st.pending;
    NoTagNoSegment(st.fence, s, 0);
    if s != "" {
      var n := SafeLength(st.fence, s);
      if n > 0 {
        forall i | 0 <= i < |s[n..]| ensures !TagAt(s[n..], i) {
          TagShift(s[..n], s[n..], i);
          assert s[..n] + s[n..] == s;
        }
        NoTagNothing(p, st.(pending := s[n..], fence := Note(st.fence, s[..n])));
      }
    }
  }

  lemma PartialAtStart(s: string)
    requires PartialTag(s) == 0
    ensures !TagAt(s, 0) && forall i :: 0 < i ==> !At(s, i, "<")
  {
    hide LastIndexOf;
    var n := |s|;
    if 1 < n <= |WRAPPER| && At(s, 0, WRAPPER[..n]) {
      AtChar(s, 0, WRAPPER[..n], 1);
    }
    if At(s, 0, INVOKE) {
      AtChar(s, 0, INVOKE, 1);
    }
  }

  /** The beginning of a tag is no tag. */
  lemma PartialIsNoTag(s: string)
    requires PartialTag(s) == 0
    ensures NoTag(s)
  {
    hide PartialTag;
    PartialAtStart(s);
    forall i | 0 <= i < |s| ensures !TagAt(s, i) {
      if i > 0 {
        NoBracketNoTag(s, i);
      }
    }
  }

  lemma NoBracketNoTag(s: string, i: nat)
    requires i < |s| && !At(s, i, "<")
    ensures !TagAt(s, i)
  {
    if TagAt(s, i) {
      AtChar(s, i, if At(s, i, WRAPPER) then WRAPPER else INVOKE, 0);
    }
  }

  /** A drain recognises something exactly if there is a tag outside a fence with a complete block
      behind it. */
  lemma {:induction false} RecognisesIff(st: State)
    requires !st.capturing && st.capture == ""
    ensures Recognised(EAGER, st) != [] <==> FindsBlock(st.fence, st.pending)
  {
    hide TagAt, SegmentStart, SafeLength, Note, Consume, FirstBlock, TurnOf;
    var s := st.pending;
    var k := SegmentStart(st.fence, s, 0);
    if s == "" {
      NoTagNoSegment(st.fence, s, 0);
    } else if k >= 0 {
      var u := s[k..];
      TagIsFirst(s, k);
      ConsumeIsTurn(EAGER, u);
      assert "" + u == u && u + "" == u;
      var captured := State("", "" + u, true, Note(st.fence, s[..k]), st.waiting);
      assert Recognised(EAGER, st) == Recognised(EAGER, captured);
      if FirstBlock(u).Some? {
        EagerTurns(u);
      }
    } else {
      NoSegmentNothing(EAGER, st);
    }
  }

  lemma EagerTurns(u: string)
    requires FirstBlock(u).Some?
    ensures TurnOf(EAGER, u, FirstBlock(u).value).calls != []
  {
    hide FirstBlock, TrimFence;
  }

  lemma TagIsFirst(s: string, k: nat)
    requires k <= |s| && TagAt(s, k)
    ensures TagAt(s[k..], 0)
  {
    TagShift(s[..k], s[k..], 0);
    assert s[..k] + s[k..] == s;
  }

  lemma {:induction false} NoSegmentNothing(p: Parser, st: State)
    requires !st.capturing && SegmentStart(st.fence, st.pending, 0) < 0
    ensures Recognised(p, st) == []
  {
    hide TagAt, SegmentStart, Note, PartialTag, Inside;
    var s := st.pending;
    if s != "" {
      var n := SafeLength(st.fence, s);
      if n > 0 {
        if n < |s| {
          SieveCuts.PartialTail(s);
          PartialIsNoTag(s[n..]);
        } else {
          assert s[n..] == "";
        }
        NoTagNothing(p, st.(pending := s[n..], fence := Note(st.fence, s[..n])));
      }
    }
  }

  /** A stream loses text exactly if it recognises something. */
  lemma {:induction false} LosesTextIff(p: Parser, chunks: seq<string>)
    ensures TextOf(Stream(p, chunks)) == Concat(chunks) <==> Flat(RecognisedPerChunk(p, START, chunks)) == []
  {
    hide Stream, RecognisedPerChunk, Flat, AllLegit;
    var ps := StreamConserves(p, chunks);
    PiecesLose(p, ps);
  }

  lemma {:induction false} PiecesLose(p: Parser, ps: seq<Piece>)
    requires AllLegit(p, ps)
    ensures |Keeps(ps)| <= |Whole(ps)|
    ensures Keeps(ps) == Whole(ps) <==> CutCalls(p, ps) == []
    ensures CutCalls(p, ps) != [] ==> |Keeps(ps)| < |Whole(ps)|
  {
    hide At, OpeningFence, ClosingFence, CallsIn;
    if ps != [] {
      assert Legit(p, ps[0]);
      PiecesLose(p, ps[1..]);
      if ps[0].Cut? {
        var b := ps[0].block;
        AtInside(b, |b| - |WRAPPER_CLOSE|, WRAPPER_CLOSE);
      }
    }
  }

  // A blank piece alone.

  lemma BlankNoTag(s: string)
    requires TrimSpace(s) == ""
    ensures NoTag(s) && PartialTag(s) < 0
  {
    hide TrimSpace, LastIndexOf;
    TrimsToNothing(s);
    assert forall i :: 0 <= i < |s| ==> s[i] != '<';
    forall i | 0 <= i < |s| ensures !TagAt(s, i) {
      if TagAt(s, i) {
        AtChar(s, i, if At(s, i, WRAPPER) then WRAPPER else INVOKE, 0);
      }
    }
    if At(s, LastIndexOf(s, "<"), "<") {
      AtChar(s, LastIndexOf(s, "<"), "<", 0);
    }
  }

  /** Text that is released as soon as it arrives. */
  lemma {:induction false} ReleasedAtOnce(p: Parser, f: Fence, x: string, waiting: seq<ToolCall>)
    requires x != "" && SegmentStart(f, x, 0) < 0 && SafeLength(f, x) == |x|
    ensures var st := State(x, "", false, f, waiting);
      Drain(p, st).0 == State("", "", false, Note(f, x), waiting) && Recognised(p, st) == []
  {
    hide SegmentStart, SafeLength, Note;
    var st := State(x, "", false, f, waiting);
    NoSegmentNothing(p, st);
    assert x[|x|..] == "" && x[..|x|] == x;
    var next := State("", "", false, Note(f, x), waiting);
    assert Drain(p, next) == (next, []);
  }

  lemma {:induction false} ThreeChunks(p: Parser, x: string, s: string, y: string)
    requires TrimSpace(x) != "" && SegmentStart(INITIAL, x, 0) < 0 && SafeLength(INITIAL, x) == |x|
    requires s != "" && TrimSpace(s) == ""
    ensures Flat(RecognisedPerChunk(p, START, [x, s, y])) == Recognised(p, State(y, "", false, Feed(INITIAL, x), []))
  {
    hide Drain, Recognised, SegmentStart, SafeLength, TrimSpace, PartialTag, Feed;
    var g := Feed(INITIAL, x);
    EmptyTrims();
    ReleasedAtOnce(p, INITIAL, x, []);
    BlankNoTag(s);
    NoTagNoSegment(g, s, 0);
    BlankIsSafe(g, s);
    ReleasedAtOnce(p, g, s, []);
    assert [x, s, y][1..] == [s, y] && [s, y][1..] == [y] && [y][1..] == [];
    assert "" + x == x && "" + s == s && "" + y == y;
    var st0, st1 := State(x, "", false, INITIAL, []), State("", "", false, g, []);
    assert Process(p, START, x).0 == st1;
    assert Process(p, st1, s).0 == st1;
    var last := Recognised(p, State(y, "", false, g, []));
    var st2 := Process(p, st1, y).0;
    NothingLeft(p, st2);
    assert RecognisedPerChunk(p, st1, [y]) == [last] + RecognisedPerChunk(p, st2, []);
    assert RecognisedPerChunk(p, st1, [s, y]) == [[]] + RecognisedPerChunk(p, st1, [y]);
    assert RecognisedPerChunk(p, START, [x, s, y]) == [[]] + RecognisedPerChunk(p, st1, [s, y]);
    FlatThree(last);
    assert [[]] + ([[]] + ([last] + [])) == [[], [], last];
  }

  lemma NothingLeft(p: Parser, st: State)
    ensures RecognisedPerChunk(p, st, []) == []
  {
  }

  lemma BlankIsSafe(g: Fence, s: string)
    requires PartialTag(s) < 0
    ensures SafeLength(g, s) == |s|
  {
  }

  lemma FlatThree(last: seq<seq<ToolCall>>)
    ensures Flat([[], [], last]) == last
  {
    var none: seq<seq<ToolCall>> := [];
    var three := [none, none, last];
    assert three[1..] == [none, last] && [none, last][1..] == [last] && [last][1..] == [];
    assert Flat([last]) == last + Flat([]) == last;
    assert Flat([none, last]) == none + Flat([last]) == last;
  }

  /** The reader shows no more than there is, and less behind a block it recognises. */
  lemma {:induction false} ReplyIsPart(p: Parser, g: Fence, t: string)
    ensures |Reply(p, g, t).text| <= |t|
    decreases |t|, 1
  {
    hide SegmentStart, After, Feed;
    var k := SegmentStart(g, t, 0);
    if k >= 0 {
      AfterIsPart(p, Feed(g, t[..k]), t[k..]);
    }
  }

  lemma {:induction false} AfterIsPart(p: Parser, g: Fence, u: string)
    ensures |After(p, g, u).text| <= |u|
    ensures FirstBlock(u).Some? && TurnOf(p, u, FirstBlock(u).value).calls != [] ==> |After(p, g, u).text| < |u|
    decreases |u|, 0
  {
    hide FirstBlock, Reply, Feed, TrimFence, Parser.Recognise;
    if FirstBlock(u).Some? {
      var b := FirstBlock(u).value;
      var t := TurnOf(p, u, b);
      SieveCuts.TrimmedIsStart(u[..b.start], u[b.end..]);
      ReplyIsPart(p, Feed(g, t.shown), t.rest);
    }
  }

  /** An eager reader shows all of a text exactly if it finds no block. */
  lemma {:induction false} ShowsAllIff(g: Fence, t: string)
    ensures Reply(EAGER, g, t).text == t <==> !FindsBlock(g, t)
  {
    hide SegmentStart, FirstBlock, Feed, TurnOf;
    var k := SegmentStart(g, t, 0);
    if k >= 0 {
      var u := t[k..];
      assert t == t[..k] + u;
      if FirstBlock(u).Some? {
        EagerTurns(u);
        AfterIsPart(EAGER, Feed(g, t[..k]), u);
      }
    }
  }

  lemma {:induction false} ReadsOn(g: Fence, x: string, v: string)
    requires SegmentStart(g, x, 0) < 0 && SafeLength(g, x) == |x|
    ensures Reply(EAGER, g, x + v).text == x + Reply(EAGER, Feed(g, x), v).text
  {
    hide SegmentStart, SafeLength, Reply, Feed;
    HeldRefines(EAGER, g, x, v);
    assert x[..|x|] == x && x[|x|..] + v == v;
  }

  /** A blank piece arrives alone behind text that is released at once: the reader goes on with what
      the tracker says after it, the sieve with what it said before it. Each shows all of the text
      exactly if it finds no tag outside a fence with a complete block behind it; so what is shown
      depends on the chunks whenever just one of them finds one. */
  lemma {:induction false} LostBlankIff(x: string, s: string, y: string)
    requires TrimSpace(x) != "" && SegmentStart(INITIAL, x, 0) < 0 && SafeLength(INITIAL, x) == |x|
    requires s != "" && TrimSpace(s) == ""
    ensures Reply(EAGER, INITIAL, x + s + y).text == x + s + y <==> !FindsBlock(Feed(INITIAL, x + s), y)
    ensures TextOf(Stream(EAGER, [x, s, y])) == x + s + y <==> !FindsBlock(Feed(INITIAL, x), y)
  {
    hide Stream, TextOf, SegmentStart, SafeLength, TrimSpace, Feed, Recognised, RecognisedPerChunk, Flat, FindsBlock;
    hide Reply;
    var g := Feed(INITIAL, x);
    ThreeChunks(EAGER, x, s, y);
    LosesTextIff(EAGER, [x, s, y]);
    RecognisesIff(State(y, "", false, g, []));
    ConcatThree(x, s, y);
    assert x + (s + y) == x + s + y;
    ReadsOn(INITIAL, x, s + y);
    BlankNoTag(s);
    NoTagNoSegment(g, s, 0);
    BlankIsSafe(g, s);
    ReadsOn(g, s, y);
    FeedSplit(INITIAL, x, s);
    ShowsAllIff(Feed(INITIAL, x + s), y);
    var r := Reply(EAGER, Feed(INITIAL, x + s), y).text;
    assert x + s + r == x + s + y <==> r == y by {
      assert (x + s + r)[|x + s|..] == r && (x + s + y)[|x + s|..] == y;
    }
  }

  /** A text whose tags are all fenced is shown as it is if it arrives at once. */
  lemma {:induction false} FencedIsShown(p: Parser, t: string)
    requires SegmentStart(INITIAL, t, 0) < 0
    ensures TextOf(Stream(p, [t])) == t == Reply(p, INITIAL, t).text
  {
    hide Stream, TextOf, SegmentStart, RecognisedPerChunk, Flat;
    OneChunk(p, t);
    LosesTextIff(p, [t]);
    assert [t][1..] == [] && Concat([t]) == t + "" == t;
  }

  lemma ConcatThree(x: string, s: string, y: string)
    ensures Concat([x, s, y]) == x + s + y
  {
    assert [x, s, y][1..] == [s, y] && [s, y][1..] == [y] && [y][1..] == [];
    assert Concat([y]) == y + "" == y;
    assert Concat([s, y]) == s + y && x + (s + y) == x + s + y;
  }

  lemma OneChunk(p: Parser, t: string)
    requires SegmentStart(INITIAL, t, 0) < 0
    ensures Flat(RecognisedPerChunk(p, START, [t])) == []
  {
    hide Drain, Recognised, SegmentStart;
    assert "" + t == t && [t][1..] == [];
    NoSegmentNothing(p, State(t, "", false, INITIAL, []));
  }

  // A line break in front of a fence.

  lemma {:induction false} BlanksInLine(g: Fence, w: string)
    requires g.ticks == 0 && !g.lineStart && All(w, " \t")
    ensures Feed(g, w) == g
  {
    if w != "" {
      var n := |w| - 1;
      assert w[n] in " \t";
      assert All(w[..n], " \t");
      BlanksInLine(g, w[..n]);
    }
  }

  /** Back-ticks in the middle of a line open no fence. */
  lemma {:induction false} NoFenceInLine(g: Fence, w: string, n: nat, z: string)
    requires Open(g) && !g.lineStart && All(w, " \t") && NoTicks(z)
    ensures !Inside(g, w + Ticks(n) + z)
  {
    hide Feed, Step;
    BlanksInLine(g, w);
    TicksCount(g, n);
    FeedSplit(g, w, Ticks(n));
    FeedSplit(g, w + Ticks(n), z);
    var f := g.(ticks := n);
    if z == "" {
      FedNothing(f);
    } else {
      assert z == z[..1] + z[1..] && z[..1] == [z[0]];
      FeedSplit(f, z[..1], z[1..]);
      FedOne(f, z[0]);
      assert NoTicks(z[1..]);
      FeedNoTicks(Feed(f, z[..1]), z[1..]);
    }
  }

  lemma FedOne(f: Fence, c: char)
    requires f.stack == [] && !f.lineStart && c != '`'
    ensures Open(Feed(f, [c]))
  {
    assert [c][..0] == "" && Feed(f, "") == f;
  }

  lemma {:induction false} LineFound(g: Fence, w: string, n: nat, z: string, k: nat)
    requires Open(g) && !g.lineStart && All(w, " \t")
    requires k < |z| && TagAt(z, k) && NoTicks(z[..k]) && (forall j :: 0 <= j < k ==> !TagAt(z, j))
    ensures var y := w + Ticks(n) + z; SegmentStart(g, y, 0) == |w| + n + k && y[|w| + n + k..] == z[k..]
  {
    hide TagAt, Feed;
    var x := w + Ticks(n);
    var y := x + z;
    forall i | 0 <= i < |x| + k ensures !TagAt(y, i) {
      if i < |x| {
        assert y[i] == x[i] && x[i] != '<';
        NotTag(y, i);
      } else {
        TagShift(x, z, i - |x|);
      }
    }
    SegmentSkips(g, y, 0, |x| + k);
    TagShift(x, z, k);
    assert y[..|x| + k] == w + Ticks(n) + z[..k];
    NoFenceInLine(g, w, n, z[..k]);
  }

  lemma NotTag(s: string, i: nat)
    requires i < |s| && s[i] != '<'
    ensures !TagAt(s, i)
  {
    if TagAt(s, i) {
      AtChar(s, i, if At(s, i, WRAPPER) then WRAPPER else INVOKE, 0);
    }
  }

  /** Text in the middle of a line, a line break, and a fence at the start of the next line that hides
      all tags of the text: if the line break arrives alone, the fence is missed, the first block in
      it is removed, and another text is shown than for the whole at once. */
  lemma {:induction false} LineFenceDependsOnChunks(x: string, w: string, n: nat, z: string, k: nat)
    requires TrimSpace(x) != "" && SafeLength(INITIAL, x) == |x|
    requires Open(Feed(INITIAL, x)) && !Feed(INITIAL, x).lineStart
    requires All(w, " \t") && n >= 3 && SegmentStart(INITIAL, x + "\n" + (w + Ticks(n) + z), 0) < 0
    requires k < |z| && TagAt(z, k) && NoTicks(z[..k]) && (forall j :: 0 <= j < k ==> !TagAt(z, j))
    requires FirstBlock(z[k..]).Some?
    ensures var y := w + Ticks(n) + z;
      && TextOf(Stream(EAGER, [x + "\n" + y])) == x + "\n" + y == Reply(EAGER, INITIAL, x + "\n" + y).text
      && TextOf(Stream(EAGER, [x, "\n", y])) != x + "\n" + y
  {
    hide Stream, TextOf, SegmentStart, SafeLength, TrimSpace, Feed, TagAt, FirstBlock;
    var y := w + Ticks(n) + z;
    LineFound(Feed(INITIAL, x), w, n, z, k);
    BreakIsBlank();
    assert x + ("\n" + y) == x + "\n" + y;
    if SegmentStart(INITIAL, x, 0) >= 0 {
      SegmentAppend(INITIAL, x, "\n" + y, 0);
    }
    LostBlankIff(x, "\n", y);
    FencedIsShown(EAGER, x + "\n" + y);
  }

  lemma BreakIsBlank()
    ensures TrimSpace("\n") == ""
  {
    TrimsToNothing("\n");
  }
}
