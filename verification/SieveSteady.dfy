/** Steadiness is exactly what makes text without back-ticks independent of its chunks. */
module SieveSteady {
  import opened Options
  import opened Text
  import opened CodeFence
  import opened SieveModel
  import opened SieveConservation
  import opened SieveRuns
  import opened SieveReference
  import opened SieveRefinement
  import opened SieveChunks

  /** No bare invoke that the reader meets in this text is closed before a wrapper opens. */
  predicate Steady(t: string) {
    var k := SegmentStart(INITIAL, t, 0);
    k < 0 || (OpensFirst(t[k..]) && (FirstBlock(t[k..]).None? || Steady(t[k..][FirstBlock(t[k..]).value.end..])))
  }

  lemma {:induction false} SteadyForAll(p: Parser, g: Fence, t: string)
    requires NoTicks(t) && Open(g)
    ensures SteadyFor(p, g, t) == Steady(t)
    decreases |t|
  {
    hide SegmentStart, Feed, FirstBlock, OpensFirst, TurnOf;
    SegmentOpen(g, INITIAL, t, 0);
    var k := SegmentStart(g, t, 0);
    if k >= 0 && FirstBlock(t[k..]).Some? {
      var u := t[k..];
      var b := FirstBlock(u).value;
      UntrimmedTurn(p, u, b);
      FeedNoTicks(g, t[..k]);
      FeedNoTicks(Feed(g, t[..k]), TurnOf(p, u, b).shown);
      SteadyForAll(p, Feed(Feed(g, t[..k]), TurnOf(p, u, b).shown), u[b.end..]);
    }
  }

  lemma {:induction false} ReplyOpen(p: Parser, g: Fence, t: string)
    requires NoTicks(t) && Open(g)
    ensures Reply(p, g, t) == Reply(p, INITIAL, t)
    decreases |t|, 0
  {
    hide SegmentStart, Feed, FirstBlock, TurnOf;
    SegmentOpen(g, INITIAL, t, 0);
    var k := SegmentStart(g, t, 0);
    if k >= 0 && FirstBlock(t[k..]).Some? {
      var u := t[k..];
      var b := FirstBlock(u).value;
      var turn := TurnOf(p, u, b);
      UntrimmedTurn(p, u, b);
      ReadersAgree(p, Feed(g, t[..k]), Feed(INITIAL, t[..k]), turn, g, t[..k]);
    }
  }

  lemma {:induction false} ReadersAgree(p: Parser, f: Fence, h: Fence, turn: Turn, g: Fence, x: string)
    requires NoTicks(turn.shown) && NoTicks(turn.rest) && NoTicks(x) && Open(g)
    requires f == Feed(g, x) && h == Feed(INITIAL, x)
    ensures Reply(p, Feed(f, turn.shown), turn.rest) == Reply(p, Feed(h, turn.shown), turn.rest)
    decreases |turn.rest|, 1
  {
    hide Reply, Feed;
    FeedNoTicks(g, x);
    FeedNoTicks(INITIAL, x);
    FeedNoTicks(f, turn.shown);
    FeedNoTicks(h, turn.shown);
    ReplyOpen(p, Feed(f, turn.shown), turn.rest);
    ReplyOpen(p, Feed(h, turn.shown), turn.rest);
  }

  const CALL := ToolCall("tool", "{}")
  /** Recognises every block as one call. */
  const EAGER := Parser((b: string) => [CALL], (b: string) => [])

  /** The text an eager reader shows. */
  function Eager(t: string): string {
    Reply(EAGER, INITIAL, t).text
  }

  // A text in two chunks, the first of which leaves nothing held back.

  /** The text ends with the end of a block. */
  predicate Finishes(t: string) {
    t == "" ||
    (var k := SegmentStart(INITIAL, t, 0);
     k >= 0 && FirstBlock(t[k..]).Some? && Finishes(t[k..][FirstBlock(t[k..]).value.end..]))
  }

  /** Nothing is held back, and no fence is open. */
  predicate Idle(st: State) {
    !st.capturing && st.capture == "" && Open(st.fence)
  }

  lemma {:induction false} FinishesDrains(p: Parser, st: State)
    requires Idle(st) && NoTicks(st.pending) && Finishes(st.pending)
    ensures Idle(Drain(p, st).0) && Drain(p, st).0.pending == ""
    decreases |st.pending|
  {
    hide SegmentStart, SafeLength, Consume, FirstBlock, TurnOf, Note, Feed, TagAt;
    var t := st.pending;
    if t != "" {
      SegmentOpen(st.fence, INITIAL, t, 0);
      var k := SegmentStart(st.fence, t, 0);
      var u := t[k..];
      TagFoundRefines(p, st.fence, t, "");
      var turn := TurnOf(p, u, FirstBlock(u).value);
      UntrimmedTurn(p, u, FirstBlock(u).value);
      NoteOpen(st.fence, t[..k]);
      NoteOpen(Note(st.fence, t[..k]), turn.shown);
      var captured := State("", "" + u, true, Note(st.fence, t[..k]), st.waiting);
      assert Drain(p, st).0 == Drain(p, captured).0;
      var next := BlockDrains(p, captured, u);
      hide Drain;
      FinishesDrains(p, next);
    }
  }

  /** A captured text that starts with a block is drained as what follows the block. */
  lemma BlockDrains(p: Parser, st: State, u: string) returns (next: State)
    requires st.capturing && st.capture == "" + u && st.pending == "" && TagAt(u, 0) && FirstBlock(u).Some?
    ensures var turn := TurnOf(p, u, FirstBlock(u).value);
      && !next.capturing && next.capture == "" && next.pending == turn.rest && next.fence == Note(st.fence, turn.shown)
      && Drain(p, st).0 == Drain(p, next).0
  {
    hide Consume, FirstBlock, TurnOf, Note, TagAt;
    var turn := TurnOf(p, u, FirstBlock(u).value);
    ConsumeIsTurn(p, u);
    assert st.capture + st.pending == u;
    var waiting := if turn.calls != [] then turn.calls else st.waiting;
    next := State(turn.rest, "", false, Note(st.fence, turn.shown), waiting);
  }

  lemma NoteOpen(f: Fence, s: string)
    requires Open(f) && NoTicks(s)
    ensures Open(Note(f, s))
  {
    FeedNoTicks(f, s);
  }

  /** What one chunk does to an idle sieve, and what it leaves. */
  lemma {:induction false} IdleDrain(p: Parser, st: State, t: string)
    requires Idle(st) && NoTicks(t)
    ensures var fed := st.(pending := t);
      var st' := Drain(p, fed).0;
      TextOf(Drain(p, fed).1) + Buffered(st') == Reply(p, INITIAL, t).text && Settled(p, st') && Tidy(st')
  {
    hide Drain, Recognised, Reply, Feed, TextOf, Settled, CallsOf, Undivided;
    var fed := st.(pending := t);
    assert t + "" == t && "" + t + "" == t;
    ReplyOpen(p, st.fence, t);
    TickFreeReply(p, st.fence, t);
    assert Undivided(Reply(p, st.fence, t).hits, 0) by { NothingToCome(Reply(p, st.fence, t).hits); }
    assert Follows(false, p, st.fence, fed, "");
    var hits := DrainRefines(false, p, st.fence, fed, "");
    DrainSettles(p, fed);
    SettledHits(false, p, Feed(st.fence, TextOf(Drain(p, fed).1)), Drain(p, fed).0, "");
  }

  lemma NothingToCome(hits: seq<Hit>)
    ensures Undivided(hits, 0)
  {
  }

  lemma {:induction false} InTwoParts(p: Parser, a: string, b: string)
    requires NoTicks(a) && NoTicks(b) && Finishes(a)
    ensures TextOf(Stream(p, [a, b])) == Reply(p, INITIAL, a).text + Reply(p, INITIAL, b).text
  {
    hide Drain, Reply, TextOf, Settled, Flush, Run, RecognisedPerChunk, Recognised, Finishes;
    var fed := START.(pending := START.pending + a, waiting := []);
    assert START.pending + a == a;
    IdleDrain(p, START, a);
    FinishesDrains(p, fed);
    var st := Drain(p, fed).0;
    var fed2 := st.(pending := st.pending + b, waiting := []);
    assert st.pending + b == b;
    IdleDrain(p, st.(waiting := []), b);
    var st2 := Drain(p, fed2).0;
    RunOne(p, START, [a, b]);
    RunOne(p, st, [b]);
    assert [a, b][1..] == [b] && [b][1..] == [];
    NothingRun(p, INITIAL, st2);
    var last := LastPieces(p, st2);
    TextOfAppend(Run(p, START, [a, b]).1, Flush(p, st2));
    assert Buffered(st) == "";
  }

  // Where an unsteady text is cut.

  lemma {:induction false} SegmentInPrefix(g: Fence, s: string, v: string, i: nat)
    requires SegmentStart(g, s + v, i) >= 0 && SegmentStart(g, s + v, i) + 12 <= |s|
    ensures SegmentStart(g, s, i) == SegmentStart(g, s + v, i)
    decreases |s| - i
  {
    hide TagAt, Inside;
    var k := SegmentStart(g, s + v, i);
    assert (s + v)[..i] == s[..i];
    TagAppend(s, v, i);
    if i == k {
      WholeTag(s, v, k);
    } else {
      SegmentInPrefix(g, s, v, i + 1);
    }
  }

  lemma WholeTag(s: string, v: string, k: nat)
    requires TagAt(s + v, k) && k + 12 <= |s|
    ensures TagAt(s, k)
  {
    AtAppend(s, v, k, WRAPPER);
    AtAppend(s, v, k, INVOKE);
  }

  lemma WrapperAfterClose(u: string, c: nat, o: nat)
    requires At(u, c, WRAPPER_CLOSE) && At(u, o, WRAPPER) && c <= o
    ensures c + |WRAPPER_CLOSE| <= o
  {
    AtChar(u, o, WRAPPER, 0);
    AtChar(u, o, WRAPPER, 1);
    if o < c + |WRAPPER_CLOSE| {
      AtChar(u, c, WRAPPER_CLOSE, o - c);
      if o == c {
        AtChar(u, c, WRAPPER_CLOSE, 1);
      }
    }
  }

  lemma {:induction false} ReplyFits(p: Parser, g: Fence, t: string)
    ensures |Reply(p, g, t).text| <= |t|
    decreases |t|, 1
  {
    hide SegmentStart, Feed, After;
    var k := SegmentStart(g, t, 0);
    if k >= 0 {
      AfterFits(p, Feed(g, t[..k]), t[k..]);
    }
  }

  lemma {:induction false} AfterFits(p: Parser, g: Fence, u: string)
    ensures |After(p, g, u).text| <= |u|
    decreases |u|, 0
  {
    hide FirstBlock, Feed, Reply, TurnOf;
    if FirstBlock(u).Some? {
      var b := FirstBlock(u).value;
      var t := TurnOf(p, u, b);
      TurnFits(p, u, b);
      ReplyFits(p, Feed(g, t.shown), t.rest);
    }
  }

  lemma TurnFits(p: Parser, u: string, b: Span)
    requires b.start < b.end <= |u|
    ensures |TurnOf(p, u, b).shown| <= b.end && |TurnOf(p, u, b).rest| <= |u| - b.end
  {
    hide OpensFence, ClosesFence, TrimFence, Parser.Recognise;
    TrimsBoth(u[..b.start], u[b.end..]);
  }

  /** How an eager reader reads a text with a tag: the text before the block, then the rest. */
  lemma {:induction false} EagerReads(t: string, k: nat, b: Span)
    requires NoTicks(t) && SegmentStart(INITIAL, t, 0) == k && FirstBlock(t[k..]) == Some(b)
    ensures Eager(t) == t[..k + b.start] + Eager(t[k + b.end..])
  {
    hide SegmentStart, Feed, FirstBlock, TurnOf, Reply, EAGER;
    var u := t[k..];
    var turn := TurnOf(EAGER, u, b);
    var g := Feed(INITIAL, t[..k]);
    UntrimmedTurn(EAGER, u, b);
    EagerRecognises(b.parsed);
    FeedNoTicks(INITIAL, t[..k]);
    FeedNoTicks(g, turn.shown);
    ReplyOpen(EAGER, Feed(g, turn.shown), turn.rest);
    assert Reply(EAGER, INITIAL, t) == Then(t[..k], [], After(EAGER, g, u)) by { ReplyIs(EAGER, INITIAL, t, k); }
    assert u[b.end..] == t[k + b.end..] && t[..k] + u[..b.start] == t[..k + b.start];
  }

  lemma EagerRecognises(block: string)
    ensures EAGER.Recognise(block) != []
  {
  }

  lemma ReplyIs(p: Parser, g: Fence, t: string, k: nat)
    requires SegmentStart(g, t, 0) == k
    ensures k <= |t| && Reply(p, g, t) == Then(t[..k], [], After(p, Feed(g, t[..k]), t[k..]))
  {
    hide SegmentStart, After, Feed;
  }

  // What the two readings of an unsteady text are.

  lemma {:induction false} IndexShift(x: string, y: string, p: string, i: nat)
    ensures var r := IndexFrom(y, p, i); IndexFrom(x + y, p, |x| + i) == if r < 0 then -1 else |x| + r
    decreases |y| - i
  {
    hide At;
    AtShift(x, y, i, p);
    if !At(y, i, p) && i < |y| {
      IndexShift(x, y, p, i + 1);
    }
  }

  lemma SkipShift(x: string, y: string, i: nat)
    ensures SkipIgnored(x + y, |x| + i) == match SkipIgnored(y, i)
      case Advanced(n) => Advanced(|x| + n)
      case other => other
  {
    hide At, IndexFrom;
    AtShift(x, y, i, CDATA_OPEN);
    AtShift(x, y, i, COMMENT_OPEN);
    IndexShift(x, y, CDATA_CLOSE, i + |CDATA_OPEN|);
    IndexShift(x, y, COMMENT_CLOSE, i + |COMMENT_OPEN|);
  }

  lemma {:induction false} FindVisibleShift(x: string, y: string, target: string, i: nat)
    ensures var r := FindVisible(y, target, i); FindVisible(x + y, target, |x| + i) == if r < 0 then -1 else |x| + r
    decreases |y| - i
  {
    hide At, SkipIgnored;
    if i < |y| {
      SkipShift(x, y, i);
      AtShift(x, y, i, target);
      match SkipIgnored(y, i)
      case Blocked =>
      case Advanced(next) => FindVisibleShift(x, y, target, next);
      case Visible => FindVisibleShift(x, y, target, i + 1);
    }
  }

  /** Without the text before its wrapper, a block is the same block. */
  lemma {:induction false} BlockShift(x: string, y: string)
    requires IndexFrom(x + y, WRAPPER, 0) >= |x|
    ensures FirstBlock(x + y).Some? == FirstBlock(y).Some?
    ensures FirstBlock(y).Some? ==>
      var b := FirstBlock(y).value; FirstBlock(x + y) == Some(Span(|x| + b.start, |x| + b.end, b.parsed))
  {
    hide At, FindVisible;
    var o := IndexFrom(x + y, WRAPPER, 0);
    AtShift(x, y, o - |x|, WRAPPER);
    if IndexFrom(y, WRAPPER, 0) >= 0 {
      AtShift(x, y, IndexFrom(y, WRAPPER, 0), WRAPPER);
    }
    assert IndexFrom(y, WRAPPER, 0) == o - |x|;
    FindVisibleShift(x, y, WRAPPER_CLOSE, o - |x| + |WRAPPER|);
    var c := FindVisible(y, WRAPPER_CLOSE, o - |x| + |WRAPPER|);
    if c >= 0 {
      AtInside(y, c, WRAPPER_CLOSE);
      assert (x + y)[o..|x| + c + |WRAPPER_CLOSE|] == y[o - |x|..c + |WRAPPER_CLOSE|];
    }
  }

  lemma StartsAtOnce(u: string)
    requires TagAt(u, 0)
    ensures u != "" && SegmentStart(INITIAL, u, 0) == 0
  {
    hide WrapperAt, InvokeAt;
    TagNotEmpty(u);
    assert u[..0] == "";
  }

  lemma TagNotEmpty(u: string)
    requires TagAt(u, 0)
    ensures u != ""
  {
  }

  lemma {:induction false} NoBlockReads(u: string)
    requires SegmentStart(INITIAL, u, 0) == 0 && FirstBlock(u).None?
    ensures Eager(u) == u
  {
    hide SegmentStart, FirstBlock, Feed;
    ReplyIs(EAGER, INITIAL, u, 0);
    assert u[0..] == u && u[..0] == "" && "" + u == u;
  }

  lemma BlockStartsAt(u: string)
    requires FirstBlock(u).Some? && IndexFrom(u, WRAPPER, 0) >= 0
    ensures FirstBlock(u).value.start == IndexFrom(u, WRAPPER, 0)
  {
    hide FindVisible, IndexFrom;
  }

  lemma {:induction false} SameBlockLater(u: string, e: nat, k: nat, b: Span)
    requires 0 < e && NoTicks(u) && FirstBlock(u) == Some(b) && SegmentStart(INITIAL, u, 0) == 0
    requires e + k <= IndexFrom(u, WRAPPER, 0) && e + k <= |u| && SegmentStart(INITIAL, u[e..], 0) == k
    ensures |Eager(u[e..])| < |Eager(u)|
  {
    hide FirstBlock, SegmentStart, IndexFrom, Eager, NoTicks, At, LowerChar, TagAt, Feed;
    var w := u[e..];
    var w1 := w[k..];
    Splits(u, e);
    Splits(u, 0);
    WholeTickFree(u[..e], w);
    SuffixOf(u, e, k);
    Splits(u, e + k);
    assert w1 == u[e + k..] && u == u[..e + k] + w1;
    BlockShift(u[..e + k], w1);
    var b1 := FirstBlock(w1).value;
    assert b.start == e + k + b1.start && b.end == e + k + b1.end;
    EagerReads(w, k, b1);
    EagerReads(u, 0, b);
    SuffixOf(u, e, k + b1.end);
    assert |Eager(w)| == k + b1.start + |Eager(u[b.end..])|;
    assert |Eager(u)| == b.start + |Eager(u[b.end..])|;
  }

  lemma Splits(u: string, e: nat)
    requires e <= |u|
    ensures u == u[..e] + u[e..] && |u[..e]| == e && u[0..] == u
  {
  }

  lemma SuffixOf(u: string, e: nat, k: nat)
    requires e + k <= |u|
    ensures u[e..][k..] == u[e + k..]
  {
  }

  /** Text before the first tag is shown, a wrapper without its delimiter included. */
  lemma {:induction false} ShowsWrapper(w: string, n: nat)
    requires At(w, n, WRAPPER) && (SegmentStart(INITIAL, w, 0) < 0 || SegmentStart(INITIAL, w, 0) > n)
    ensures n + |WRAPPER| <= |Eager(w)| && Eager(w)[..n + |WRAPPER|] == w[..n + |WRAPPER|]
  {
    hide SegmentStart, After, Feed;
    AtInside(w, n, WRAPPER);
    var k := SegmentStart(INITIAL, w, 0);
    if k >= 0 {
      TagIsApart(w, n, k);
      ReplyIs(EAGER, INITIAL, w, k);
    }
  }

  lemma TagIsApart(w: string, n: nat, k: nat)
    requires At(w, n, WRAPPER) && TagAt(w, k) && n < k
    ensures n + |WRAPPER| <= k
  {
    var name := if At(w, k, WRAPPER) then WRAPPER else INVOKE;
    AtChar(w, k, name, 0);
    if k < n + |WRAPPER| {
      AtChar(w, n, WRAPPER, k - n);
    }
  }

  /** A text that shows its wrapper that early has it that early. */
  lemma WrapperTooEarly(u: string, e: nat, o: nat, shown: string)
    requires At(u, o, WRAPPER) && |WRAPPER| <= e <= o && o + |WRAPPER| <= |u| && o <= |shown|
    requires shown[..o] == u[..o] && shown[..o - e + |WRAPPER|] == u[e..o + |WRAPPER|]
    ensures At(u, o - e, WRAPPER)
  {
    var n := o - e;
    forall i | 0 <= i < |WRAPPER| ensures LowerChar(u[n + i]) == WRAPPER[i] {
      assert u[n + i] == shown[..o][n + i] == shown[..n + |WRAPPER|][n + i] == u[e..o + |WRAPPER|][n + i] == u[o + i];
      AtChar(u, o, WRAPPER, i);
    }
  }

  lemma CancelLeft(x: string, y: string, z: string)
    requires y != z
    ensures x + y != x + z
  {
    assert (x + y)[|x|..] == y && (x + z)[|x|..] == z;
  }

  /** After a bare invoke is taken for a block, the rest does not show what the whole would have
      shown: the text before the wrapper is missing, or the wrapper is not recognised. */
  lemma {:induction false} ReadingsDiffer(u: string, e: nat)
    requires NoTicks(u) && TagAt(u, 0) && |WRAPPER| <= e <= IndexFrom(u, WRAPPER, 0)
    ensures e <= |u| && Eager(u) != Eager(u[e..])
  {
    hide TagAt, FirstBlock, SegmentStart, FindVisible, IndexFrom, Reply, NoTicks, At;
    var o := IndexFrom(u, WRAPPER, 0);
    AtInside(u, o, WRAPPER);
    var w := u[e..];
    assert u == u[..e] + w && u[0..] == u;
    WholeTickFree(u[..e], w);
    StartsAtOnce(u);
    var k := SegmentStart(INITIAL, w, 0);
    if FirstBlock(u).None? {
      NoBlockReads(u);
      ReplyFits(EAGER, INITIAL, w);
    } else {
      var b := FirstBlock(u).value;
      if 0 <= k <= o - e {
        SameBlockLater(u, e, k, b);
      } else {
        AtShift(u[..e], w, o - e, WRAPPER);
        ShowsWrapper(w, o - e);
        BlockStartsAt(u);
        EagerReads(u, 0, b);
        assert Eager(u)[..o] == u[..o];
        assert w[..o - e + |WRAPPER|] == u[e..o + |WRAPPER|];
        if Eager(u) == Eager(w) {
          WrapperTooEarly(u, e, o, Eager(u));
        }
      }
    }
  }

  /** Where an unsteady text is cut: the first part ends with a block, and the parts do not show
      what the whole shows. */
  lemma {:induction false} UnsteadySplits(t: string) returns (a: string, b: string)
    requires NoTicks(t) && !Steady(t)
    ensures t == a + b && Finishes(a) && Eager(a) + Eager(b) != Eager(t)
    decreases |t|
  {
    hide TagAt, FirstBlock, SegmentStart, OpensFirst, Reply, NoTicks, Eager, Finishes;
    var k := SegmentStart(INITIAL, t, 0);
    var u := t[k..];
    assert t == t[..k] + u;
    WholeTickFree(t[..k], u);
    TagAtStart(t, k);
    if !OpensFirst(u) {
      var e := UnsteadyHere(t, k);
      a, b := t[..k + e], t[k + e..];
    } else {
      var block := FirstBlock(u).value;
      var rest := u[block.end..];
      assert u == u[..block.end] + rest;
      WholeTickFree(u[..block.end], rest);
      var a', b' := UnsteadySplits(rest);
      SlicesOf(t, k, block.end, a', b');
      SplitLater(t, k, block, a', b');
      a, b := t[..k + block.end] + a', b';
    }
  }

  lemma TagAtStart(t: string, k: nat)
    requires SegmentStart(INITIAL, t, 0) == k
    ensures k <= |t| && TagAt(t[k..], 0)
  {
    hide TagAt, SegmentStart, Inside;
    assert t[..k] + t[k..] == t;
    TagShift(t[..k], t[k..], 0);
  }

  lemma {:induction false} UnsteadyHere(t: string, k: nat) returns (e: nat)
    requires NoTicks(t) && SegmentStart(INITIAL, t, 0) == k && !OpensFirst(t[k..])
    ensures k + e <= |t| && Finishes(t[..k + e]) && Eager(t[..k + e]) + Eager(t[k + e..]) != Eager(t)
  {
    hide TagAt, SegmentStart, Reply, FindVisible, IndexFrom, At, FirstBlock, NoTicks, EAGER;
    var u := t[k..];
    var o := IndexFrom(u, WRAPPER, 0);
    var c := FindVisible(u, WRAPPER_CLOSE, 0);
    WrapperAfterClose(u, c, o);
    AtInside(u, o, WRAPPER);
    e := c + |WRAPPER_CLOSE|;
    var a := t[..k + e];
    TagAtStart(t, k);
    assert t == a + u[e..] && u == u[..e] + u[e..] && a[k..] == u[..e] && a[..k] == t[..k] && t == t[..k] + u;
    WholeTickFree(a, u[e..]);
    WholeTickFree(t[..k], u);
    var b := BareBlock(u, c);
    SegmentInPrefix(INITIAL, a, u[e..], 0);
    assert a[k..][b.end..] == "";
    assert Finishes("");
    EagerReads(a, k, b);
    EmptyReads();
    assert a[..k + 0] == t[..k] && a[k + e..] == "";
    ReadingsDiffer(u, e);
    EagerAfterTag(t, k);
    assert t[k + e..] == u[e..] && t[..k] + "" == t[..k];
    CancelLeft(t[..k], Eager(u[e..]), Eager(u));
  }

  lemma EmptyReads()
    ensures Eager("") == ""
  {
  }

  /** Plain text before a tag is shown ahead of the rest. */
  lemma {:induction false} EagerAfterTag(t: string, k: nat)
    requires NoTicks(t) && SegmentStart(INITIAL, t, 0) == k
    ensures k <= |t| && Eager(t) == t[..k] + Eager(t[k..])
  {
    hide SegmentStart, After, Feed, Reply, TagAt, EAGER;
    TagAtStart(t, k);
    StartsAtOnce(t[k..]);
    ReplyIs(EAGER, INITIAL, t, k);
    var g := Feed(INITIAL, t[..k]);
    assert t == t[..k] + t[k..];
    WholeTickFree(t[..k], t[k..]);
    FeedNoTicks(INITIAL, t[..k]);
    SegmentOpen(INITIAL, g, t[k..], 0);
    ReplyIs(EAGER, g, t[k..], 0);
    ReplyOpen(EAGER, g, t[k..]);
    FedNothing(g);
    assert t[k..][..0] == "" && t[k..][0..] == t[k..];
    ThenNothing(After(EAGER, g, t[k..]));
  }

  /** A bare invoke closed before its wrapper opens is a block when the text stops there. */
  lemma {:induction false} BareBlock(u: string, c: nat) returns (b: Span)
    requires FindVisible(u, WRAPPER_CLOSE, 0) == c > 0 && c + |WRAPPER_CLOSE| <= IndexFrom(u, WRAPPER, 0) <= |u|
    ensures FirstBlock(u[..c + |WRAPPER_CLOSE|]) == Some(b) && b.start == 0 && b.end == c + |WRAPPER_CLOSE|
  {
    hide FindVisible, IndexFrom, At;
    var e := c + |WRAPPER_CLOSE|;
    var a, v := u[..e], u[e..];
    assert a + v == u;
    if IndexFrom(a, WRAPPER, 0) >= 0 {
      IndexAppend(a, v, WRAPPER, 0);
      AtInside(a, IndexFrom(a, WRAPPER, 0), WRAPPER);
    }
    FindVisibleInPrefix(a, v, WRAPPER_CLOSE, 0);
    b := Span(0, e, "<tool_calls>" + a[..c] + "</tool_calls>");
  }

  lemma {:induction false} SplitLater(t: string, k: nat, block: Span, a: string, b: string)
    requires NoTicks(t) && SegmentStart(INITIAL, t, 0) == k && FirstBlock(t[k..]) == Some(block)
    requires t[k..][block.end..] == a + b && Finishes(a) && Eager(a) + Eager(b) != Eager(a + b)
    ensures var x := t[..k + block.end]; Finishes(x + a) && Eager(x + a) + Eager(b) != Eager(t)
  {
    hide SegmentStart, FirstBlock, TagAt, Reply, NoTicks, Eager, Finishes;
    var s := t[..k + block.end] + a;
    SlicesOf(t, k, block.end, a, b);
    WholeTickFree(s, b);
    BlockIsLong(t[k..]);
    SegmentInPrefix(INITIAL, s, b, 0);
    BlockInPrefix(s[k..], b);
    FinishesLater(s, k, block);
    EagerReads(s, k, block);
    EagerReads(t, k, block);
    var x := t[..k + block.start];
    assert s[..k + block.start] == x;
    CancelLeft(x, Eager(a) + Eager(b), Eager(a + b));
    assert x + (Eager(a) + Eager(b)) == (x + Eager(a)) + Eager(b);
  }

  lemma FinishesLater(s: string, k: nat, block: Span)
    requires SegmentStart(INITIAL, s, 0) == k && FirstBlock(s[k..]) == Some(block) && Finishes(s[k..][block.end..])
    ensures Finishes(s)
  {
    hide SegmentStart, FirstBlock;
  }

  lemma SlicesOf(t: string, k: nat, e: nat, a: string, b: string)
    requires k + e <= |t| && t[k..][e..] == a + b
    ensures var s := t[..k + e] + a;
      && s + b == t && s[k..] + b == t[k..] && s[k..][e..] == a && s[k + e..] == a && t[k + e..] == a + b
  {
    assert t == t[..k + e] + t[k + e..] && t[k + e..] == t[k..][e..];
    var s := t[..k + e] + a;
    assert s[k..] == t[k..k + e] + a;
  }

  /** An unsteady text without back-ticks does depend on its chunks: an eager parser shows one thing
      for the whole of it, and another for two parts. */
  lemma {:induction false} UnsteadyDependsOnChunks(t: string) returns (a: string, b: string)
    requires NoTicks(t) && !Steady(t)
    ensures a + b == t && TextOf(Stream(EAGER, [a, b])) != Reply(EAGER, INITIAL, t).text
  {
    hide Stream, Reply, Steady, Finishes, NoTicks, TextOf;
    a, b := UnsteadySplits(t);
    WholeTickFree(a, b);
    InTwoParts(EAGER, a, b);
  }

  /** However it is cut, and whatever is recognised, the text shows what the reference says. */
  ghost predicate Independent(t: string) {
    forall p: Parser, chunks: seq<string> :: Concat(chunks) == t ==>
      TextOf(Stream(p, chunks)) == Reply(p, INITIAL, t).text
  }

  /** Exactly the steady texts are independent of their chunks. */
  lemma {:induction false} SteadyIff(t: string)
    requires NoTicks(t)
    ensures Steady(t) <==> Independent(t)
  {
    hide Stream, Reply, Steady, TextOf, SteadyFor;
    if Steady(t) {
      forall p: Parser, chunks: seq<string> | Concat(chunks) == t
        ensures TextOf(Stream(p, chunks)) == Reply(p, INITIAL, t).text
      {
        SteadyForAll(p, INITIAL, t);
        ChunkingIsInvisible(p, chunks);
      }
    } else {
      var a, b := UnsteadyDependsOnChunks(t);
      TwoChunks(a, b);
    }
  }

  lemma TwoChunks(a: string, b: string)
    ensures Concat([a, b]) == a + b
  {
    assert [a, b][1..] == [b] && [b][1..] == [];
    assert Concat([b]) == b + "" == b;
  }
}
