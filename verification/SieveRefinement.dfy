/** The sieve against the reference: what a stream shows and calls does not depend on how it is cut
    into chunks. */
module SieveRefinement {
  import opened Options
  import opened Text
  import opened CodeFence
  import opened SieveModel
  import opened SieveConservation
  import opened SieveRuns
  import opened SieveReference

  // The fence tracker over a run.

  /** The tracker after noting the released texts one by one, blank ones left out. */
  function Noted(f: Fence, es: seq<Event>): Fence
    decreases |es|
  {
    if es == [] then f else Noted(if es[0].Content? then Note(f, es[0].text) else f, es[1..])
  }

  /** No released text is a blank one that would have moved the tracker. */
  predicate AllHeard(f: Fence, es: seq<Event>)
    decreases |es|
  {
    es == [] ||
    (if es[0].Content? then Note(f, es[0].text) == Feed(f, es[0].text) && AllHeard(Note(f, es[0].text), es[1..])
     else AllHeard(f, es[1..]))
  }

  lemma {:induction false} NotedSplit(f: Fence, a: seq<Event>, b: seq<Event>)
    ensures Noted(f, a + b) == Noted(Noted(f, a), b)
    ensures AllHeard(f, a + b) == (AllHeard(f, a) && AllHeard(Noted(f, a), b))
    decreases |a|
  {
    hide Note, Feed;
    if a == [] {
      assert a + b == b;
    } else {
      assert (a + b)[1..] == a[1..] + b;
      NotedSplit(if a[0].Content? then Note(f, a[0].text) else f, a[1..], b);
    }
  }

  lemma NotedOne(f: Fence, text: string, calls: seq<ToolCall>)
    ensures Noted(f, Text1(text)) == Note(f, text) && Noted(f, Delivered(calls)) == f
    ensures AllHeard(f, Text1(text)) == (Note(f, text) == Feed(f, text)) && AllHeard(f, Delivered(calls))
  {
    hide TrimSpace;
    EmptyTrims();
    if text != "" {
      assert [Content(text)][1..] == [];
    }
  }

  /** A drain moves the tracker by what it releases, piece by piece. */
  lemma {:induction false} DrainNotes(p: Parser, st: State)
    ensures Drain(p, st).0.fence == Noted(st.fence, Drain(p, st).1)
    decreases |st.pending| + |st.capture|, !st.capturing
  {
    hide Consume, Note, SegmentStart, SafeLength;
    if st.capturing {
      match Consume(p, st.capture + st.pending)
      case NotReady =>
      case Ready(prefix, calls, suffix) =>
        var next := State(suffix, "", false, Note(st.fence, prefix), if calls != [] then calls else st.waiting);
        DrainNotes(p, next);
        NotedSplit(st.fence, Text1(prefix), Drain(p, next).1);
        NotedOne(st.fence, prefix, []);
    } else if st.pending != "" {
      var k := SegmentStart(st.fence, st.pending, 0);
      if k >= 0 {
        var next := State("", st.capture + st.pending[k..], true, Note(st.fence, st.pending[..k]), st.waiting);
        DrainNotes(p, next);
        NotedSplit(st.fence, Text1(st.pending[..k]), Drain(p, next).1);
        NotedOne(st.fence, st.pending[..k], []);
      } else {
        var n := SafeLength(st.fence, st.pending);
        if n > 0 {
          var next := st.(pending := st.pending[n..], fence := Note(st.fence, st.pending[..n]));
          DrainNotes(p, next);
          NotedSplit(st.fence, Text1(st.pending[..n]), Drain(p, next).1);
          NotedOne(st.fence, st.pending[..n], []);
        }
      }
    }
  }

  /** The last character that says anything about line starts. */
  predicate EndsLine(s: string, lineStart: bool) {
    if s == "" then lineStart
    else if s[|s| - 1] in "\n\r" then true
    else if s[|s| - 1] in " \t" then EndsLine(s[..|s| - 1], lineStart)
    else false
  }

  lemma {:induction false} FeedBlank(f: Fence, s: string)
    requires All(s, SPACES)
    ensures Feed(f, s) ==
      if s == "" then f
      else Fence(FlushTicks(f).stack, 0, EndsLine(s, FlushTicks(f).lineStart))
  {
    if s != "" {
      var n := |s| - 1;
      FeedBlank(f, s[..n]);
      assert s[n] in SPACES;
      assert s[n] != '`';
    }
  }

  /** When dropping a blank text from the tracker makes no difference: it is empty, or no back-tick
      is waiting to be ended and the line start after it is the line start before it. */
  lemma BlankIsHeardIff(f: Fence, s: string)
    requires TrimSpace(s) == ""
    ensures Note(f, s) == Feed(f, s) <==> s == "" || (f.ticks == 0 && EndsLine(s, f.lineStart) == f.lineStart)
  {
    hide TrimSpace, Feed, EndsLine;
    TrimsToNothing(s);
    FeedBlank(f, s);
  }

  /** If every released text is heard, the tracker has read exactly the released text. */
  lemma {:induction false} HeardIsFed(f: Fence, es: seq<Event>)
    requires AllHeard(f, es)
    ensures Noted(f, es) == Feed(f, TextOf(es))
    decreases |es|
  {
    hide Note, Feed;
    if es == [] {
      assert Feed(f, "") == f by { FedNothing(f); }
    } else {
      if es[0].Content? {
        HeardIsFed(Note(f, es[0].text), es[1..]);
        FeedSplit(f, es[0].text, TextOf(es[1..]));
      } else {
        HeardIsFed(f, es[1..]);
        assert "" + TextOf(es[1..]) == TextOf(es[1..]);
      }
    }
  }

  lemma FedNothing(f: Fence)
    ensures Feed(f, "") == f
  {
  }

  // The refinement.

  /** What is still to be shown when the buffers hold `st`, the reader has the tracker `g`, and `v`
      is yet to arrive. */
  function ToShow(p: Parser, g: Fence, st: State, v: string): Shown {
    if st.capturing then After(p, g, st.capture + st.pending + v) else Reply(p, g, st.pending + v)
  }

  /** Only text to come can be unsteady. */
  predicate SteadyAhead(p: Parser, g: Fence, st: State, v: string) {
    if v == "" then true
    else if st.capturing then SteadyBlock(p, g, st.capture + st.pending + v) else SteadyFor(p, g, st.pending + v)
  }

  /** With `n` characters to come, no closing fence that goes with a complete block is among them. */
  predicate Undivided(hits: seq<Hit>, n: nat) {
    forall i :: 0 <= i < |hits| ==> !(hits[i].tail < n <= hits[i].left)
  }

  /** The sieve's tracker does the reader's work: they are the same, or there are no back-ticks. */
  predicate Tracks(strict: bool, f: Fence, g: Fence, ahead: string) {
    if strict then f == g else Open(f) && Open(g) && NoTicks(ahead)
  }

  predicate Follows(strict: bool, p: Parser, g: Fence, st: State, v: string) {
    && (if st.capturing then TagAt(st.capture, 0) else st.capture == "")
    && Tracks(strict, st.fence, g, Buffered(st) + v)
    && SteadyAhead(p, g, st, v) && Undivided(ToShow(p, g, st, v).hits, |v|)
  }

  function CallsOf(hits: seq<Hit>): seq<seq<ToolCall>> {
    seq(|hits|, i requires 0 <= i < |hits| => hits[i].calls)
  }

  lemma CallsOfJoin(a: seq<Hit>, b: seq<Hit>)
    ensures CallsOf(a + b) == CallsOf(a) + CallsOf(b)
  {
  }

  lemma TracksOn(strict: bool, f: Fence, g: Fence, x: string, rest: string)
    requires Tracks(strict, f, g, x + rest) && (strict ==> Note(f, x) == Feed(f, x))
    ensures Tracks(strict, Note(f, x), Feed(g, x), rest)
  {
    if !strict {
      WholeTickFree(x, rest);
      FeedNoTicks(f, x);
      FeedNoTicks(g, x);
    }
  }

  lemma WholeTickFree(a: string, b: string)
    ensures NoTicks(a + b) <==> NoTicks(a) && NoTicks(b)
  {
    if NoTicks(a + b) {
      forall i | 0 <= i < |a| ensures a[i] != '`' { assert a[i] == (a + b)[i]; }
      forall i | 0 <= i < |b| ensures b[i] != '`' { assert b[i] == (a + b)[|a| + i]; }
    }
  }

  lemma {:induction false} SegmentOpen(f: Fence, g: Fence, s: string, i: nat)
    requires Open(f) && Open(g) && NoTicks(s)
    ensures SegmentStart(f, s, i) == SegmentStart(g, s, i)
    decreases |s| - i
  {
    hide TagAt, Feed;
    if i < |s| {
      FeedNoTicks(f, s[..i]);
      FeedNoTicks(g, s[..i]);
      SegmentOpen(f, g, s, i + 1);
    }
  }

  /** Sieve and reader find the same tag and hold back the same text. */
  lemma SameView(strict: bool, f: Fence, g: Fence, s: string)
    requires Tracks(strict, f, g, s)
    ensures SegmentStart(f, s, 0) == SegmentStart(g, s, 0) && SafeLength(f, s) == SafeLength(g, s)
  {
    hide SegmentStart, PartialTag, Feed;
    if !strict {
      SegmentOpen(f, g, s, 0);
      var k := PartialTag(s);
      if k >= 0 {
        FeedNoTicks(f, s[..k]);
        FeedNoTicks(g, s[..k]);
      }
    }
  }

  /** One turn of the sieve's loop and of the reader: `text` is shown and `hits` are completed. */
  predicate Advances(p: Parser, g: Fence, st: State, v: string, text: string, hits: seq<Hit>, next: State) {
    && ToShow(p, g, st, v) == Then(text, hits, ToShow(p, Feed(g, text), next, v))
    && (SteadyAhead(p, g, st, v) ==> SteadyAhead(p, Feed(g, text), next, v))
  }

  lemma {:induction false} TagTurn(p: Parser, g: Fence, st: State, v: string)
    requires !st.capturing && st.capture == "" && SegmentStart(g, st.pending, 0) >= 0
    ensures var s := st.pending; var k := SegmentStart(g, s, 0);
      var next := State("", st.capture + s[k..], true, Note(st.fence, s[..k]), st.waiting);
      && Advances(p, g, st, v, s[..k], [], next) && TagAt(next.capture, 0)
  {
    hide Note, SegmentStart, After, Reply, SteadyFor, SteadyBlock, TagAt, Feed;
    var s := st.pending;
    var k := SegmentStart(g, s, 0);
    TagFoundRefines(p, g, s, v);
    assert "" + s[k..] == s[k..] && s[k..] + "" + v == s[k..] + v;
  }

  lemma {:induction false} HeldTurn(p: Parser, g: Fence, st: State, v: string)
    requires !st.capturing && SegmentStart(g, st.pending, 0) < 0
    ensures var s := st.pending; var n := SafeLength(g, s);
      var next := st.(pending := s[n..], fence := Note(st.fence, s[..n]));
      Advances(p, g, st, v, s[..n], [], next)
  {
    hide Note, SegmentStart, SafeLength, After, Reply, SteadyFor, SteadyBlock, Feed;
    HeldRefines(p, g, st.pending, v);
  }

  lemma {:induction false} CaptureTurn(p: Parser, g: Fence, st: State, v: string) returns (hits: seq<Hit>)
    requires st.capturing && TagAt(st.capture, 0) && SteadyAhead(p, g, st, v)
    requires Undivided(ToShow(p, g, st, v).hits, |v|) && Consume(p, st.capture + st.pending).Ready?
    ensures var r := Consume(p, st.capture + st.pending);
      var next := State(r.suffix, "", false, Note(st.fence, r.prefix), if r.calls != [] then r.calls else st.waiting);
      Advances(p, g, st, v, r.prefix, hits, next)
    ensures CallsOf(hits) == (var r := Consume(p, st.capture + st.pending); if r.calls != [] then [r.calls] else [])
    ensures forall i :: 0 <= i < |hits| ==> hits[i].left >= |v|
  {
    hide Consume, Note, FirstBlock, Reply, SteadyFor, TagAt, Feed, OpensFirst, TurnOf, Undivided;
    var u := st.capture + st.pending;
    TagAppend(st.capture, st.pending, 0);
    ConsumeIsTurn(p, u);
    if v == "" {
      assert u + v == u;
    } else {
      BlockIsStable(u, v);
    }
    var b := FirstBlock(u).value;
    FirstIsDecided(p, g, u, v, b);
    TurnIsStable(p, u, v, b);
    var t := TurnOf(p, u, b);
    hits := HitsOf(u + v, b, TurnOf(p, u + v, b));
  }

  /** A complete block whose closing fence is not divided from it is trimmed as it will be. */
  lemma {:induction false} FirstIsDecided(p: Parser, g: Fence, u: string, v: string, b: Span)
    requires FirstBlock(u + v) == Some(b) && b.end <= |u| && Undivided(After(p, g, u + v).hits, |v|)
    ensures p.Recognise(b.parsed) != [] ==> Decided(u[..b.start], u[b.end..], v)
  {
    hide FirstBlock, Reply, Feed, OpensFence, ClosesFence, TrimFence, Parser.Recognise;
    var before, after := u[..b.start], u[b.end..];
    SlicesAgree(u, v, b.start, b.end);
    DecidedIff(before, after, v);
    var hits := After(p, g, u + v).hits;
    if p.Recognise(b.parsed) != [] {
      assert hits[0] == Hit(p.Recognise(b.parsed), |u + v| - b.end, |TrimFence(before, after + v).1|);
      if OpensFence(before) && !ClosesFence(after) && ClosesFence(after + v) {
        FenceIsToCome(before, after, v);
      }
    }
  }

  lemma FenceIsToCome(before: string, after: string, v: string)
    requires OpensFence(before) && !ClosesFence(after) && ClosesFence(after + v)
    ensures |TrimFence(before, after + v).1| < |v|
  {
    hide CountTicks, JsonHeader, TrimSpace, LastIndexOf;
    var u := TrimLeft(after, LINE_SPACES);
    var w := TrimLeft(after + v, LINE_SPACES);
    TrimLeftSplit(after, LINE_SPACES);
    TrimLeftSplit(after + v, LINE_SPACES);
    if u != "" {
      TrimLeftAppend(after, v, LINE_SPACES);
      AtAppend(u, v, 0, TICKS);
    } else {
      AllBlank(after, v);
    }
    AtInside(w, 0, TICKS);
  }

  lemma {:induction false} AllBlank(s: string, v: string)
    requires TrimLeft(s, LINE_SPACES) == ""
    ensures TrimLeft(s + v, LINE_SPACES) == TrimLeft(v, LINE_SPACES) && |TrimLeft(v, LINE_SPACES)| <= |v|
  {
    if s == "" {
      assert s + v == v;
      TrimLeftSplit(v, LINE_SPACES);
    } else {
      assert (s + v)[1..] == s[1..] + v;
      AllBlank(s[1..], v);
    }
  }

  /** What one drain does to what is still to be shown. */
  predicate Drained(strict: bool, p: Parser, g: Fence, st: State, v: string, hits: seq<Hit>) {
    var st', es := Drain(p, st).0, Drain(p, st).1;
    var g' := Feed(g, TextOf(es));
    && Follows(strict, p, g', st', v)
    && ToShow(p, g, st, v) == Then(TextOf(es), hits, ToShow(p, g', st', v))
    && CallsOf(hits) == Recognised(p, st)
    && forall i :: 0 <= i < |hits| ==> hits[i].left >= |v|
  }

  /** One drain shows exactly what the reference says may already be shown, and recognises exactly
      the blocks that end in what has arrived. */
  lemma {:induction false} DrainRefines(strict: bool, p: Parser, g: Fence, st: State, v: string)
    returns (hits: seq<Hit>)
    requires Follows(strict, p, g, st, v) && (strict ==> AllHeard(st.fence, Drain(p, st).1))
    ensures Drained(strict, p, g, st, v, hits)
    decreases |st.pending| + |st.capture|, !st.capturing, 1
  {
    hide Consume, Note, SegmentStart, SafeLength, ToShow, SteadyAhead, TagAt, Feed, Undivided, Tracks, AllHeard, TextOf;
    var s := st.pending;
    hits := [];
    if st.capturing {
      var r := Consume(p, st.capture + s);
      if r.Ready? {
        var first := CaptureTurn(p, g, st, v);
        var next := State(r.suffix, "", false, Note(st.fence, r.prefix), if r.calls != [] then r.calls else st.waiting);
        CaptureTracks(strict, p, g, st, v);
        assert Buffered(next) == r.suffix;
        hits := Continues(strict, p, g, st, r.prefix, first, next, v);
      } else {
        WaitTurn(strict, p, g, st, v);
      }
    } else if s == "" {
      Stays(strict, p, g, st, v);
    } else {
      PendingView(strict, p, g, st, v);
      var k := SegmentStart(st.fence, s, 0);
      if k >= 0 {
        TagTurn(p, g, st, v);
        var next := State("", st.capture + s[k..], true, Note(st.fence, s[..k]), st.waiting);
        PendingTracks(strict, p, g, st, k, v);
        assert Buffered(next) == s[k..];
        hits := Continues(strict, p, g, st, s[..k], [], next, v);
      } else {
        var n := SafeLength(st.fence, s);
        if n > 0 {
          HeldTurn(p, g, st, v);
          PendingTracks(strict, p, g, st, n, v);
          var next := st.(pending := s[n..], fence := Note(st.fence, s[..n]));
          assert Buffered(next) == s[n..];
          hits := Continues(strict, p, g, st, s[..n], [], next, v);
        } else {
          Stays(strict, p, g, st, v);
        }
      }
    }
  }

  lemma PendingView(strict: bool, p: Parser, g: Fence, st: State, v: string)
    requires Follows(strict, p, g, st, v) && !st.capturing
    ensures SegmentStart(st.fence, st.pending, 0) == SegmentStart(g, st.pending, 0)
    ensures SafeLength(st.fence, st.pending) == SafeLength(g, st.pending)
  {
    hide SegmentStart, SafeLength, SteadyAhead, ToShow, Undivided, Feed;
    assert "" + st.pending == st.pending;
    WholeTickFree(st.pending, v);
    SameView(strict, st.fence, g, st.pending);
  }

  /** Releasing the beginning of the pending text keeps the trackers together. */
  lemma PendingTracks(strict: bool, p: Parser, g: Fence, st: State, n: nat, v: string)
    requires Follows(strict, p, g, st, v) && !st.capturing && n <= |st.pending|
    ensures var s := st.pending;
      (strict ==> Note(st.fence, s[..n]) == Feed(st.fence, s[..n])) ==>
        Tracks(strict, Note(st.fence, s[..n]), Feed(g, s[..n]), s[n..] + v)
  {
    hide SteadyAhead, ToShow, Undivided, Feed, Note;
    var s := st.pending;
    assert Buffered(st) + v == s[..n] + (s[n..] + v);
    if strict ==> Note(st.fence, s[..n]) == Feed(st.fence, s[..n]) {
      TracksOn(strict, st.fence, g, s[..n], s[n..] + v);
    }
  }

  /** Releasing the text before a block, and removing the block, does so too. */
  lemma {:induction false} CaptureTracks(strict: bool, p: Parser, g: Fence, st: State, v: string)
    requires Follows(strict, p, g, st, v) && st.capturing && Consume(p, st.capture + st.pending).Ready?
    ensures var r := Consume(p, st.capture + st.pending);
      (strict ==> Note(st.fence, r.prefix) == Feed(st.fence, r.prefix)) ==>
        Tracks(strict, Note(st.fence, r.prefix), Feed(g, r.prefix), r.suffix + v)
  {
    hide SteadyAhead, ToShow, Undivided, Feed, Note, Consume;
    var u := st.capture + st.pending;
    var r := Consume(p, u);
    if !strict {
      var ps := ConsumeSplits(p, u);
      WholeTickFree(u, v);
      PartsTickFree(ps, r.suffix, u);
      WholeTickFree(r.suffix, v);
      WholeTickFree(r.prefix, r.suffix + v);
      TracksOn(strict, st.fence, g, r.prefix, r.suffix + v);
    } else if Note(st.fence, r.prefix) == Feed(st.fence, r.prefix) {
      TracksOn(strict, st.fence, g, r.prefix, r.suffix + v);
    }
  }

  lemma {:induction false} PartsTickFree(ps: seq<Piece>, rest: string, u: string)
    requires NoTicks(u) && Whole(ps) + rest == u
    ensures NoTicks(Keeps(ps)) && NoTicks(rest)
  {
    WholeTickFree(Whole(ps), rest);
    KeepsTickFree(ps);
  }

  lemma {:induction false} KeepsTickFree(ps: seq<Piece>)
    requires NoTicks(Whole(ps))
    ensures NoTicks(Keeps(ps))
  {
    if ps != [] {
      var head := match ps[0] case Kept(t) => t case Cut(o, b, c) => o + b + c;
      WholeTickFree(head, Whole(ps[1..]));
      KeepsTickFree(ps[1..]);
    }
  }

  /** A drain that has nothing to do. */
  lemma Stays(strict: bool, p: Parser, g: Fence, st: State, v: string)
    requires Follows(strict, p, g, st, v) && Drain(p, st) == (st, []) && Recognised(p, st) == []
    ensures Drained(strict, p, g, st, v, [])
  {
    hide Drain, Recognised, ToShow, Follows;
    FedNothing(g);
    ThenNothing(ToShow(p, g, st, v));
  }

  lemma ThenNothing(s: Shown)
    ensures Then("", [], s) == s
  {
  }

  lemma {:induction false} WaitTurn(strict: bool, p: Parser, g: Fence, st: State, v: string)
    requires Follows(strict, p, g, st, v) && st.capturing && Consume(p, st.capture + st.pending).NotReady?
    ensures Drained(strict, p, g, st, v, [])
  {
    hide After, Reply, SteadyFor, SteadyBlock, TagAt, Consume, Undivided, Tracks, Feed;
    TagAppend(st.capture, st.pending, 0);
    assert (st.capture + st.pending) + "" + v == st.capture + st.pending + v;
    assert (st.capture + st.pending) + "" == st.capture + st.pending;
    FedNothing(g);
    ThenNothing(ToShow(p, g, st, v));
  }

  /** The rest of a drain after one turn that shows `text` and completes `first`. */
  lemma {:induction false} Continues(strict: bool, p: Parser, g: Fence, st: State, text: string, first: seq<Hit>,
                                     next: State, v: string)
    returns (hits: seq<Hit>)
    requires Follows(strict, p, g, st, v) && Advances(p, g, st, v, text, first, next)
    requires if next.capturing then TagAt(next.capture, 0) else next.capture == ""
    requires next.fence == Note(st.fence, text)
    requires (strict ==> Note(st.fence, text) == Feed(st.fence, text)) ==>
      Tracks(strict, next.fence, Feed(g, text), Buffered(next) + v)
    requires Drain(p, st) == (Drain(p, next).0, Text1(text) + Drain(p, next).1)
    requires Recognised(p, st) == CallsOf(first) + Recognised(p, next)
    requires forall i :: 0 <= i < |first| ==> first[i].left >= |v|
    requires strict ==> AllHeard(st.fence, Drain(p, st).1)
    requires |next.pending| + |next.capture| < |st.pending| + |st.capture|
      || (|next.pending| + |next.capture| == |st.pending| + |st.capture| && next.capturing && !st.capturing)
    ensures Drained(strict, p, g, st, v, hits)
    decreases |st.pending| + |st.capture|, !st.capturing, 0
  {
    hide Drain, Recognised, ToShow, SteadyAhead, TextOf, Tracks, Note, Feed, AllHeard, TagAt, Buffered, CallsOf;
    NotedSplit(st.fence, Text1(text), Drain(p, next).1);
    NotedOne(st.fence, text, []);
    LaterUndivided(first, ToShow(p, Feed(g, text), next, v).hits, |v|);
    var rest := DrainRefines(strict, p, Feed(g, text), next, v);
    hits := first + rest;
    CallsOfJoin(first, rest);
    TextOfAppend(Text1(text), Drain(p, next).1);
    EventTexts([], text);
    var more := TextOf(Drain(p, next).1);
    FeedSplit(g, text, more);
    ThenTwice(text, first, more, rest, ToShow(p, Feed(g, text + more), Drain(p, next).0, v));
  }

  lemma ThenTwice(a: string, x: seq<Hit>, b: string, y: seq<Hit>, s: Shown)
    ensures Then(a, x, Then(b, y, s)) == Then(a + b, x + y, s)
  {
  }

  lemma LaterUndivided(a: seq<Hit>, b: seq<Hit>, n: nat)
    requires Undivided(a + b, n)
    ensures Undivided(a, n) && Undivided(b, n)
  {
    forall i | 0 <= i < |b| ensures !(b[i].tail < n <= b[i].left) {
      assert (a + b)[|a| + i] == b[i];
    }
    forall i | 0 <= i < |a| ensures !(a[i].tail < n <= a[i].left) {
      assert (a + b)[i] == a[i];
    }
  }
}
