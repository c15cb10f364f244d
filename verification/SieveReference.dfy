/** What a reply read as a whole shows and calls: the reference for the streaming sieve. */
module SieveReference {
  import opened Options
  import opened Text
  import opened CodeFence
  import opened SieveModel

  /** A recognised block: its calls, how much text is left after it, and how much after the closing
      code fence that goes with it, if one does. */
  datatype Hit = Hit(calls: seq<ToolCall>, left: nat, tail: nat)

  datatype Shown = Shown(text: string, hits: seq<Hit>)

  function Then(text: string, hits: seq<Hit>, rest: Shown): Shown {
    Shown(text + rest.text, hits + rest.hits)
  }

  /** Where a block stands and what the parser is given for it. */
  datatype Span = Span(start: nat, end: nat, parsed: string)

  /** The first complete block of a text that starts with a tool tag: the first wrapper up to its
      first close outside CDATA and comments, or without a wrapper a bare invoke up to such a close. */
  function FirstBlock(u: string): (r: Option<Span>)
    ensures r.Some? ==> r.value.start < r.value.end <= |u|
  {
    var o := IndexFrom(u, WRAPPER, 0);
    if o >= 0 then
      var c := FindVisible(u, WRAPPER_CLOSE, o + |WRAPPER|);
      if c < 0 then None else Some(Span(o, c + |WRAPPER_CLOSE|, u[o..c + |WRAPPER_CLOSE|]))
    else
      var c := FindVisible(u, WRAPPER_CLOSE, 0);
      if c <= 0 then None else Some(Span(0, c + |WRAPPER_CLOSE|, "<tool_calls>" + u[..c] + "</tool_calls>"))
  }

  /** What becomes of a block: text shown, calls, and the text to go on with. */
  datatype Turn = Turn(shown: string, calls: seq<ToolCall>, rest: string)

  function TurnOf(p: Parser, u: string, b: Span): (t: Turn)
    requires b.start < b.end <= |u|
    ensures |t.rest| <= |u| - b.end
  {
    var calls := p.Recognise(b.parsed);
    if calls == [] then Turn(u[..b.end], [], u[b.end..])
    else
      var (before, after) := TrimFence(u[..b.start], u[b.end..]);
      Turn(before, calls, after)
  }

  function HitsOf(u: string, b: Span, t: Turn): seq<Hit>
    requires b.end <= |u|
  {
    if t.calls == [] then [] else [Hit(t.calls, |u| - b.end, |t.rest|)]
  }

  /** A reply, read with the fence tracker `g`: plain text up to the first tool tag outside a code
      fence, then what starts there. */
  function Reply(p: Parser, g: Fence, t: string): Shown
    decreases |t|, 1
  {
    var k := SegmentStart(g, t, 0);
    if k < 0 then Shown(t, []) else Then(t[..k], [], After(p, Feed(g, t[..k]), t[k..]))
  }

  /** A reply that starts with a tool tag: all of it text if no block completes, otherwise the
      block's turn and the rest. */
  function After(p: Parser, g: Fence, u: string): Shown
    decreases |u|, 0
  {
    match FirstBlock(u)
    case None => Shown(u, [])
    case Some(b) =>
      var t := TurnOf(p, u, b);
      Then(t.shown, HitsOf(u, b, t), Reply(p, Feed(g, t.shown), t.rest))
  }

  /** A bare invoke that starts a text is not closed before a wrapper opens. */
  predicate OpensFirst(u: string) {
    var o := IndexFrom(u, WRAPPER, 0);
    var bare := FindVisible(u, WRAPPER_CLOSE, 0);
    0 < o && 0 < bare ==> o < bare
  }

  /** No bare invoke, where the reader meets one, is closed before a wrapper opens. */
  predicate SteadyFor(p: Parser, g: Fence, t: string)
    decreases |t|, 1
  {
    var k := SegmentStart(g, t, 0);
    k < 0 || SteadyBlock(p, Feed(g, t[..k]), t[k..])
  }

  predicate SteadyBlock(p: Parser, g: Fence, u: string)
    decreases |u|, 0
  {
    OpensFirst(u) &&
    match FirstBlock(u)
    case None => true
    case Some(b) => var t := TurnOf(p, u, b); SteadyFor(p, Feed(g, t.shown), t.rest)
  }

  // Trimming a fence, and when its outcome is settled.

  /** The text ends in an opening code fence that goes with the block behind it. */
  predicate OpensFence(before: string) {
    var t := TrimRight(before, LINE_SPACES);
    var k := LastIndexOf(t, TICKS);
    k >= 0 && CountTicks(t[..k + 3], 0) % 2 != 0 && JsonHeader(TrimSpace(t[k + 3..]))
  }

  predicate ClosesFence(after: string) {
    At(TrimLeft(after, LINE_SPACES), 0, TICKS)
  }

  /** Later text changes nothing about the trimming but the text that follows. */
  predicate Decided(before: string, after: string, v: string) {
    var now := TrimFence(before, after);
    TrimFence(before, after + v) == (now.0, now.1 + v)
  }

  lemma TrimsBoth(before: string, after: string)
    ensures OpensFence(before) && ClosesFence(after) ==> |TrimFence(before, after).0| < |before|
    ensures OpensFence(before) && ClosesFence(after) ==> |TrimFence(before, after).1| < |after|
    ensures !(OpensFence(before) && ClosesFence(after)) ==> TrimFence(before, after) == (before, after)
  {
    hide CountTicks, JsonHeader, TrimSpace;
    TrimRightSplit(before, LINE_SPACES);
    TrimLeftSplit(after, LINE_SPACES);
  }

  lemma {:induction false} TrimLeftAppend(s: string, v: string, cut: string)
    requires TrimLeft(s, cut) != ""
    ensures TrimLeft(s + v, cut) == TrimLeft(s, cut) + v
  {
    if s != "" && s[0] in cut {
      assert (s + v)[1..] == s[1..] + v;
      TrimLeftAppend(s[1..], v, cut);
    }
  }

  lemma ClosesStays(after: string, v: string)
    requires ClosesFence(after)
    ensures ClosesFence(after + v)
    ensures TrimLeft(after + v, LINE_SPACES) == TrimLeft(after, LINE_SPACES) + v
  {
    TrimLeftAppend(after, v, LINE_SPACES);
    AtAppend(TrimLeft(after, LINE_SPACES), v, 0, TICKS);
  }

  /** Trimming acts only on what has arrived: its outcome is settled exactly unless the text before
      the block opens a fence that is closed by text still to come. */
  lemma DecidedIff(before: string, after: string, v: string)
    ensures Decided(before, after, v) <==> !OpensFence(before) || ClosesFence(after) || !ClosesFence(after + v)
  {
    hide OpensFence, ClosesFence;
    TrimsBoth(before, after);
    TrimsBoth(before, after + v);
    if OpensFence(before) && ClosesFence(after) {
      ClosesStays(after, v);
      TrimTwo(before, after, v);
    }
  }

  lemma TrimTwo(before: string, after: string, v: string)
    requires OpensFence(before) && ClosesFence(after) && ClosesFence(after + v)
    requires TrimLeft(after + v, LINE_SPACES) == TrimLeft(after, LINE_SPACES) + v
    ensures Decided(before, after, v)
  {
    hide CountTicks, JsonHeader, TrimSpace, LastIndexOf;
    var u := TrimLeft(after, LINE_SPACES);
    AtInside(u, 0, TICKS);
    assert (u + v)[3..] == u[3..] + v;
  }

  lemma NoTicksNowhere(s: string, i: int)
    requires NoTicks(s)
    ensures !At(s, i, TICKS)
  {
    if At(s, i, TICKS) {
      AtChar(s, i, TICKS, 0);
    }
  }

  lemma NoTicksNoFence(before: string)
    requires NoTicks(before)
    ensures !OpensFence(before)
  {
    TrimRightSplit(before, LINE_SPACES);
    var t := TrimRight(before, LINE_SPACES);
    assert forall i :: 0 <= i < |t| ==> t[i] == before[i];
    if LastIndexOf(t, TICKS) >= 0 {
      NoTicksNowhere(t, LastIndexOf(t, TICKS));
    }
  }

  // Blocks in a growing text.

  lemma TagStarts(u: string)
    requires TagAt(u, 0) && IndexFrom(u, WRAPPER, 0) < 0
    ensures IndexFrom(u, INVOKE, 0) == 0
  {
    assert !At(u, 0, WRAPPER);
  }

  /** What capturing decides is the turn of the reference's first block. */
  lemma {:induction false} ConsumeIsTurn(p: Parser, u: string)
    requires TagAt(u, 0)
    ensures Consume(p, u) ==
      if FirstBlock(u).None? then NotReady
      else var t := TurnOf(p, u, FirstBlock(u).value); Ready(t.shown, t.calls, t.rest)
  {
    hide TagAt, FindVisible, IndexFrom, At, Parser.Recognise, TrimFence;
    var o := IndexFrom(u, WRAPPER, 0);
    if o >= 0 {
      var c := FindVisible(u, WRAPPER_CLOSE, o + |WRAPPER|);
      AtInside(u, o, WRAPPER);
      if c >= 0 {
        AtInside(u, c, WRAPPER_CLOSE);
        assert u[..o] + u[o..c + |WRAPPER_CLOSE|] == u[..c + |WRAPPER_CLOSE|];
      }
    } else {
      TagStarts(u);
      var c := FindVisible(u, WRAPPER_CLOSE, 0);
      if c > 0 {
        AtInside(u, c, WRAPPER_CLOSE);
        assert u[..0] == "" && u[0..c] == u[..c] && "" + u[0..c + |WRAPPER_CLOSE|] == u[..c + |WRAPPER_CLOSE|];
      }
    }
  }

  lemma SlicesAgree(u: string, v: string, i: nat, j: nat)
    requires i <= j <= |u|
    ensures (u + v)[..i] == u[..i] && (u + v)[i..j] == u[i..j] && (u + v)[j..] == u[j..] + v
    ensures (u + v)[..j] == u[..j]
  {
  }

  /** A block that is complete stays the same block whatever text arrives later. */
  lemma {:induction false} BlockIsStable(u: string, v: string)
    requires FirstBlock(u).Some? && OpensFirst(u + v)
    ensures FirstBlock(u + v) == FirstBlock(u)
  {
    hide FindVisible, IndexFrom, At;
    var o := IndexFrom(u, WRAPPER, 0);
    var b := FirstBlock(u).value;
    if o >= 0 {
      IndexAppend(u, v, WRAPPER, 0);
      FindVisibleAppend(u, v, WRAPPER_CLOSE, o + |WRAPPER|);
      SlicesAgree(u, v, o, b.end);
    } else {
      var c := FindVisible(u, WRAPPER_CLOSE, 0);
      AtInside(u, c, WRAPPER_CLOSE);
      FindVisibleAppend(u, v, WRAPPER_CLOSE, 0);
      NoWrapperLater(u, v, c);
      SlicesAgree(u, v, 0, c);
    }
  }

  lemma NoWrapperLater(u: string, v: string, c: nat)
    requires IndexFrom(u, WRAPPER, 0) < 0 && c + |WRAPPER_CLOSE| <= |u|
    requires 0 < c == FindVisible(u + v, WRAPPER_CLOSE, 0) && OpensFirst(u + v)
    ensures IndexFrom(u + v, WRAPPER, 0) < 0
  {
    hide FindVisible;
    var o := IndexFrom(u + v, WRAPPER, 0);
    if o >= 0 {
      AtAppend(u, v, o, WRAPPER);
    }
  }

  /** A block of a longer text that ends within the text so far is complete already. */
  lemma {:induction false} BlockInPrefix(u: string, v: string)
    requires FirstBlock(u + v).Some? && FirstBlock(u + v).value.end <= |u|
    ensures FirstBlock(u) == FirstBlock(u + v)
  {
    hide FindVisible, IndexFrom, At;
    var w := u + v;
    var o := IndexFrom(w, WRAPPER, 0);
    var b := FirstBlock(w).value;
    if o >= 0 {
      var c := FindVisible(w, WRAPPER_CLOSE, o + |WRAPPER|);
      AtInside(w, o, WRAPPER);
      IndexInPrefix(u, v, WRAPPER, 0);
      FindVisibleInPrefix(u, v, WRAPPER_CLOSE, o + |WRAPPER|);
      SlicesAgree(u, v, o, b.end);
    } else {
      var c := FindVisible(w, WRAPPER_CLOSE, 0);
      if IndexFrom(u, WRAPPER, 0) >= 0 {
        IndexAppend(u, v, WRAPPER, 0);
      }
      FindVisibleInPrefix(u, v, WRAPPER_CLOSE, 0);
      SlicesAgree(u, v, 0, c);
    }
  }

  /** A block's turn is settled when no closing fence for it is still to come. */
  lemma {:induction false} TurnIsStable(p: Parser, u: string, v: string, b: Span)
    requires b.start < b.end <= |u|
    requires p.Recognise(b.parsed) != [] ==> Decided(u[..b.start], u[b.end..], v)
    ensures var t := TurnOf(p, u, b); TurnOf(p, u + v, b) == Turn(t.shown, t.calls, t.rest + v)
  {
    hide TrimFence, Parser.Recognise;
    SlicesAgree(u, v, b.start, b.end);
  }

  // Tags in a growing text.

  lemma TagShift(x: string, y: string, i: nat)
    ensures TagAt(x + y, |x| + i) == TagAt(y, i)
  {
    AtShift(x, y, i, WRAPPER);
    AtShift(x, y, i, INVOKE);
  }

  lemma {:induction false} SegmentSkips(g: Fence, s: string, i: nat, j: nat)
    requires i <= j <= |s| && forall k :: i <= k < j ==> !(TagAt(s, k) && !Inside(g, s[..k]))
    ensures SegmentStart(g, s, i) == SegmentStart(g, s, j)
    decreases j - i
  {
    hide TagAt, Inside;
    if i < j {
      SegmentSkips(g, s, i + 1, j);
    }
  }

  lemma {:induction false} SegmentShift(g: Fence, x: string, y: string, i: nat)
    requires i <= |y|
    ensures var r := SegmentStart(Feed(g, x), y, i);
      SegmentStart(g, x + y, |x| + i) == if r < 0 then -1 else |x| + r
    decreases |y| - i
  {
    hide TagAt, Feed;
    TagShift(x, y, i);
    assert (x + y)[..|x| + i] == x + y[..i];
    FeedSplit(g, x, y[..i]);
    if i < |y| {
      SegmentShift(g, x, y, i + 1);
    }
  }

  /** Text before every tag that counts is shown ahead of what follows it. */
  lemma {:induction false} ReplyReleases(p: Parser, g: Fence, x: string, y: string)
    requires forall k :: 0 <= k < |x| ==> !(TagAt(x + y, k) && !Inside(g, x[..k]))
    ensures Reply(p, g, x + y) == Then(x, [], Reply(p, Feed(g, x), y))
    ensures SteadyFor(p, g, x + y) == SteadyFor(p, Feed(g, x), y)
  {
    hide TagAt, After, SteadyBlock, SegmentStart, Inside, Feed;
    forall k | 0 <= k < |x| ensures !(TagAt(x + y, k) && !Inside(g, (x + y)[..k])) {
      assert (x + y)[..k] == x[..k];
    }
    SegmentSkips(g, x + y, 0, |x|);
    SegmentShift(g, x, y, 0);
    var k := SegmentStart(Feed(g, x), y, 0);
    if k >= 0 {
      assert (x + y)[..|x| + k] == x + y[..k] && (x + y)[|x| + k..] == y[k..];
      FeedSplit(g, x, y[..k]);
    }
  }

  lemma TagAppend(s: string, v: string, i: nat)
    ensures TagAt(s, i) ==> TagAt(s + v, i)
    ensures TagAt(s + v, i) && !TagAt(s, i) ==>
      || (At(s + v, i, WRAPPER) && |s| <= i + |WRAPPER|)
      || (At(s + v, i, INVOKE) && |s| <= i + |INVOKE|)
  {
    AtAppend(s, v, i, WRAPPER);
    AtAppend(s, v, i, INVOKE);
  }

  lemma TagBeforeTag(s: string, v: string, i: nat, j: nat)
    requires i < j && TagAt(s, j) && !TagAt(s, i)
    ensures !TagAt(s + v, i)
  {
    if TagAt(s + v, i) {
      var name := if At(s, j, WRAPPER) then WRAPPER else INVOKE;
      AtChar(s, j, name, 0);
      TagAppend(s, v, i);
      var other := if At(s + v, i, WRAPPER) then WRAPPER else INVOKE;
      AtChar(s + v, i, other, j - i);
    }
  }

  /** A tag found is found again when more text follows. */
  lemma {:induction false} SegmentAppend(g: Fence, s: string, v: string, i: nat)
    requires SegmentStart(g, s, i) >= 0
    ensures SegmentStart(g, s + v, i) == SegmentStart(g, s, i)
    decreases |s| - i
  {
    hide TagAt, Inside;
    TagAppend(s, v, i);
    assert (s + v)[..i] == s[..i];
    var j := SegmentStart(g, s, i);
    if i < j {
      if !TagAt(s, i) {
        TagBeforeTag(s, v, i, j);
      }
      SegmentAppend(g, s, v, i + 1);
    }
  }

  /** A tag that straddles the end of the text so far begins where the text is held back. */
  lemma StraddleIsHeld(s: string, v: string, i: nat)
    requires i < |s| && !TagAt(s, i) && TagAt(s + v, i)
    ensures PartialTag(s) == i
  {
    TagAppend(s, v, i);
    if At(s + v, i, WRAPPER) && |s| <= i + |WRAPPER| {
      HeldAt(s, v, i, WRAPPER);
    } else {
      HeldAt(s, v, i, INVOKE);
    }
  }

  lemma NameChar(s: string, v: string, i: nat, name: string, j: nat)
    requires name == WRAPPER || name == INVOKE
    requires i <= j < |s| <= i + |name| && At(s + v, i, name)
    ensures LowerChar(s[j]) == name[j - i] && s[j] != '>' && (s[j] == '<' <==> j == i)
  {
    AtChar(s + v, i, name, j - i);
    assert (s + v)[i + (j - i)] == s[j];
  }

  lemma HeldAt(s: string, v: string, i: nat, name: string)
    requires name == WRAPPER || name == INVOKE
    requires i < |s| <= i + |name| && At(s + v, i, name)
    ensures PartialTag(s) == i
  {
    var n := |s| - i;
    forall k | 0 <= k < n ensures LowerChar(s[i + k]) == name[..n][k] {
      NameChar(s, v, i, name, i + k);
    }
    assert At(s, i, name[..n]);
    NameChar(s, v, i, name, i);
    assert At(s, i, "<");
    forall j | i < j ensures !At(s, j, "<") {
      if At(s, j, "<") {
        AtChar(s, j, "<", 0);
        NameChar(s, v, i, name, j);
      }
    }
    assert LastIndexOf(s, "<") == i;
    forall j | i <= j < |s| ensures s[j] != '>' {
      NameChar(s, v, i, name, j);
    }
  }

  lemma ReplyAt(p: Parser, g: Fence, t: string, k: nat)
    requires SegmentStart(g, t, 0) == k
    ensures Reply(p, g, t) == Then(t[..k], [], After(p, Feed(g, t[..k]), t[k..]))
    ensures SteadyFor(p, g, t) == SteadyBlock(p, Feed(g, t[..k]), t[k..])
  {
    hide After, SteadyBlock, Feed;
  }

  /** Text up to a tag that is found: shown, and the tag's block follows. */
  lemma {:induction false} TagFoundRefines(p: Parser, g: Fence, s: string, v: string)
    requires SegmentStart(g, s, 0) >= 0
    ensures var k := SegmentStart(g, s, 0);
      && Reply(p, g, s + v) == Then(s[..k], [], After(p, Feed(g, s[..k]), s[k..] + v))
      && SteadyFor(p, g, s + v) == SteadyBlock(p, Feed(g, s[..k]), s[k..] + v)
      && TagAt(s[k..], 0)
  {
    hide After, SteadyBlock, Reply, SteadyFor, SegmentStart, TagAt, Inside, Feed;
    var k := SegmentStart(g, s, 0);
    SegmentAppend(g, s, v, 0);
    ReplyAt(p, g, s + v, k);
    SlicesAgree(s, v, k, |s|);
    assert (s + v)[k..] == s[k..] + v;
    TagShift(s[..k], s[k..], 0);
    assert s[..k] + s[k..] == s;
  }

  /** Text that is not held back contains nothing that later text could make a tag that counts. */
  lemma {:induction false} HeldRefines(p: Parser, g: Fence, s: string, v: string)
    requires SegmentStart(g, s, 0) < 0
    ensures var n := SafeLength(g, s);
      && Reply(p, g, s + v) == Then(s[..n], [], Reply(p, Feed(g, s[..n]), s[n..] + v))
      && SteadyFor(p, g, s + v) == SteadyFor(p, Feed(g, s[..n]), s[n..] + v)
  {
    hide TagAt, PartialTag, SegmentStart, Reply, SteadyFor, Inside, Feed;
    var n := SafeLength(g, s);
    var x, y := s[..n], s[n..] + v;
    assert s + v == x + y;
    SegmentStartIsFirst(g, s, 0);
    forall k | 0 <= k < |x| ensures !(TagAt(x + y, k) && !Inside(g, x[..k])) {
      assert x[..k] == s[..k];
      if TagAt(x + y, k) && !TagAt(s, k) {
        StraddleIsHeld(s, v, k);
      }
    }
    ReplyReleases(p, g, x, y);
  }
}
