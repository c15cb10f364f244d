/** Where a stream can be cut, and when no blank text between two such places is lost to the fence
    tracker: a condition on the text and the chunk boundaries. */
module SieveCuts {
  import opened Text
  import opened CodeFence
  import opened SieveModel
  import opened SieveRuns
  import opened SieveReference
  import opened SieveRefinement

  /** The tracker reads this text even if it is released alone. */
  predicate Heard(f: Fence, s: string) {
    Note(f, s) == Feed(f, s)
  }

  /** A place in the text `t` where a released piece may end: its beginning, the end of a chunk, the
      beginning of a tag that a chunk ends in, or a tag. Chunk ends are told by how much text is left
      behind them. */
  predicate CutAt(t: string, a: nat, ends: set<nat>) {
    a <= |t| &&
    (|| a == 0 || TagAt(t, a)
     || exists n :: n in ends && n <= |t| - a && (n == |t| - a || PartialTag(t[a..|t| - n]) == 0))
  }

  /** No text between two such places, up to `k`, is lost to the tracker. */
  predicate LevelTo(g: Fence, t: string, k: nat, ends: set<nat>)
    requires k <= |t|
  {
    forall a, b :: 0 <= a < b <= k && CutAt(t, a, ends) && CutAt(t, b, ends) ==> Heard(Feed(g, t[..a]), t[a..b])
  }

  /** The same for the whole text, as the reader goes through it. */
  predicate Level(p: Parser, g: Fence, t: string, ends: set<nat>)
    decreases |t|, 1
  {
    var k := SegmentStart(g, t, 0);
    if k < 0 then LevelTo(g, t, |t|, ends)
    else LevelTo(g, t, k, ends) && LevelBlock(p, Feed(g, t[..k]), t[k..], ends)
  }

  predicate LevelBlock(p: Parser, g: Fence, u: string, ends: set<nat>)
    decreases |u|, 0
  {
    match FirstBlock(u)
    case None => true
    case Some(b) => var t := TurnOf(p, u, b); Level(p, Feed(g, t.shown), t.rest, ends)
  }

  lemma PartialTail(s: string)
    requires PartialTag(s) >= 0
    ensures PartialTag(s[PartialTag(s)..]) == 0
  {
    hide At, LastIndexOf;
    var k := PartialTag(s);
    var n := |s| - k;
    assert s == s[..k] + s[k..] && s[k..][0..] == s[k..];
    AtShift(s[..k], s[k..], 0, "<");
    forall j | 0 < j ensures !At(s[k..], j, "<") {
      AtShift(s[..k], s[k..], j, "<");
    }
    var m := LastIndexOf(s[k..], "<");
    assert m == 0;
    if n <= |WRAPPER| {
      AtShift(s[..k], s[k..], 0, WRAPPER[..n]);
    }
    if n <= |INVOKE| {
      AtShift(s[..k], s[k..], 0, INVOKE[..n]);
    }
  }

  lemma LevelHere(g: Fence, t: string, k: nat, ends: set<nat>, b: nat)
    requires k <= |t| && LevelTo(g, t, k, ends) && 0 < b <= k && CutAt(t, b, ends)
    ensures Heard(g, t[..b])
  {
    hide TagAt, PartialTag, Feed, Heard;
    assert CutAt(t, 0, ends);
    assert Heard(Feed(g, t[..0]), t[0..b]);
    assert t[..0] == "" && t[0..b] == t[..b];
    FedNothing(g);
  }

  /** A place in the rest of a text is one in the text. */
  lemma CutShift(x: string, y: string, a: nat, ends: set<nat>)
    requires CutAt(y, a, ends) && CutAt(x + y, |x|, ends)
    ensures CutAt(x + y, |x| + a, ends)
  {
    hide TagAt, PartialTag;
    TagShift(x, y, a);
    if a > 0 && !TagAt(y, a) {
      var n :| n in ends && n <= |y| - a && (n == |y| - a || PartialTag(y[a..|y| - n]) == 0);
      assert (x + y)[|x| + a..|x + y| - n] == y[a..|y| - n];
    }
  }

  lemma {:induction false} LevelToShift(g: Fence, x: string, y: string, k: nat, ends: set<nat>)
    requires |x| <= k <= |x + y| && LevelTo(g, x + y, k, ends) && CutAt(x + y, |x|, ends)
    ensures LevelTo(Feed(g, x), y, k - |x|, ends)
  {
    hide CutAt, Feed, Heard;
    forall a, b | 0 <= a < b <= k - |x| && CutAt(y, a, ends) && CutAt(y, b, ends)
      ensures Heard(Feed(Feed(g, x), y[..a]), y[a..b])
    {
      CutShift(x, y, a, ends);
      CutShift(x, y, b, ends);
      assert Heard(Feed(g, (x + y)[..|x| + a]), (x + y)[|x| + a..|x| + b]);
      assert (x + y)[..|x| + a] == x + y[..a] && (x + y)[|x| + a..|x| + b] == y[a..b];
      FeedSplit(g, x, y[..a]);
    }
  }

  /** What is level stays level behind a place where a piece ends. */
  lemma {:induction false} LevelShift(p: Parser, g: Fence, x: string, y: string, ends: set<nat>)
    requires forall k :: 0 <= k < |x| ==> !(TagAt(x + y, k) && !Inside(g, x[..k]))
    requires Level(p, g, x + y, ends) && CutAt(x + y, |x|, ends)
    ensures Level(p, Feed(g, x), y, ends)
  {
    hide TagAt, LevelBlock, LevelTo, SegmentStart, Inside, Feed, CutAt;
    forall k | 0 <= k < |x| ensures !(TagAt(x + y, k) && !Inside(g, (x + y)[..k])) {
      assert (x + y)[..k] == x[..k];
    }
    SegmentSkips(g, x + y, 0, |x|);
    SegmentShift(g, x, y, 0);
    var k := SegmentStart(Feed(g, x), y, 0);
    if k >= 0 {
      assert (x + y)[..|x| + k] == x + y[..k] && (x + y)[|x| + k..] == y[k..];
      FeedSplit(g, x, y[..k]);
      LevelToShift(g, x, y, |x| + k, ends);
    } else {
      LevelToShift(g, x, y, |x + y|, ends);
    }
  }

  // Every piece of a drain is heard.

  predicate LevelAhead(p: Parser, g: Fence, st: State, v: string, ends: set<nat>) {
    if st.capturing then LevelBlock(p, g, st.capture + st.pending + v, ends) else Level(p, g, st.pending + v, ends)
  }

  lemma {:induction false} TagLevel(p: Parser, g: Fence, s: string, v: string, ends: set<nat>)
    requires SegmentStart(g, s, 0) >= 0 && Level(p, g, s + v, ends)
    ensures var k := SegmentStart(g, s, 0);
      Heard(g, s[..k]) && LevelBlock(p, Feed(g, s[..k]), s[k..] + v, ends)
  {
    hide TagAt, LevelBlock, LevelTo, Inside, Feed, Heard, CutAt;
    var k := SegmentStart(g, s, 0);
    SegmentAppend(g, s, v, 0);
    assert (s + v)[..k] == s[..k] && (s + v)[k..] == s[k..] + v;
    TagIsCut(s + v, k, ends);
    if k == 0 {
      assert s[..k] == "";
      NothingHeard(g);
    } else {
      LevelHere(g, s + v, k, ends, k);
    }
  }

  lemma TagIsCut(t: string, k: nat, ends: set<nat>)
    requires k <= |t| && TagAt(t, k)
    ensures CutAt(t, k, ends)
  {
    hide TagAt;
  }

  lemma NothingHeard(g: Fence)
    ensures Heard(g, "")
  {
    EmptyTrims();
  }

  /** What a chunk lets be released ends at a cut. */
  lemma SafeIsCut(g: Fence, s: string, v: string, ends: set<nat>)
    requires |v| in ends
    ensures CutAt(s + v, SafeLength(g, s), ends)
  {
    hide TagAt, Inside, PartialTag;
    var n := SafeLength(g, s);
    if n < |s| {
      PartialTail(s);
      assert (s + v)[n..|s + v| - |v|] == s[n..];
    }
  }

  lemma {:induction false} HeldLevel(p: Parser, g: Fence, s: string, v: string, ends: set<nat>)
    requires SegmentStart(g, s, 0) < 0 && Level(p, g, s + v, ends) && |v| in ends
    ensures var n := SafeLength(g, s);
      Heard(g, s[..n]) && Level(p, Feed(g, s[..n]), s[n..] + v, ends)
  {
    hide TagAt, PartialTag, SegmentStart, LevelBlock, LevelTo, Inside, Feed, Heard, CutAt;
    var n := SafeLength(g, s);
    var x, y := s[..n], s[n..] + v;
    assert s + v == x + y;
    SegmentStartIsFirst(g, s, 0);
    forall k | 0 <= k < |x| ensures !(TagAt(x + y, k) && !Inside(g, x[..k])) {
      assert x[..k] == s[..k];
      if TagAt(x + y, k) && !TagAt(s, k) {
        StraddleIsHeld(s, v, k);
      }
    }
    SafeIsCut(g, s, v, ends);
    LevelShift(p, g, x, y, ends);
    if n == 0 {
      assert x == "";
      NothingHeard(g);
    } else {
      NoneBefore(g, x, y);
      var k := SegmentStart(g, s + v, 0);
      LevelHere(g, s + v, if k < 0 then |s + v| else k, ends, n);
      assert (s + v)[..n] == x;
    }
  }

  lemma {:induction false} NoneBefore(g: Fence, x: string, y: string)
    requires forall k :: 0 <= k < |x| ==> !(TagAt(x + y, k) && !Inside(g, x[..k]))
    ensures var k := SegmentStart(g, x + y, 0); k < 0 || k >= |x|
  {
    hide TagAt, Inside;
    forall k | 0 <= k < |x| ensures !(TagAt(x + y, k) && !Inside(g, (x + y)[..k])) {
      assert (x + y)[..k] == x[..k];
    }
    SegmentSkips(g, x + y, 0, |x|);
  }

  lemma TagStarts(u: string)
    requires TagAt(u, 0)
    ensures u != "" && u[0] == '<'
  {
    AtChar(u, 0, if WrapperAt(u, 0) then WRAPPER else INVOKE, 0);
  }

  lemma StartIsSolid(s: string)
    requires s != "" && s[0] == '<'
    ensures TrimSpace(s) != ""
  {
    hide TrimSpace;
    TrimsToNothing(s);
  }

  /** What a turn shows is empty or starts with the tag, so it is read. */
  lemma {:induction false} TurnIsHeard(p: Parser, g: Fence, u: string, b: Span)
    requires TagAt(u, 0) && b.start < b.end <= |u|
    ensures Heard(g, TurnOf(p, u, b).shown)
  {
    hide TrimSpace, Feed, Parser.Recognise, TrimFence;
    TagStarts(u);
    TrimmedIsStart(u[..b.start], u[b.end..]);
    var s := TurnOf(p, u, b).shown;
    assert s <= u;
    if s == "" {
      NothingHeard(g);
    } else {
      StartIsSolid(s);
    }
  }

  lemma TrimmedIsStart(before: string, after: string)
    ensures TrimFence(before, after).0 <= before
  {
    hide CountTicks, JsonHeader, TrimSpace, LastIndexOf;
    TrimRightSplit(before, LINE_SPACES);
    var t := TrimRight(before, LINE_SPACES);
    assert t == before[..|t|];
  }

  lemma {:induction false} CaptureLevel(p: Parser, g: Fence, st: State, v: string, ends: set<nat>)
    requires st.capturing && TagAt(st.capture, 0) && SteadyAhead(p, g, st, v) && LevelAhead(p, g, st, v, ends)
    requires Undivided(ToShow(p, g, st, v).hits, |v|) && Consume(p, st.capture + st.pending).Ready?
    ensures var r := Consume(p, st.capture + st.pending);
      Heard(g, r.prefix) && Level(p, Feed(g, r.prefix), r.suffix + v, ends)
  {
    hide Consume, Note, FirstBlock, Reply, SteadyFor, TagAt, Feed, OpensFirst, TurnOf, Undivided, Level, Heard;
    var u := st.capture + st.pending;
    TagAppend(st.capture, st.pending, 0);
    ConsumeIsTurn(p, u);
    if v == "" {
      assert u + v == u;
    } else {
      BlockIsStable(u, v);
    }
    var b := FirstBlock(u).value;
    FirstIsDecided(p, g, u, v, b);
    TurnIsStable(p, u, v, b);
    TurnIsHeard(p, g, u, b);
  }

  /** The sieve and the reader after one turn. */
  lemma NextFollows(p: Parser, g: Fence, st: State, text: string, first: seq<Hit>, next: State, v: string)
    requires Follows(true, p, g, st, v) && Advances(p, g, st, v, text, first, next)
    requires if next.capturing then TagAt(next.capture, 0) else next.capture == ""
    requires next.fence == Note(st.fence, text) && Heard(g, text)
    ensures Follows(true, p, Feed(g, text), next, v)
  {
    hide ToShow, SteadyAhead, TagAt, Undivided, Note, Feed;
    LaterUndivided(first, ToShow(p, Feed(g, text), next, v).hits, |v|);
  }

  /** One turn is heard, and the rest of the drain. */
  lemma {:induction false} HeardOn(p: Parser, g: Fence, st: State, text: string, next: State)
    requires st.fence == g && Heard(g, text) && next.fence == Note(g, text)
    requires Drain(p, st).1 == Text1(text) + Drain(p, next).1
    requires AllHeard(next.fence, Drain(p, next).1)
    ensures AllHeard(st.fence, Drain(p, st).1)
  {
    hide Drain, AllHeard, Noted, Note, Feed;
    NotedSplit(g, Text1(text), Drain(p, next).1);
    NotedOne(g, text, []);
  }

  /** If nothing is lost between the places where pieces may end, a drain loses nothing, and nothing
      is lost in what is left. */
  lemma {:induction false} DrainIsHeard(p: Parser, g: Fence, st: State, v: string, ends: set<nat>)
    requires Follows(true, p, g, st, v) && LevelAhead(p, g, st, v, ends) && |v| in ends
    ensures AllHeard(st.fence, Drain(p, st).1)
    ensures LevelAhead(p, Feed(g, TextOf(Drain(p, st).1)), Drain(p, st).0, v, ends)
    decreases |st.pending| + |st.capture|, !st.capturing
  {
    hide Consume, Note, SegmentStart, SafeLength, ToShow, SteadyAhead, TagAt, Feed, Undivided, AllHeard, TextOf;
    hide Level, LevelBlock, Heard;
    var s := st.pending;
    FedNothing(g);
    NoEvents();
    if st.capturing {
      var r := Consume(p, st.capture + s);
      if r.Ready? {
        var first := CaptureTurn(p, g, st, v);
        CaptureLevel(p, g, st, v, ends);
        var next := State(r.suffix, "", false, Note(st.fence, r.prefix), if r.calls != [] then r.calls else st.waiting);
        NextFollows(p, g, st, r.prefix, first, next, v);
        DrainIsHeard(p, Feed(g, r.prefix), next, v, ends);
        HeardOn(p, g, st, r.prefix, next);
        TextsOn(p, g, st, r.prefix, next);
      } else {
        assert (st.capture + s) + "" + v == st.capture + s + v;
      }
    } else if s != "" {
      PendingView(true, p, g, st, v);
      var k := SegmentStart(st.fence, s, 0);
      if k >= 0 {
        TagTurn(p, g, st, v);
        TagLevel(p, g, s, v, ends);
        var next := State("", st.capture + s[k..], true, Note(st.fence, s[..k]), st.waiting);
        NextFollows(p, g, st, s[..k], [], next, v);
        assert next.capture + next.pending + v == s[k..] + v;
        DrainIsHeard(p, Feed(g, s[..k]), next, v, ends);
        HeardOn(p, g, st, s[..k], next);
        TextsOn(p, g, st, s[..k], next);
      } else {
        var n := SafeLength(st.fence, s);
        if n > 0 {
          HeldTurn(p, g, st, v);
          HeldLevel(p, g, s, v, ends);
          var next := st.(pending := s[n..], fence := Note(st.fence, s[..n]));
          NextFollows(p, g, st, s[..n], [], next, v);
          DrainIsHeard(p, Feed(g, s[..n]), next, v, ends);
          HeardOn(p, g, st, s[..n], next);
          TextsOn(p, g, st, s[..n], next);
        }
      }
    }
  }

  lemma NoEvents()
    ensures TextOf([]) == "" && forall f :: AllHeard(f, [])
  {
  }

  lemma {:induction false} TextsOn(p: Parser, g: Fence, st: State, text: string, next: State)
    requires Drain(p, st).1 == Text1(text) + Drain(p, next).1
    ensures Feed(g, TextOf(Drain(p, st).1)) == Feed(Feed(g, text), TextOf(Drain(p, next).1))
  {
    hide Drain, TextOf, Feed;
    TextOfAppend(Text1(text), Drain(p, next).1);
    EventTexts([], text);
    FeedSplit(g, text, TextOf(Drain(p, next).1));
  }
}
