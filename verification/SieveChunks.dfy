/** Whole streams against the reference: what is shown, which calls are delivered, and when neither
    depends on the chunks. */
module SieveChunks {
  import opened Text
  import opened CodeFence
  import opened SieveModel
  import opened SieveConservation
  import opened SieveRuns
  import opened SieveReference
  import opened SieveRefinement
  import opened SieveCuts

  // The hits of a reply.

  /** Hits come one after the other, each in what is left after the one before. */
  predicate Descending(hits: seq<Hit>, bound: nat) {
    && (forall i :: 0 <= i < |hits| ==> hits[i].tail <= hits[i].left < bound)
    && (forall i, j :: 0 <= i < j < |hits| ==> hits[j].left < hits[i].tail)
  }

  lemma DescendingCons(h: Hit, rest: seq<Hit>, bound: nat)
    requires h.tail <= h.left < bound && Descending(rest, h.tail)
    ensures Descending([h] + rest, bound)
  {
  }

  lemma DescendingGrows(hits: seq<Hit>, a: nat, b: nat)
    requires Descending(hits, a) && a <= b
    ensures Descending(hits, b)
  {
  }

  lemma {:induction false} ReplyDescends(p: Parser, g: Fence, t: string)
    ensures Descending(Reply(p, g, t).hits, |t|)
    decreases |t|, 1
  {
    hide SegmentStart, Feed, After;
    var k := SegmentStart(g, t, 0);
    if k >= 0 {
      AfterDescends(p, Feed(g, t[..k]), t[k..]);
      DescendingGrows(After(p, Feed(g, t[..k]), t[k..]).hits, |t| - k, |t|);
      assert [] + After(p, Feed(g, t[..k]), t[k..]).hits == After(p, Feed(g, t[..k]), t[k..]).hits;
    }
  }

  lemma {:induction false} AfterDescends(p: Parser, g: Fence, u: string)
    ensures Descending(After(p, g, u).hits, |u|)
    ensures FirstBlock(u).Some? ==> Descending(After(p, g, u).hits, |u| - FirstBlock(u).value.end + 1)
    decreases |u|, 0
  {
    hide FirstBlock, Feed, Reply, TurnOf, Descending, HitsOf;
    if FirstBlock(u).Some? {
      var b := FirstBlock(u).value;
      var t := TurnOf(p, u, b);
      ReplyDescends(p, Feed(g, t.shown), t.rest);
      TurnDescends(u, b, t, Reply(p, Feed(g, t.shown), t.rest).hits);
      DescendingGrows(After(p, g, u).hits, |u| - b.end + 1, |u|);
    } else {
      NoHits(|u|);
    }
  }

  lemma TurnDescends(u: string, b: Span, t: Turn, rest: seq<Hit>)
    requires b.end <= |u| && |t.rest| <= |u| - b.end && Descending(rest, |t.rest|)
    ensures Descending(HitsOf(u, b, t) + rest, |u| - b.end + 1)
  {
    hide Descending;
    if t.calls == [] {
      assert [] + rest == rest;
      DescendingGrows(rest, |t.rest|, |u| - b.end + 1);
    } else {
      DescendingCons(Hit(t.calls, |u| - b.end, |t.rest|), rest, |u| - b.end + 1);
    }
  }

  lemma NoHits(bound: nat)
    ensures Descending([], bound)
  {
  }

  /** In text without back-ticks nothing is trimmed. */
  predicate Untrimmed(hits: seq<Hit>) {
    forall i :: 0 <= i < |hits| ==> hits[i].tail == hits[i].left
  }

  lemma UntrimmedTurn(p: Parser, u: string, b: Span)
    requires NoTicks(u) && b.start < b.end <= |u|
    ensures var t := TurnOf(p, u, b);
      NoTicks(t.shown) && NoTicks(t.rest) && t.rest == u[b.end..] && Untrimmed(HitsOf(u, b, t))
    ensures TurnOf(p, u, b).shown == if p.Recognise(b.parsed) != [] then u[..b.start] else u[..b.end]
  {
    hide OpensFence, ClosesFence, TrimFence, Parser.Recognise;
    NoTicksNoFence(u[..b.start]);
    TrimsBoth(u[..b.start], u[b.end..]);
  }

  lemma {:induction false} TickFreeReply(p: Parser, g: Fence, t: string)
    requires NoTicks(t)
    ensures Untrimmed(Reply(p, g, t).hits)
    decreases |t|, 1
  {
    hide SegmentStart, Feed, After;
    var k := SegmentStart(g, t, 0);
    if k >= 0 {
      TickFreeAfter(p, Feed(g, t[..k]), t[k..]);
    }
  }

  lemma {:induction false} TickFreeAfter(p: Parser, g: Fence, u: string)
    requires NoTicks(u)
    ensures Untrimmed(After(p, g, u).hits)
    decreases |u|, 0
  {
    hide FirstBlock, Feed, Reply, TurnOf;
    if FirstBlock(u).Some? {
      var b := FirstBlock(u).value;
      var t := TurnOf(p, u, b);
      UntrimmedTurn(p, u, b);
      TickFreeReply(p, Feed(g, t.shown), t.rest);
    }
  }

  // Hits by chunks.

  /** How many hits, from the first on, end with at least `n` characters left. */
  function Count(hits: seq<Hit>, n: nat): (c: nat)
    ensures c <= |hits|
  {
    if hits == [] || hits[0].left < n then 0 else 1 + Count(hits[1..], n)
  }

  /** The calls of the hits, by the chunk that holds each one's last character. */
  function PerChunk(hits: seq<Hit>, chunks: seq<string>): seq<seq<seq<ToolCall>>>
    decreases |chunks|
  {
    if chunks == [] then []
    else
      var c := Count(hits, |Concat(chunks[1..])|);
      [CallsOf(hits[..c])] + PerChunk(hits[c..], chunks[1..])
  }

  lemma {:induction false} CountIs(first: seq<Hit>, rest: seq<Hit>, n: nat)
    requires forall i :: 0 <= i < |first| ==> first[i].left >= n
    requires forall i :: 0 <= i < |rest| ==> rest[i].left < n
    ensures Count(first + rest, n) == |first|
  {
    if first == [] {
      assert first + rest == rest;
    } else {
      assert (first + rest)[1..] == first[1..] + rest;
      CountIs(first[1..], rest, n);
    }
  }

  lemma {:induction false} CountSplits(hits: seq<Hit>, n: nat, bound: nat)
    requires Descending(hits, bound)
    ensures forall i :: 0 <= i < |hits| ==> (i < Count(hits, n) <==> hits[i].left >= n)
  {
    if hits != [] {
      assert forall i :: 0 < i < |hits| ==> hits[i] == hits[1..][i - 1];
      assert forall i :: 0 <= i < |hits| - 1 ==> hits[1..][i] == hits[i + 1];
      if hits[0].left >= n {
        CountSplits(hits[1..], n, bound);
      }
    }
  }

  lemma {:induction false} FlatPerChunk(hits: seq<Hit>, chunks: seq<string>)
    requires Descending(hits, |Concat(chunks)|)
    ensures Flat(PerChunk(hits, chunks)) == CallsOf(hits) && |PerChunk(hits, chunks)| == |chunks|
    decreases |chunks|
  {
    if chunks != [] {
      var n := |Concat(chunks[1..])|;
      var c := Count(hits, n);
      CountSplits(hits, n, |Concat(chunks)|);
      LateDescends(hits, c, |Concat(chunks)|, n);
      FlatPerChunk(hits[c..], chunks[1..]);
      assert hits == hits[..c] + hits[c..];
      CallsOfJoin(hits[..c], hits[c..]);
      assert PerChunk(hits, chunks)[1..] == PerChunk(hits[c..], chunks[1..]);
    }
  }

  lemma LateDescends(hits: seq<Hit>, c: nat, bound: nat, n: nat)
    requires Descending(hits, bound) && c <= |hits| && forall i :: c <= i < |hits| ==> hits[i].left < n
    ensures Descending(hits[c..], n)
  {
    assert forall i :: 0 <= i < |hits| - c ==> hits[c..][i] == hits[c + i];
  }

  /** Chunk `m` holds the last character of the block. */
  predicate HoldsEnd(chunks: seq<string>, m: nat, h: Hit) {
    m < |chunks| && |Concat(chunks[m + 1..])| <= h.left < |Concat(chunks[m..])|
  }

  predicate EndTogether(chunks: seq<string>, hits: seq<Hit>, m: nat, i: nat, j: nat) {
    i < j < |hits| && HoldsEnd(chunks, m, hits[i]) && HoldsEnd(chunks, m, hits[j])
  }

  /** No chunk holds the last characters of two recognised blocks. */
  ghost predicate EndAlone(chunks: seq<string>, hits: seq<Hit>) {
    forall m: nat, i: nat, j: nat :: !EndTogether(chunks, hits, m, i, j)
  }

  predicate Singles(xss: seq<seq<seq<ToolCall>>>) {
    forall i :: 0 <= i < |xss| ==> |xss[i]| <= 1
  }

  lemma {:induction false} SinglesIff(hits: seq<Hit>, chunks: seq<string>)
    requires Descending(hits, |Concat(chunks)|)
    ensures Singles(PerChunk(hits, chunks)) <==> EndAlone(chunks, hits)
    decreases |chunks|
  {
    hide Descending, PerChunk, Singles, HoldsEnd;
    if chunks == [] {
      NoChunks(hits);
    } else {
      var n := |Concat(chunks[1..])|;
      var c := Count(hits, n);
      CountSplits(hits, n, |Concat(chunks)|);
      LateDescends(hits, c, |Concat(chunks)|, n);
      SinglesIff(hits[c..], chunks[1..]);
      PerChunkCons(hits, chunks);
      if c >= 2 {
        FirstTwo(hits, chunks, c);
      } else {
        AloneLater(hits, chunks, c);
      }
    }
  }

  lemma NoChunks(hits: seq<Hit>)
    ensures Singles(PerChunk(hits, [])) && EndAlone([], hits)
  {
  }

  lemma PerChunkCons(hits: seq<Hit>, chunks: seq<string>)
    requires chunks != []
    ensures var c := Count(hits, |Concat(chunks[1..])|);
      Singles(PerChunk(hits, chunks)) <==> c <= 1 && Singles(PerChunk(hits[c..], chunks[1..]))
  {
    var c := Count(hits, |Concat(chunks[1..])|);
    var later := PerChunk(hits[c..], chunks[1..]);
    var all := PerChunk(hits, chunks);
    assert all[0] == CallsOf(hits[..c]) && forall i :: 0 <= i < |later| ==> all[i + 1] == later[i];
    assert forall i :: 0 < i < |all| ==> all[i] == later[i - 1];
  }

  lemma FirstTwo(hits: seq<Hit>, chunks: seq<string>, c: nat)
    requires chunks != [] && Descending(hits, |Concat(chunks)|) && 2 <= c <= |hits|
    requires forall i :: 0 <= i < c ==> hits[i].left >= |Concat(chunks[1..])|
    ensures !EndAlone(chunks, hits)
  {
    assert chunks[0..] == chunks;
    assert EndTogether(chunks, hits, 0, 0, 1);
  }

  lemma AloneLater(hits: seq<Hit>, chunks: seq<string>, c: nat)
    requires chunks != [] && Descending(hits, |Concat(chunks)|) && c <= 1 && c <= |hits|
    requires forall i :: 0 <= i < |hits| ==> (i < c <==> hits[i].left >= |Concat(chunks[1..])|)
    ensures EndAlone(chunks, hits) <==> EndAlone(chunks[1..], hits[c..])
  {
    hide Descending, Concat, EndTogether;
    if !EndAlone(chunks[1..], hits[c..]) {
      var m: nat, i: nat, j: nat :| EndTogether(chunks[1..], hits[c..], m, i, j);
      TogetherLater(chunks, hits, c, m, i, j);
    }
    if !EndAlone(chunks, hits) {
      var m: nat, i: nat, j: nat :| EndTogether(chunks, hits, m, i, j);
      NotInFirst(chunks, hits, c, m, i, j);
      TogetherLater(chunks, hits, c, m - 1, i - c, j - c);
    }
  }

  lemma TogetherLater(chunks: seq<string>, hits: seq<Hit>, c: nat, m: nat, i: nat, j: nat)
    requires chunks != [] && c <= |hits|
    ensures EndTogether(chunks[1..], hits[c..], m, i, j) == EndTogether(chunks, hits, m + 1, c + i, c + j)
  {
    hide HoldsEnd;
    if i < j < |hits| - c {
      LaterChunk(chunks, m, hits[c + i]);
      LaterChunk(chunks, m, hits[c + j]);
      assert hits[c..][i] == hits[c + i] && hits[c..][j] == hits[c + j];
    }
  }

  lemma NotInFirst(chunks: seq<string>, hits: seq<Hit>, c: nat, m: nat, i: nat, j: nat)
    requires chunks != [] && c <= 1 && c <= |hits| && EndTogether(chunks, hits, m, i, j)
    requires forall i :: 0 <= i < |hits| ==> (i < c <==> hits[i].left >= |Concat(chunks[1..])|)
    ensures m > 0 && c <= i < j
  {
    hide Concat;
    if m > 0 {
      RestShrinks(chunks, m);
    }
  }

  lemma LaterChunk(chunks: seq<string>, m: nat, h: Hit)
    requires chunks != []
    ensures HoldsEnd(chunks[1..], m, h) == HoldsEnd(chunks, m + 1, h)
  {
    if m + 1 < |chunks| {
      assert chunks[1..][m..] == chunks[m + 1..] && chunks[1..][m + 1..] == chunks[m + 2..];
    }
  }

  lemma {:induction false} RestShrinks(chunks: seq<string>, m: nat)
    requires 0 < m <= |chunks|
    ensures |Concat(chunks[m..])| <= |Concat(chunks[1..])|
    decreases m
  {
    if m > 1 {
      RestShrinks(chunks, m - 1);
      assert chunks[m - 1..][1..] == chunks[m..];
    }
  }

  // Runs.

  /** No chunk boundary divides a removed block from its closing fence. */
  ghost predicate Apart(chunks: seq<string>, hits: seq<Hit>) {
    forall m: nat :: m <= |chunks| ==> Undivided(hits, |Concat(chunks[m..])|)
  }

  lemma ApartLater(chunks: seq<string>, first: seq<Hit>, rest: seq<Hit>)
    requires chunks != [] && Apart(chunks, first + rest)
    ensures Apart(chunks[1..], rest)
  {
    hide Concat, Undivided;
    forall m: nat | m <= |chunks[1..]| ensures Undivided(rest, |Concat(chunks[1..][m..])|) {
      assert chunks[1..][m..] == chunks[m + 1..];
      LaterUndivided(first, rest, |Concat(chunks[m + 1..])|);
    }
  }

  lemma ApartHere(chunks: seq<string>, m: nat, hits: seq<Hit>)
    requires Apart(chunks, hits) && m <= |chunks|
    ensures Undivided(hits, |Concat(chunks[m..])|)
  {
  }

  /** What a settled state holds back completes no block without more text. */
  lemma {:induction false} SettledHits(strict: bool, p: Parser, g: Fence, st: State, v: string)
    requires Settled(p, st) && Follows(strict, p, g, st, v)
    ensures Descending(ToShow(p, g, st, v).hits, |v|)
    ensures v == "" ==> ToShow(p, g, st, v) == Shown(Buffered(st), [])
  {
    hide SafeLength, SegmentStart, SteadyFor, SteadyBlock, Undivided, Tracks, After, Reply, Consume, TagAt, Feed;
    hide Descending;
    if st.capturing {
      assert st.capture + "" == st.capture;
      CapturedHits(p, g, st.capture, v);
    } else {
      PendingView(strict, p, g, st, v);
      PendingHits(p, g, st.pending, v);
      assert "" + st.pending == st.pending;
    }
  }

  lemma {:induction false} CapturedHits(p: Parser, g: Fence, u: string, v: string)
    requires TagAt(u, 0) && Consume(p, u).NotReady?
    ensures Descending(After(p, g, u + v).hits, |v|)
    ensures v == "" ==> After(p, g, u + v) == Shown(u, [])
  {
    hide FirstBlock, Reply, Feed, TagAt, Consume, TurnOf;
    ConsumeIsTurn(p, u);
    assert FirstBlock(u).None?;
    AfterDescends(p, g, u + v);
    if FirstBlock(u + v).Some? {
      if FirstBlock(u + v).value.end <= |u| {
        BlockInPrefix(u, v);
      }
      DescendingGrows(After(p, g, u + v).hits, |u + v| - FirstBlock(u + v).value.end + 1, |v|);
    }
    if v == "" {
      assert u + v == u;
    }
  }

  lemma {:induction false} PendingHits(p: Parser, g: Fence, s: string, v: string)
    requires s == "" || (SegmentStart(g, s, 0) < 0 && SafeLength(g, s) == 0)
    ensures Descending(Reply(p, g, s + v).hits, |v|)
    ensures v == "" ==> Reply(p, g, s + v) == Shown(s, [])
  {
    hide After, TagAt, Inside, SafeLength, Feed, Descending;
    var t := s + v;
    var k := SegmentStart(g, t, 0);
    if s == "" {
      assert t == v;
      ReplyDescends(p, g, v);
    } else if k < 0 {
      NoHits(|v|);
    } else {
      var x, u := Feed(g, t[..k]), t[k..];
      assert Reply(p, g, t).hits == [] + After(p, x, u).hits == After(p, x, u).hits;
      if k >= |s| {
        AfterDescends(p, x, u);
        DescendingGrows(After(p, x, u).hits, |t| - k, |v|);
      } else {
        HeldIsPartial(g, s, v, k);
        LongAfter(p, x, u, |v|);
      }
    }
    if v == "" {
      assert t == s;
    }
  }

  lemma {:induction false} LongAfter(p: Parser, g: Fence, u: string, n: nat)
    requires |u| <= |WRAPPER| + n
    ensures Descending(After(p, g, u).hits, n)
  {
    hide After, FirstBlock, Descending;
    AfterDescends(p, g, u);
    if FirstBlock(u).Some? {
      BlockIsLong(u);
      DescendingGrows(After(p, g, u).hits, |u| - FirstBlock(u).value.end + 1, n);
    } else {
      NoBlockNoHits(p, g, u);
      NoHits(n);
    }
  }

  lemma NoBlockNoHits(p: Parser, g: Fence, u: string)
    requires FirstBlock(u).None?
    ensures After(p, g, u).hits == []
  {
  }

  lemma BlockIsLong(u: string)
    requires FirstBlock(u).Some?
    ensures FirstBlock(u).value.end > |WRAPPER|
  {
    hide FindVisible, IndexFrom;
  }

  /** A tag that starts in held-back text is the whole of it so far. */
  lemma HeldIsPartial(g: Fence, s: string, v: string, k: nat)
    requires SegmentStart(g, s, 0) < 0 && SafeLength(g, s) == 0 && k < |s|
    requires TagAt(s + v, k) && !Inside(g, (s + v)[..k])
    ensures k == 0 && |s| <= |WRAPPER|
  {
    hide SegmentStart, TagAt, Inside, LastIndexOf;
    SegmentStartIsFirst(g, s, 0);
    assert (s + v)[..k] == s[..k];
    StraddleIsHeld(s, v, k);
  }

  /** Over a run, what is shown is the reference's text as far as it can be decided, and each chunk
      recognises the blocks whose last character it holds. */
  lemma {:induction false} RunRefines(strict: bool, p: Parser, g: Fence, st: State, chunks: seq<string>)
    returns (hits: seq<Hit>)
    requires Settled(p, st) && Follows(strict, p, g, st, Concat(chunks))
    requires Apart(chunks, ToShow(p, g, st, Concat(chunks)).hits)
    requires strict ==> AllHeard(st.fence, Run(p, st, chunks).1)
    ensures var st', es := Run(p, st, chunks).0, Run(p, st, chunks).1;
      var g' := Feed(g, TextOf(es));
      && Settled(p, st') && Follows(strict, p, g', st', "")
      && ToShow(p, g, st, Concat(chunks)) == Then(TextOf(es), hits, ToShow(p, g', st', ""))
      && RecognisedPerChunk(p, st, chunks) == PerChunk(hits, chunks)
      && forall i :: 0 <= i < |hits| ==> hits[i].left < |Concat(chunks)|
    decreases |chunks|
  {
    hide Drain, Recognised, ToShow, Follows, AllHeard, TextOf, Feed, Settled, Apart, PerChunk, Descending, CallsOf;
    hits := [];
    if chunks == [] {
      NothingRun(p, g, st);
      ThenNothing(ToShow(p, g, st, ""));
    } else {
      var v := Concat(chunks[1..]);
      var fed := st.(pending := st.pending + chunks[0], waiting := []);
      SettledHits(strict, p, g, st, Concat(chunks));
      ChunkFed(strict, p, g, st, chunks);
      RunHeard(p, st, chunks);
      var first := DrainRefines(strict, p, g, fed, v);
      DrainSettles(p, fed);
      var st1 := Drain(p, fed).0;
      var text := TextOf(Drain(p, fed).1);
      var g1 := Feed(g, text);
      SettledHits(strict, p, g1, st1, v);
      ApartLater(chunks, first, ToShow(p, g1, st1, v).hits);
      var rest := RunRefines(strict, p, g1, st1, chunks[1..]);
      hits := first + rest;
      PerChunkOne(chunks, first, rest);
      RunOne(p, st, chunks);
      var more := TextOf(Run(p, st1, chunks[1..]).1);
      FeedSplit(g, text, more);
      ThenTwice(text, first, more, rest, ToShow(p, Feed(g, text + more), Run(p, st1, chunks[1..]).0, ""));
      HitsBelow(first, rest, ToShow(p, g, st, Concat(chunks)).hits, |Concat(chunks)|);
    }
  }

  lemma NothingRun(p: Parser, g: Fence, st: State)
    ensures Run(p, st, []) == (st, []) && TextOf([]) == "" && Feed(g, "") == g
    ensures RecognisedPerChunk(p, st, []) == [] == PerChunk([], [])
  {
  }

  lemma {:induction false} ChunkFed(strict: bool, p: Parser, g: Fence, st: State, chunks: seq<string>)
    requires chunks != [] && Follows(strict, p, g, st, Concat(chunks))
    requires Apart(chunks, ToShow(p, g, st, Concat(chunks)).hits)
    ensures var v := Concat(chunks[1..]);
      var fed := st.(pending := st.pending + chunks[0], waiting := []);
      Follows(strict, p, g, fed, v) && ToShow(p, g, fed, v) == ToShow(p, g, st, Concat(chunks))
  {
    hide After, Reply, SteadyFor, SteadyBlock, TagAt, Feed, Undivided;
    var v := Concat(chunks[1..]);
    ApartHere(chunks, 1, ToShow(p, g, st, Concat(chunks)).hits);
    assert st.pending + (chunks[0] + v) == (st.pending + chunks[0]) + v;
    assert st.capture + st.pending + (chunks[0] + v) == st.capture + (st.pending + chunks[0]) + v;
  }

  lemma {:induction false} RunHeard(p: Parser, st: State, chunks: seq<string>)
    requires chunks != []
    ensures var fed := st.(pending := st.pending + chunks[0], waiting := []);
      var st1 := Drain(p, fed).0;
      AllHeard(st.fence, Run(p, st, chunks).1) ==>
        AllHeard(fed.fence, Drain(p, fed).1) && AllHeard(st1.fence, Run(p, st1, chunks[1..]).1)
  {
    hide Drain, AllHeard, Noted;
    var fed := st.(pending := st.pending + chunks[0], waiting := []);
    var st1 := Drain(p, fed).0;
    var es1 := Delivered(st.waiting) + Drain(p, fed).1;
    assert Run(p, st, chunks).1 == es1 + Run(p, st1, chunks[1..]).1;
    NotedSplit(st.fence, es1, Run(p, st1, chunks[1..]).1);
    NotedSplit(st.fence, Delivered(st.waiting), Drain(p, fed).1);
    NotedOne(st.fence, "", st.waiting);
    DrainNotes(p, fed);
  }

  lemma {:induction false} RunOne(p: Parser, st: State, chunks: seq<string>)
    requires chunks != []
    ensures var fed := st.(pending := st.pending + chunks[0], waiting := []);
      var st1 := Drain(p, fed).0;
      && Run(p, st, chunks).0 == Run(p, st1, chunks[1..]).0
      && TextOf(Run(p, st, chunks).1) == TextOf(Drain(p, fed).1) + TextOf(Run(p, st1, chunks[1..]).1)
      && RecognisedPerChunk(p, st, chunks) == [Recognised(p, fed)] + RecognisedPerChunk(p, st1, chunks[1..])
  {
    hide Drain, TextOf, Recognised;
    var fed := st.(pending := st.pending + chunks[0], waiting := []);
    var st1 := Drain(p, fed).0;
    TextOfAppend(Delivered(st.waiting), Drain(p, fed).1);
    EventTexts(st.waiting, "");
    TextOfAppend(Delivered(st.waiting) + Drain(p, fed).1, Run(p, st1, chunks[1..]).1);
  }

  lemma {:induction false} PerChunkOne(chunks: seq<string>, first: seq<Hit>, rest: seq<Hit>)
    requires chunks != [] && forall i :: 0 <= i < |first| ==> first[i].left >= |Concat(chunks[1..])|
    requires forall i :: 0 <= i < |rest| ==> rest[i].left < |Concat(chunks[1..])|
    ensures PerChunk(first + rest, chunks) == [CallsOf(first)] + PerChunk(rest, chunks[1..])
  {
    hide Count, CallsOf, Concat;
    CountIs(first, rest, |Concat(chunks[1..])|);
    assert (first + rest)[..|first|] == first && (first + rest)[|first|..] == rest;
  }

  lemma HitsBelow(first: seq<Hit>, rest: seq<Hit>, all: seq<Hit>, n: nat)
    requires Descending(all, n) && first + rest <= all
    ensures forall i :: 0 <= i < |first + rest| ==> (first + rest)[i].left < n
  {
    assert forall i :: 0 <= i < |first + rest| ==> (first + rest)[i] == all[i];
  }

  /** Where chunks end, told by how much text is left behind them. */
  function Ends(chunks: seq<string>): set<nat> {
    set m | 0 <= m <= |chunks| :: |Concat(chunks[m..])|
  }

  lemma EndsLater(chunks: seq<string>)
    requires chunks != []
    ensures Ends(chunks[1..]) <= Ends(chunks)
  {
    hide Concat;
    forall n | n in Ends(chunks[1..]) ensures n in Ends(chunks) {
      var m :| 0 <= m <= |chunks[1..]| && n == |Concat(chunks[1..][m..])|;
      assert chunks[1..][m..] == chunks[m + 1..];
    }
  }

  lemma EndHere(chunks: seq<string>, m: nat)
    requires m <= |chunks|
    ensures |Concat(chunks[m..])| in Ends(chunks)
  {
    hide Concat;
  }

  /** If nothing is lost between the places where pieces may end, a run loses nothing. */
  lemma {:induction false} RunIsHeard(p: Parser, g: Fence, st: State, chunks: seq<string>, ends: set<nat>)
    requires Settled(p, st) && Follows(true, p, g, st, Concat(chunks)) && Ends(chunks) <= ends
    requires Apart(chunks, ToShow(p, g, st, Concat(chunks)).hits)
    requires LevelAhead(p, g, st, Concat(chunks), ends)
    ensures AllHeard(st.fence, Run(p, st, chunks).1)
    decreases |chunks|
  {
    hide Drain, Recognised, ToShow, Follows, AllHeard, TextOf, Feed, Settled, Apart, LevelAhead, Noted, Ends;
    if chunks == [] {
      NothingLostYet(st.fence);
    } else {
      var v := Concat(chunks[1..]);
      var fed := st.(pending := st.pending + chunks[0], waiting := []);
      ChunkFed(true, p, g, st, chunks);
      EndHere(chunks, 1);
      EndsLater(chunks);
      LevelFed(p, g, st, chunks, ends);
      DrainIsHeard(p, g, fed, v, ends);
      var first := DrainRefines(true, p, g, fed, v);
      DrainSettles(p, fed);
      var st1 := Drain(p, fed).0;
      var g1 := Feed(g, TextOf(Drain(p, fed).1));
      ApartLater(chunks, first, ToShow(p, g1, st1, v).hits);
      RunIsHeard(p, g1, st1, chunks[1..], ends);
      var es1 := Delivered(st.waiting) + Drain(p, fed).1;
      assert Run(p, st, chunks).1 == es1 + Run(p, st1, chunks[1..]).1;
      NotedSplit(st.fence, es1, Run(p, st1, chunks[1..]).1);
      NotedSplit(st.fence, Delivered(st.waiting), Drain(p, fed).1);
      NotedOne(st.fence, "", st.waiting);
      DrainNotes(p, fed);
    }
  }

  lemma NothingLostYet(f: Fence)
    ensures AllHeard(f, [])
  {
  }

  lemma LevelFed(p: Parser, g: Fence, st: State, chunks: seq<string>, ends: set<nat>)
    requires chunks != [] && LevelAhead(p, g, st, Concat(chunks), ends)
    ensures LevelAhead(p, g, st.(pending := st.pending + chunks[0], waiting := []), Concat(chunks[1..]), ends)
  {
    hide Level, LevelBlock;
    var v := Concat(chunks[1..]);
    assert st.pending + (chunks[0] + v) == (st.pending + chunks[0]) + v;
    assert st.capture + st.pending + (chunks[0] + v) == st.capture + (st.pending + chunks[0]) + v;
  }

  /** What makes a stream independent of its chunks, besides steadiness, told by the text and the
      chunk boundaries: there are no back-ticks, or no blank text between two places where a piece may
      end moves the fence tracker, and no boundary divides a removed block from its closing fence. */
  ghost predicate Unfenced(p: Parser, chunks: seq<string>) {
    var t := Concat(chunks);
    NoTicks(t) || (Level(p, INITIAL, t, Ends(chunks)) && Apart(chunks, Reply(p, INITIAL, t).hits))
  }

  /** Chunking is invisible: a stream shows what the reference says of the whole text, and each
      chunk recognises exactly the blocks whose last character it holds. */
  lemma {:induction false} ChunkingIsInvisible(p: Parser, chunks: seq<string>)
    requires SteadyFor(p, INITIAL, Concat(chunks)) && Unfenced(p, chunks)
    ensures var whole := Reply(p, INITIAL, Concat(chunks));
      && TextOf(Stream(p, chunks)) == whole.text
      && RecognisedPerChunk(p, START, chunks) == PerChunk(whole.hits, chunks)
      && Flat(RecognisedPerChunk(p, START, chunks)) == CallsOf(whole.hits)
  {
    hide Run, Flush, Reply, SteadyFor, TextOf, AllHeard, Apart, PerChunk, RecognisedPerChunk, Descending, CallsOf;
    hide Feed, Flat;
    var t := Concat(chunks);
    var strict := !NoTicks(t);
    StartFollows(strict, p, chunks);
    var hits := RunRefines(strict, p, INITIAL, START, chunks);
    var st, es := Run(p, START, chunks).0, Run(p, START, chunks).1;
    var g := Feed(INITIAL, TextOf(es));
    SettledHits(strict, p, g, st, "");
    assert hits + [] == hits;
    var last := LastPieces(p, st);
    TextOfAppend(es, Flush(p, st));
    ReplyDescends(p, INITIAL, t);
    FlatPerChunk(hits, chunks);
  }

  lemma {:induction false} StartFollows(strict: bool, p: Parser, chunks: seq<string>)
    requires SteadyFor(p, INITIAL, Concat(chunks)) && Unfenced(p, chunks) && strict == !NoTicks(Concat(chunks))
    ensures Settled(p, START) && Follows(strict, p, INITIAL, START, Concat(chunks))
    ensures ToShow(p, INITIAL, START, Concat(chunks)) == Reply(p, INITIAL, Concat(chunks))
    ensures Apart(chunks, Reply(p, INITIAL, Concat(chunks)).hits)
    ensures strict ==> AllHeard(INITIAL, Run(p, START, chunks).1)
  {
    hide Run, Reply, SteadyFor, AllHeard, Feed, Level, Ends;
    var t := Concat(chunks);
    assert "" + t == t;
    if !strict {
      TickFreeReply(p, INITIAL, t);
    }
    ApartHere(chunks, 0, Reply(p, INITIAL, t).hits);
    assert chunks[0..] == chunks;
    if strict {
      LevelIsHeard(p, chunks);
    }
  }

  /** On steady text where no fence is divided, a level text loses no blank piece in a run. */
  lemma {:induction false} LevelIsHeard(p: Parser, chunks: seq<string>)
    requires SteadyFor(p, INITIAL, Concat(chunks)) && Apart(chunks, Reply(p, INITIAL, Concat(chunks)).hits)
    requires Level(p, INITIAL, Concat(chunks), Ends(chunks))
    ensures AllHeard(INITIAL, Run(p, START, chunks).1)
  {
    hide Run, Reply, SteadyFor, AllHeard, Feed, Level, Ends;
    var t := Concat(chunks);
    assert "" + t == t;
    ApartHere(chunks, 0, Reply(p, INITIAL, t).hits);
    assert chunks[0..] == chunks;
    StartSettles(p);
    RunIsHeard(p, INITIAL, START, chunks, Ends(chunks));
  }

  lemma StartSettles(p: Parser)
    ensures Settled(p, START)
  {
  }

  /** Every recognised call is delivered if and only if no chunk holds the last characters of two
      recognised blocks. */
  lemma {:induction false} AllDeliveredIffEndAlone(p: Parser, chunks: seq<string>)
    requires SteadyFor(p, INITIAL, Concat(chunks)) && Unfenced(p, chunks)
    ensures var hits := Reply(p, INITIAL, Concat(chunks)).hits;
      CallLists(Stream(p, chunks)) == CallsOf(hits) <==> EndAlone(chunks, hits)
  {
    hide Stream, Reply, SteadyFor, Unfenced, PerChunk, RecognisedPerChunk, Descending, CallsOf, EndAlone, TextOf;
    hide CallLists;
    var hits := Reply(p, INITIAL, Concat(chunks)).hits;
    ChunkingIsInvisible(p, chunks);
    AllDeliveredIff(p, chunks);
    ReplyDescends(p, INITIAL, Concat(chunks));
    SinglesIff(hits, chunks);
  }

  lemma {:induction false} RunNotes(p: Parser, st: State, chunks: seq<string>)
    ensures Run(p, st, chunks).0.fence == Noted(st.fence, Run(p, st, chunks).1)
    decreases |chunks|
  {
    hide Drain, Noted, Note;
    if chunks == [] {
      assert Noted(st.fence, []) == st.fence by { NotedNothing(st.fence); }
    } else {
      var fed := st.(pending := st.pending + chunks[0], waiting := []);
      var st1 := Drain(p, fed).0;
      var es1 := Delivered(st.waiting) + Drain(p, fed).1;
      DrainNotes(p, fed);
      NotedSplit(st.fence, Delivered(st.waiting), Drain(p, fed).1);
      NotedOne(st.fence, "", st.waiting);
      RunNotes(p, st1, chunks[1..]);
      NotedSplit(st.fence, es1, Run(p, st1, chunks[1..]).1);
    }
  }

  lemma NotedNothing(f: Fence)
    ensures Noted(f, []) == f
  {
  }

  /** As long as every released text is heard, the tracker has read exactly what was released. */
  lemma {:induction false} FenceReadsReleased(p: Parser, chunks: seq<string>)
    requires AllHeard(INITIAL, Run(p, START, chunks).1)
    ensures Run(p, START, chunks).0.fence == Feed(INITIAL, TextOf(Run(p, START, chunks).1))
  {
    hide Run, Noted, AllHeard, Feed, TextOf;
    RunNotes(p, START, chunks);
    HeardIsFed(INITIAL, Run(p, START, chunks).1);
  }
}
