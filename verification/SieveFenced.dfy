/** Blocks behind code fences and in them: a closed fence hides nothing behind it, an open one all. */
module SieveFenced {
  import opened Options
  import opened CodeFence
  import opened FenceLaws
  import opened Text
  import opened SieveModel
  import opened SieveRuns
  import opened SieveReference
  import opened SieveRefinement
  import opened SieveChunks
  import opened SieveFences

  /** Whole lines in which no tag counts and after which no fence is open. */
  predicate Clear(x: string) {
    WholeLines(x) && SegmentStart(INITIAL, x, 0) < 0 && Feed(INITIAL, x).stack == []
  }

  function Closer(v: string, m: nat): string {
    FenceLine(v, m, "")
  }

  /** Lines fenced by an opening line of `n` back-ticks and a closing one of `m`. */
  function FencedLines(w: string, n: nat, info: string, body: string, v: string, m: nat): string {
    FenceLine(w, n, info) + body + Closer(v, m)
  }

  predicate FenceParts(w: string, n: nat, info: string, body: string, v: string, m: nat) {
    && Indent(w) && Info(info) && '<' !in info && n >= 3 && Indent(v) && m >= n
    && FenceFree(body) && (body == "" || WholeLines(body))
  }

  lemma {:induction false} LineEnds(g: Fence, x: string)
    requires WholeLines(x)
    ensures Feed(g, x).ticks == 0 && Feed(g, x).lineStart
  {
  }

  /** A tag that starts in whole lines ends in them. */
  lemma TagInLines(x: string, y: string, k: nat)
    requires WholeLines(x) && k < |x| && TagAt(x + y, k)
    ensures TagAt(x, k)
  {
    TagAppend(x, y, k);
    var n := |x| - 1 - k;
    assert (x + y)[k + n] == x[|x| - 1];
    if At(x + y, k, WRAPPER) && n < |WRAPPER| {
      AtChar(x + y, k, WRAPPER, n);
    }
    if At(x + y, k, INVOKE) && n < |INVOKE| {
      AtChar(x + y, k, INVOKE, n);
    }
  }

  lemma NoTagBefore(x: string, y: string, k: nat)
    requires Clear(x) && k < |x|
    ensures !(TagAt(x + y, k) && !Inside(INITIAL, (x + y)[..k]))
  {
    hide TagAt, Inside, SegmentStart;
    SegmentStartIsFirst(INITIAL, x, 0);
    assert (x + y)[..k] == x[..k];
    if TagAt(x + y, k) {
      TagInLines(x, y, k);
    }
  }

  lemma LineShowsNoTag(a: string, w: string, m: nat, info: string, y: string, i: nat)
    requires Indent(w) && '<' !in info && i < |FenceLine(w, m, info)|
    ensures var t := a + (FenceLine(w, m, info) + y); |a| + i < |t| && !TagAt(t, |a| + i)
  {
    hide TagAt;
    var l := FenceLine(w, m, info);
    var t := a + (l + y);
    assert t[|a| + i] == l[i];
    assert l[i] != '<' by {
      if i < |w| {
        assert l[i] == w[i];
      } else if i < |w| + m {
        assert l[i] == Ticks(m)[i - |w|];
      } else if i < |w| + m + |info| {
        assert l[i] == info[i - |w| - m];
        assert info[i - |w| - m] in info;
      }
    }
    NotTag(t, |a| + i);
  }

  /** The fences that are open inside a fence and behind it. */
  lemma {:induction false} FenceStates(x: string, w: string, n: nat, info: string, body: string, v: string, m: nat)
    requires Clear(x) && FenceParts(w, n, info, body, v, m)
    ensures Feed(INITIAL, x + FencedLines(w, n, info, body, v, m)).stack == []
    ensures forall j :: 0 <= j <= |body| ==> Inside(INITIAL, x + (FenceLine(w, n, info) + body[..j]))
  {
    hide Feed, FenceLine, FenceFree, SegmentStart;
    var g := Feed(INITIAL, x);
    LineEnds(INITIAL, x);
    ClosedFence(g, w, n, info, body, v, m, "");
    FeedSplit(INITIAL, x, FencedLines(w, n, info, body, v, m));
    forall j | 0 <= j <= |body| ensures Inside(INITIAL, x + (FenceLine(w, n, info) + body[..j])) {
      FeedSplit(INITIAL, x, FenceLine(w, n, info) + body[..j]);
    }
  }

  /** No tag counts in fenced lines. */
  lemma {:induction false} FencedHidesTags(x: string, w: string, n: nat, info: string, body: string, v: string, m: nat,
                                           u: string, k: nat)
    requires Clear(x) && FenceParts(w, n, info, body, v, m)
    requires k < |x + FencedLines(w, n, info, body, v, m)|
    ensures var t := x + FencedLines(w, n, info, body, v, m) + u; !(TagAt(t, k) && !Inside(INITIAL, t[..k]))
  {
    hide TagAt, Inside, FenceLine, FenceFree, Clear, Feed;
    var opener, closer := FenceLine(w, n, info), Closer(v, m);
    var t := x + FencedLines(w, n, info, body, v, m) + u;
    FenceStates(x, w, n, info, body, v, m);
    if k < |x| {
      assert t == x + (FencedLines(w, n, info, body, v, m) + u);
      NoTagBefore(x, FencedLines(w, n, info, body, v, m) + u, k);
    } else if k < |x| + |opener| {
      assert t == x + (opener + (body + closer + u));
      LineShowsNoTag(x, w, n, info, body + closer + u, k - |x|);
    } else if k < |x| + |opener| + |body| {
      var j := k - |x| - |opener|;
      assert t[..k] == x + (opener + body[..j]);
    } else {
      assert t == (x + (opener + body)) + (closer + u);
      LineShowsNoTag(x + (opener + body), v, m, "", u, k - |x| - |opener| - |body|);
    }
  }

  lemma NoneCounts(t: string, x: string, u: string)
    requires t == x + u && forall k :: 0 <= k < |x| ==> !(TagAt(t, k) && !Inside(INITIAL, t[..k]))
    ensures forall k :: 0 <= k < |x| ==> !(TagAt(x + u, k) && !Inside(INITIAL, x[..k]))
  {
    hide TagAt, Inside;
    forall k | 0 <= k < |x| ensures !(TagAt(x + u, k) && !Inside(INITIAL, x[..k])) {
      assert t[..k] == x[..k];
    }
  }

  /** A complete block behind a closed fence is recognised, and all text up to it is shown: in every
      chunking the reference covers. */
  lemma {:induction false} BehindClosedFence(p: Parser, x: string, w: string, n: nat, info: string, body: string,
                                             v: string, m: nat, u: string, b: Span, chunks: seq<string>)
    requires Clear(x) && FenceParts(w, n, info, body, v, m)
    requires TagAt(u, 0) && FirstBlock(u) == Some(b) && p.Recognise(b.parsed) != []
    requires Concat(chunks) == x + FencedLines(w, n, info, body, v, m) + u
    requires SteadyFor(p, INITIAL, Concat(chunks)) && Unfenced(p, chunks)
    ensures var calls := Flat(RecognisedPerChunk(p, START, chunks));
      calls != [] && calls[0] == p.Recognise(b.parsed)
    ensures x + FencedLines(w, n, info, body, v, m) <= TextOf(Stream(p, chunks))
  {
    hide TagAt, Inside, FencedLines, FenceParts, Clear, FirstBlock, Feed, SteadyFor, Unfenced, Stream, TextOf, Reply;
    hide RecognisedPerChunk, Flat, Parser.Recognise, PerChunk;
    var y := x + FencedLines(w, n, info, body, v, m);
    var t := y + u;
    forall k | 0 <= k < |y| ensures !(TagAt(t, k) && !Inside(INITIAL, t[..k])) {
      FencedHidesTags(x, w, n, info, body, v, m, u, k);
    }
    NoneCounts(t, y, u);
    ReplyReleases(p, INITIAL, y, u);
    FenceStates(x, w, n, info, body, v, m);
    FirstHit(p, Feed(INITIAL, y), u, b);
    ChunkingIsInvisible(p, chunks);
    var whole := Reply(p, INITIAL, t);
    assert whole.hits[0].calls == p.Recognise(b.parsed);
    assert CallsOf(whole.hits)[0] == whole.hits[0].calls;
  }

  lemma {:induction false} FirstHit(p: Parser, g: Fence, u: string, b: Span)
    requires g.stack == [] && TagAt(u, 0) && FirstBlock(u) == Some(b) && p.Recognise(b.parsed) != []
    ensures var hits := Reply(p, g, u).hits; hits != [] && hits[0].calls == p.Recognise(b.parsed)
  {
    hide TagAt, FirstBlock, Parser.Recognise, TrimFence;
    SieveCuts.TagStarts(u);
    assert u[..0] == "" && u[0..] == u;
    FedNothing(g);
    assert SegmentStart(g, u, 0) == 0;
  }

  /** Behind a fence that stays open no block is recognised and all text is shown. */
  lemma {:induction false} BehindOpenFence(p: Parser, x: string, w: string, n: nat, info: string, rest: string,
                                           chunks: seq<string>)
    requires Clear(x) && Indent(w) && Info(info) && '<' !in info && n >= 3 && FenceFree(rest)
    requires Concat(chunks) == x + (FenceLine(w, n, info) + rest) && Unfenced(p, chunks)
    ensures Flat(RecognisedPerChunk(p, START, chunks)) == []
    ensures TextOf(Stream(p, chunks)) == Concat(chunks)
  {
    hide TagAt, Inside, FenceLine, Clear, Feed, Unfenced, Stream, TextOf, RecognisedPerChunk, Flat, PerChunk;
    hide SegmentStart, FenceFree;
    var t := x + (FenceLine(w, n, info) + rest);
    forall k | 0 <= k < |t| ensures !(TagAt(t, k) && !Inside(INITIAL, t[..k])) {
      OpenHidesTags(x, w, n, info, rest, k);
    }
    SegmentSkips(INITIAL, t, 0, |t|);
    NothingBeyond(t);
    ChunkingIsInvisible(p, chunks);
  }

  lemma NothingBeyond(t: string)
    ensures SegmentStart(INITIAL, t, |t|) < 0
  {
  }

  lemma {:induction false} OpenHidesTags(x: string, w: string, n: nat, info: string, rest: string, k: nat)
    requires Clear(x) && Indent(w) && Info(info) && '<' !in info && n >= 3 && FenceFree(rest)
    requires k < |x + (FenceLine(w, n, info) + rest)|
    ensures var t := x + (FenceLine(w, n, info) + rest); !(TagAt(t, k) && !Inside(INITIAL, t[..k]))
  {
    hide TagAt, FenceLine, Feed, FenceFree, SegmentStart;
    var opener := FenceLine(w, n, info);
    var t := x + (opener + rest);
    if k < |x| {
      hide Clear;
      NoTagBefore(x, opener + rest, k);
    } else if k < |x| + |opener| {
      LineShowsNoTag(x, w, n, info, rest, k - |x|);
    } else {
      var j := k - |x| - |opener|;
      var g := Feed(INITIAL, x);
      LineEnds(INITIAL, x);
      assert t[..k] == x + (opener + rest[..j]);
      FeedSplit(INITIAL, x, opener + rest[..j]);
      FeedSplit(g, opener, rest[..j]);
      FenceLineIs(g, w, n, info);
      FenceFreePrefix(rest, j);
      FreeKeeps(Feed(g, opener), rest[..j]);
    }
  }
}
