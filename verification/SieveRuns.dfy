/** Whole streams through the sieve: conservation of text, and which tool calls are delivered. */
module SieveRuns {
  import opened Text
  import opened SieveModel
  import opened SieveConservation

  /** Nothing more can be decided about the buffered text. */
  predicate Settled(p: Parser, st: State) {
    if st.capturing then st.pending == "" && Consume(p, st.capture).NotReady?
    else st.pending == "" || (SegmentStart(st.fence, st.pending, 0) < 0 && SafeLength(st.fence, st.pending) == 0)
  }

  /** The start of a tag, in any letter case. */
  predicate StartsTag(s: string) {
    exists tag, n | tag in ["<tool_calls", "<invoke"] && 0 < n <= |tag| :: SameWord(s, tag[..n])
  }

  /** What is held back by itself is the start of a tag outside of any fence, and nothing else. */
  lemma {:induction false} HeldIsTagStart(p: Parser, st: State)
    requires Settled(p, st) && !st.capturing && st.pending != ""
    ensures StartsTag(st.pending) && !Inside(st.fence, "")
  {
    hide LastIndexOf, TagAt, SegmentStart;
    var s := st.pending;
    assert PartialTag(s) == 0 && s[0..] == s && s[..0] == "";
    if |s| <= |WRAPPER| && At(s, 0, WRAPPER[..|s|]) {
      assert "<tool_calls" in ["<tool_calls", "<invoke"] && SameWord(s, "<tool_calls"[..|s|]);
    } else {
      assert "<invoke" in ["<tool_calls", "<invoke"] && SameWord(s, "<invoke"[..|s|]);
    }
  }

  lemma {:induction false} DrainSettles(p: Parser, st: State)
    ensures Settled(p, Drain(p, st).0)
    decreases |st.pending| + |st.capture|, !st.capturing
  {
    hide Consume, Note, SegmentStart, SafeLength;
    if st.capturing {
      match Consume(p, st.capture + st.pending)
      case NotReady =>
      case Ready(prefix, calls, suffix) =>
        DrainSettles(p, State(suffix, "", false, Note(st.fence, prefix), if calls != [] then calls else st.waiting));
    } else if st.pending != "" {
      var k := SegmentStart(st.fence, st.pending, 0);
      if k >= 0 {
        DrainSettles(p, State("", st.capture + st.pending[k..], true, Note(st.fence, st.pending[..k]), st.waiting));
      } else {
        var n := SafeLength(st.fence, st.pending);
        if n > 0 {
          DrainSettles(p, st.(pending := st.pending[n..], fence := Note(st.fence, st.pending[..n])));
        }
      }
    }
  }

  lemma {:induction false} SettledStops(p: Parser, st: State)
    requires Settled(p, st)
    ensures Drain(p, st) == (st, []) && Recognised(p, st) == []
  {
    hide Consume, Note, SegmentStart, SafeLength;
    assert st.capture + "" == st.capture;
  }

  /** The final flush releases the buffers as they are. */
  lemma FlushReleases(p: Parser, st: State)
    requires Settled(p, st) && Tidy(st)
    ensures Flush(p, st) == Delivered(st.waiting) + (Text1(st.capture) + Text1(st.pending))
  {
    hide Consume, SegmentStart, SafeLength, Drain;
    var st' := st.(pending := st.pending + "", waiting := []);
    assert st.pending + "" == st.pending;
    SettledStops(p, st');
    assert Delivered(st.waiting) + [] == Delivered(st.waiting);
    assert Process(p, st, "") == (st', Delivered(st.waiting));
    assert Release(p, st') == Text1(st.capture) + Text1(st.pending);
  }

  /** For every chunk of a run, the calls of the blocks that chunk completes. */
  function RecognisedPerChunk(p: Parser, st: State, chunks: seq<string>): seq<seq<seq<ToolCall>>>
    decreases chunks
  {
    if chunks == [] then []
    else [Recognised(p, st.(pending := st.pending + chunks[0], waiting := []))]
         + RecognisedPerChunk(p, Process(p, st, chunks[0]).0, chunks[1..])
  }

  function Flat<T>(xs: seq<seq<T>>): seq<T> {
    if xs == [] then [] else xs[0] + Flat(xs[1..])
  }

  lemma {:induction false} RunConserves(p: Parser, st: State, chunks: seq<string>) returns (ps: seq<Piece>)
    requires Tidy(st) && Settled(p, st)
    ensures Tidy(Run(p, st, chunks).0) && Settled(p, Run(p, st, chunks).0)
    ensures Whole(ps) + Buffered(Run(p, st, chunks).0) == Buffered(st) + Concat(chunks)
    ensures Keeps(ps) == TextOf(Run(p, st, chunks).1)
    ensures AllLegit(p, ps)
    ensures CutCalls(p, ps) == Flat(RecognisedPerChunk(p, st, chunks))
    decreases chunks
  {
    hide Drain, Recognised, Settled, Whole, Keeps, CutCalls, AllLegit, TextOf;
    ps := [];
    if chunks == [] {
      EmptyPieces(p);
      assert Buffered(st) + "" == Buffered(st);
    } else {
      var fed := st.(pending := st.pending + chunks[0], waiting := []);
      var first := DrainConserves(p, fed);
      DrainSettles(p, fed);
      var st1, es1 := Process(p, st, chunks[0]).0, Process(p, st, chunks[0]).1;
      assert st1 == Drain(p, fed).0;
      TextOfAppend(Delivered(st.waiting), Drain(p, fed).1);
      EventTexts(st.waiting, "");
      assert TextOf(es1) == Keeps(first);
      var rest := RunConserves(p, st1, chunks[1..]);
      ps := first + rest;
      PiecesAppend(p, first, rest);
      TextOfAppend(es1, Run(p, st1, chunks[1..]).1);
      assert Buffered(fed) == Buffered(st) + chunks[0];
      var end := Run(p, st1, chunks[1..]).0;
      assert Whole(ps) + Buffered(end) == Whole(first) + (Whole(rest) + Buffered(end));
      assert Whole(first) + (Buffered(st1) + Concat(chunks[1..])) == Buffered(fed) + Concat(chunks[1..]);
    }
  }

  lemma EmptyPieces(p: Parser)
    ensures Whole([]) == "" && Keeps([]) == "" && CutCalls(p, []) == [] && TextOf([]) == "" && AllLegit(p, [])
  {
  }

  lemma EventTexts(calls: seq<ToolCall>, s: string)
    ensures TextOf(Delivered(calls)) == "" && TextOf(Text1(s)) == s
  {
  }

  /** What the flush releases, as pieces. */
  lemma LastPieces(p: Parser, st: State) returns (ps: seq<Piece>)
    requires Settled(p, st) && Tidy(st)
    ensures Whole(ps) == Keeps(ps) == TextOf(Flush(p, st)) == Buffered(st)
    ensures AllLegit(p, ps) && CutCalls(p, ps) == []
  {
    hide Settled, Flush, CallsIn, At;
    FlushReleases(p, st);
    ps := [Kept(Buffered(st))];
    KeptIsLegit(p, Buffered(st));
    var texts := Text1(st.capture) + Text1(st.pending);
    TextOfAppend(Delivered(st.waiting), texts);
    TextOfAppend(Text1(st.capture), Text1(st.pending));
    EventTexts(st.waiting, st.capture);
    EventTexts(st.waiting, st.pending);
  }

  /** Conservation: however a stream is cut into chunks, the released text is the input with
      recognised blocks (and complete fences wrapped around them) cut out, nothing else. */
  lemma {:induction false} StreamConserves(p: Parser, chunks: seq<string>) returns (ps: seq<Piece>)
    ensures Whole(ps) == Concat(chunks)
    ensures Keeps(ps) == TextOf(Stream(p, chunks))
    ensures AllLegit(p, ps)
    ensures CutCalls(p, ps) == Flat(RecognisedPerChunk(p, START, chunks))
  {
    hide Run, Flush, RecognisedPerChunk, AllLegit, Whole, Keeps, CutCalls, TextOf, Concat;
    var run := RunConserves(p, START, chunks);
    var st := Run(p, START, chunks).0;
    var last := LastPieces(p, st);
    ps := run + last;
    PiecesAppend(p, run, last);
    TextOfAppend(Run(p, START, chunks).1, Flush(p, st));
    assert Buffered(START) + Concat(chunks) == Concat(chunks);
    assert CutCalls(p, run) + [] == CutCalls(p, run);
  }

  /** With a parser that recognises no call, a stream is released exactly as it came. */
  lemma {:induction false} NothingLost(p: Parser, chunks: seq<string>)
    requires forall block :: p.Recognise(block) == []
    ensures TextOf(Stream(p, chunks)) == Concat(chunks)
  {
    hide Stream;
    var ps := StreamConserves(p, chunks);
    AllKept(p, ps);
  }

  lemma {:induction false} AllKept(p: Parser, ps: seq<Piece>)
    requires forall block :: p.Recognise(block) == []
    requires AllLegit(p, ps)
    ensures Whole(ps) == Keeps(ps)
  {
    hide At, OpeningFence, ClosingFence;
    if ps != [] {
      assert Legit(p, ps[0]);
      AllKept(p, ps[1..]);
    }
  }

  function CallLists(es: seq<Event>): seq<seq<ToolCall>> {
    if es == [] then [] else (if es[0].Calls? then [es[0].calls] else []) + CallLists(es[1..])
  }

  lemma {:induction false} CallListsAppend(a: seq<Event>, b: seq<Event>)
    ensures CallLists(a + b) == CallLists(a) + CallLists(b)
  {
    if a == [] {
      assert a + b == b;
    } else {
      assert (a + b)[1..] == a[1..] + b;
      CallListsAppend(a[1..], b);
    }
  }

  function LastOf(xs: seq<seq<ToolCall>>): seq<seq<ToolCall>> {
    if xs == [] then [] else [xs[|xs| - 1]]
  }

  function Lasts(xss: seq<seq<seq<ToolCall>>>): seq<seq<ToolCall>> {
    if xss == [] then [] else LastOf(xss[0]) + Lasts(xss[1..])
  }

  function Waiting(st: State): seq<seq<ToolCall>> {
    if st.waiting == [] then [] else [st.waiting]
  }

  lemma {:induction false} DrainHoldsLast(p: Parser, st: State)
    ensures CallLists(Drain(p, st).1) == []
    ensures Waiting(Drain(p, st).0) == if Recognised(p, st) == [] then Waiting(st) else LastOf(Recognised(p, st))
    decreases |st.pending| + |st.capture|, !st.capturing
  {
    hide Consume, Note, SegmentStart, SafeLength;
    if st.capturing {
      match Consume(p, st.capture + st.pending)
      case NotReady =>
      case Ready(prefix, calls, suffix) =>
        var next := State(suffix, "", false, Note(st.fence, prefix), if calls != [] then calls else st.waiting);
        DrainHoldsLast(p, next);
        CallListsAppend(Text1(prefix), Drain(p, next).1);
    } else if st.pending != "" {
      var k := SegmentStart(st.fence, st.pending, 0);
      if k >= 0 {
        var next := State("", st.capture + st.pending[k..], true, Note(st.fence, st.pending[..k]), st.waiting);
        DrainHoldsLast(p, next);
        CallListsAppend(Text1(st.pending[..k]), Drain(p, next).1);
      } else {
        var n := SafeLength(st.fence, st.pending);
        if n > 0 {
          var next := st.(pending := st.pending[n..], fence := Note(st.fence, st.pending[..n]));
          DrainHoldsLast(p, next);
          CallListsAppend(Text1(st.pending[..n]), Drain(p, next).1);
        }
      }
    }
  }

  lemma NoCalls()
    ensures CallLists([]) == []
  {
  }

  lemma DeliveredCalls(st: State)
    ensures CallLists(Delivered(st.waiting)) == Waiting(st)
  {
  }

  lemma {:induction false} RunDeliversLasts(p: Parser, st: State, chunks: seq<string>)
    ensures CallLists(Run(p, st, chunks).1) + Waiting(Run(p, st, chunks).0)
      == Waiting(st) + Lasts(RecognisedPerChunk(p, st, chunks))
    decreases chunks
  {
    hide Drain, Recognised, CallLists;
    if chunks == [] {
      assert CallLists([]) == [] by { NoCalls(); }
    } else {
      var fed := st.(pending := st.pending + chunks[0], waiting := []);
      DrainHoldsLast(p, fed);
      var st1, es1 := Process(p, st, chunks[0]).0, Process(p, st, chunks[0]).1;
      CallListsAppend(Delivered(st.waiting), Drain(p, fed).1);
      assert CallLists(es1) == Waiting(st) by { DeliveredCalls(st); }
      RunDeliversLasts(p, st1, chunks[1..]);
      CallListsAppend(es1, Run(p, st1, chunks[1..]).1);
      var later := RecognisedPerChunk(p, st1, chunks[1..]);
      assert RecognisedPerChunk(p, st, chunks)[1..] == later;
      assert Waiting(st1) == LastOf(Recognised(p, fed));
    }
  }

  /** Exactly one list of calls is delivered per chunk that completes a recognised block: the last. */
  lemma {:induction false} StreamDeliversLasts(p: Parser, chunks: seq<string>)
    ensures CallLists(Stream(p, chunks)) == Lasts(RecognisedPerChunk(p, START, chunks))
  {
    hide Drain, Recognised, Legit, Run, Flush, RecognisedPerChunk;
    var run := RunConserves(p, START, chunks);
    var st := Run(p, START, chunks).0;
    FlushReleases(p, st);
    RunDeliversLasts(p, START, chunks);
    CallListsAppend(Run(p, START, chunks).1, Flush(p, st));
    CallListsAppend(Delivered(st.waiting), Text1(st.capture) + Text1(st.pending));
    CallListsAppend(Text1(st.capture), Text1(st.pending));
    assert CallLists(Flush(p, st)) == Waiting(st) + [] == Waiting(st);
    assert Waiting(START) == [];
  }

  lemma {:induction false} LastsAreAll(xss: seq<seq<seq<ToolCall>>>)
    ensures |Lasts(xss)| <= |Flat(xss)|
    ensures Lasts(xss) == Flat(xss) <==> forall i :: 0 <= i < |xss| ==> |xss[i]| <= 1
  {
    if xss != [] {
      LastsAreAll(xss[1..]);
      if |xss[0]| > 1 {
        assert |Lasts(xss)| < |Flat(xss)|;
      } else {
        assert LastOf(xss[0]) == xss[0];
        assert forall i :: 0 < i < |xss| ==> xss[i] == xss[1..][i - 1];
        if Lasts(xss) == Flat(xss) {
          assert Lasts(xss[1..]) == Lasts(xss)[|xss[0]|..] == Flat(xss)[|xss[0]|..] == Flat(xss[1..]);
        }
      }
    }
  }

  /** Every recognised call is delivered if and only if no chunk completes two recognised blocks. */
  lemma {:induction false} AllDeliveredIff(p: Parser, chunks: seq<string>)
    ensures |RecognisedPerChunk(p, START, chunks)| == |chunks|
    ensures CallLists(Stream(p, chunks)) == Flat(RecognisedPerChunk(p, START, chunks))
      <==> forall i :: 0 <= i < |chunks| ==> |RecognisedPerChunk(p, START, chunks)[i]| <= 1
  {
    StreamDeliversLasts(p, chunks);
    LastsAreAll(RecognisedPerChunk(p, START, chunks));
    PerChunkLength(p, START, chunks);
  }

  lemma {:induction false} PerChunkLength(p: Parser, st: State, chunks: seq<string>)
    ensures |RecognisedPerChunk(p, st, chunks)| == |chunks|
    decreases chunks
  {
    if chunks != [] {
      PerChunkLength(p, Process(p, st, chunks[0]).0, chunks[1..]);
    }
  }
}
