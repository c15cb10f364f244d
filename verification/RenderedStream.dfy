/** Renderer and sieve together: tool calls rendered for the prompt history and streamed back are
    delivered as calls, and none of their text is shown. */
module RenderedStream {
  import opened Options
  import opened Text
  import opened CodeFence
  import opened SieveModel
  import opened SieveConservation
  import opened SieveRuns
  import opened SieveReference
  import opened SieveChunks
  import opened SieveSteady
  import Markup
  import MarkupScan
  import MarkupInert
  import TC = ToolCallText
  import RT = ToolCallRoundTrip
  import TR = ToolCallReply
  import FC = FencedCalls
  import RC = RenderedCalls

  // A text that is one wrapper block.

  predicate OneBlock(t: string) {
    TagAt(t, 0) && IndexFrom(t, WRAPPER, 0) == 0 && FirstBlock(t) == Some(Span(0, |t|, t))
  }

  /** The sieve holds exactly the beginning `a` of the block. */
  predicate Holds(st: State, a: string) {
    && st.fence == INITIAL
    && if st.capturing then st.capture == a && st.pending == "" else st.capture == "" && st.pending == a
  }

  lemma {:induction false} BlockNotYet(a: string, v: string)
    requires OneBlock(a + v) && v != ""
    ensures FirstBlock(a).None?
  {
    hide IndexFrom, FindVisible, TagAt, FirstBlock;
    assert OpensFirst(a + v);
    if FirstBlock(a).Some? {
      BlockIsStable(a, v);
      BlockEndsInside(a);
    }
  }

  lemma BlockEndsInside(a: string)
    requires FirstBlock(a).Some?
    ensures FirstBlock(a).value.end <= |a|
  {
  }

  /** The beginning of the block's tag is held back. */
  lemma {:induction false} TagNotYet(a: string, v: string)
    requires TagAt(a + v, 0) && !TagAt(a, 0) && a != ""
    ensures SegmentStart(INITIAL, a, 0) < 0 && SafeLength(INITIAL, a) == 0
  {
    hide TagAt, Inside, LastIndexOf;
    forall i | 0 <= i < |a| ensures !TagAt(a, i) {
      if i > 0 && TagAt(a, i) {
        TagBeforeTag(a, v, 0, i);
      }
    }
    SegmentSkips(INITIAL, a, 0, |a|);
    StraddleIsHeld(a, v, 0);
    assert a[..0] == "" && !Inside(INITIAL, "") by { NothingInside(); }
  }

  lemma NothingInside()
    ensures !Inside(INITIAL, "")
  {
  }

  /** Draining more of the block, but not all of it. */
  lemma {:induction false} DrainHolds(p: Parser, st: State, a: string, v: string)
    requires OneBlock(a + v) && v != ""
    requires st.fence == INITIAL && Buffered(st) == a && (if st.capturing then TagAt(a, 0) else st.capture == "")
    ensures var st' := Drain(p, st).0;
      && Drain(p, st).1 == [] && Recognised(p, st) == [] && st'.waiting == st.waiting
      && Holds(st', a) && (st'.capturing ==> TagAt(a, 0))
  {
    hide Consume, SegmentStart, SafeLength, TagAt, FirstBlock, IndexFrom, Note;
    BlockNotYet(a, v);
    if st.capturing {
      ConsumeIsTurn(p, a);
    } else if a != "" {
      assert "" + a == a && st.pending == a;
      if TagAt(a, 0) {
        ConsumeIsTurn(p, a);
        CapturesWhole(p, st);
        assert a + "" == a;
        var captured := State("", a, true, INITIAL, st.waiting);
        assert Drain(p, captured) == (captured, []) && Recognised(p, captured) == [];
      } else {
        TagNotYet(a, v);
      }
    }
  }

  /** A tag at the start is captured at once. */
  lemma {:induction false} CapturesWhole(p: Parser, st: State)
    requires st.fence == INITIAL && !st.capturing && st.capture == "" && TagAt(st.pending, 0)
    ensures var captured := State("", st.pending, true, INITIAL, st.waiting);
      Drain(p, st) == Drain(p, captured) && Recognised(p, st) == Recognised(p, captured)
  {
    hide Consume, SegmentStart, SafeLength, TagAt, Drain, Recognised;
    var u := st.pending;
    StartsAtOnce(u);
    assert u[..0] == "" && u[0..] == u && "" + u == u;
    EmptyTrims();
    NotesNothing();
    StepToTag(p, st);
    var captured := State("", u, true, INITIAL, st.waiting);
    assert Text1("") + Drain(p, captured).1 == Drain(p, captured).1;
  }

  lemma NotesNothing()
    ensures Note(INITIAL, "") == INITIAL
  {
    EmptyTrims();
  }

  lemma StepToTag(p: Parser, st: State)
    requires !st.capturing && st.pending != "" && SegmentStart(st.fence, st.pending, 0) == 0
    ensures var s := st.pending;
      var next := State("", st.capture + s[0..], true, Note(st.fence, s[..0]), st.waiting);
      && Drain(p, st) == (Drain(p, next).0, Text1(s[..0]) + Drain(p, next).1)
      && Recognised(p, st) == Recognised(p, next)
  {
    hide Consume, SegmentStart, SafeLength, Note;
  }

  /** Draining the whole block. */
  lemma {:induction false} DrainDone(p: Parser, st: State, t: string)
    requires OneBlock(t) && p.Recognise(t) != []
    requires st.fence == INITIAL && Buffered(st) == t && (st.capturing || st.capture == "")
    ensures Drain(p, st) == (State("", "", false, INITIAL, p.Recognise(t)), []) && Recognised(p, st) == [p.Recognise(t)]
  {
    hide Consume, SegmentStart, SafeLength, TagAt, FirstBlock, IndexFrom, Note, Parser.Recognise;
    var calls := p.Recognise(t);
    NoTicksNoFence("");
    TrimsBoth("", "");
    ConsumeIsTurn(p, t);
    assert t[..0] == "" && t[|t|..] == "";
    NotesNothing();
    var captured := State("", t, true, INITIAL, st.waiting);
    assert t + "" == t;
    var next := State("", "", false, INITIAL, calls);
    assert Drain(p, next) == (next, []) && Recognised(p, next) == [];
    assert Text1("") + [] == [] && [calls] + [] == [calls];
    if !st.capturing {
      assert "" + st.pending == st.pending;
      CapturesWhole(p, st);
    }
  }

  /** Draining the whole block if it holds no call. */
  lemma {:induction false} DrainShows(p: Parser, st: State, t: string)
    requires OneBlock(t) && p.Recognise(t) == []
    requires st.fence == INITIAL && Buffered(st) == t && (st.capturing || st.capture == "")
    ensures var st' := Drain(p, st).0;
      && Drain(p, st).1 == Text1(t) && Recognised(p, st) == []
      && !st'.capturing && Buffered(st') == ""
  {
    hide Consume, SegmentStart, SafeLength, TagAt, FirstBlock, IndexFrom, Note, Parser.Recognise;
    ConsumeIsTurn(p, t);
    assert t[..|t|] == t && t[|t|..] == "";
    var captured := State("", t, true, INITIAL, st.waiting);
    assert t + "" == t;
    var next := State("", "", false, Note(INITIAL, t), st.waiting);
    assert Drain(p, next) == (next, []) && Recognised(p, next) == [];
    assert Text1(t) + [] == Text1(t);
    if !st.capturing {
      assert "" + st.pending == st.pending;
      CapturesWhole(p, st);
    }
  }

  /** Nothing arrives any more. */
  lemma {:induction false} RunsOut(p: Parser, st: State, chunks: seq<string>)
    requires Concat(chunks) == "" && !st.capturing && Buffered(st) == ""
    ensures var end := Run(p, st, chunks).0;
      && TextOf(Run(p, st, chunks).1) == "" && !end.capturing && Buffered(end) == ""
      && Lasts(RecognisedPerChunk(p, st, chunks)) == []
    decreases |chunks|
  {
    if chunks == [] {
      assert Concat(chunks) == "";
    } else {
      assert chunks[0] == "" && Concat(chunks[1..]) == "";
      var fed := st.(pending := st.pending + chunks[0], waiting := []);
      assert fed.pending == "";
      assert Drain(p, fed) == (fed, []) && Recognised(p, fed) == [];
      RunOne(p, st, chunks);
      RunsOut(p, fed, chunks[1..]);
      LastsCons([], RecognisedPerChunk(p, fed, chunks[1..]));
    }
  }

  lemma LastsCons(first: seq<seq<ToolCall>>, rest: seq<seq<seq<ToolCall>>>)
    ensures Lasts([first] + rest) == LastOf(first) + Lasts(rest)
  {
    assert ([first] + rest)[1..] == rest;
  }

  /** The block arrives, in whatever chunks. */
  lemma {:induction false} RunDelivers(p: Parser, st: State, a: string, chunks: seq<string>)
    requires OneBlock(a + Concat(chunks))
    requires Holds(st, a) && (st.capturing ==> TagAt(a, 0)) && Concat(chunks) != ""
    ensures var end := Run(p, st, chunks).0;
      var calls := p.Recognise(a + Concat(chunks));
      && !end.capturing && Buffered(end) == ""
      && TextOf(Run(p, st, chunks).1) == (if calls == [] then a + Concat(chunks) else "")
      && Lasts(RecognisedPerChunk(p, st, chunks)) == if calls == [] then [] else [calls]
    decreases |chunks|
  {
    hide Drain, Recognised, TagAt, OneBlock, Parser.Recognise, TextOf, Run, RecognisedPerChunk, Lasts;
    var v := Concat(chunks[1..]);
    var fed := st.(pending := st.pending + chunks[0], waiting := []);
    assert a + Concat(chunks) == (a + chunks[0]) + v && Buffered(fed) == a + chunks[0];
    RunOne(p, st, chunks);
    var st1 := Drain(p, fed).0;
    LastsCons(Recognised(p, fed), RecognisedPerChunk(p, st1, chunks[1..]));
    EventTexts([], "");
    if v == "" {
      var t := a + chunks[0];
      assert t + "" == t;
      if p.Recognise(t) == [] {
        DrainShows(p, fed, t);
        EventTexts([], t);
      } else {
        DrainDone(p, fed, t);
      }
      RunsOut(p, st1, chunks[1..]);
    } else {
      if st.capturing {
        TagAppend(a, chunks[0], 0);
      }
      DrainHolds(p, fed, a + chunks[0], v);
      RunDelivers(p, st1, a + chunks[0], chunks[1..]);
    }
  }

  lemma FirstOfTwo(p: Parser, t: string)
    ensures p.Recognise(t) == if |p.direct(t)| > 0 then p.direct(t) else p.repair(t)
  {
  }

  /** A stream that is one block shows nothing and delivers its calls once: those that are read in it,
      or, if there are none, those read in its repair; it is shown if there are none either way. */
  lemma {:induction false} OneBlockStream(p: Parser, chunks: seq<string>)
    requires OneBlock(Concat(chunks))
    ensures var t := Concat(chunks);
      var calls := if |p.direct(t)| > 0 then p.direct(t) else p.repair(t);
      && TextOf(Stream(p, chunks)) == (if calls == [] then Concat(chunks) else "")
      && CallLists(Stream(p, chunks)) == if calls == [] then [] else [calls]
  {
    hide Run, Flush, OneBlock, Parser.Recognise, TextOf, RecognisedPerChunk, Lasts, CallLists, Settled;
    var t := Concat(chunks);
    FirstOfTwo(p, t);
    assert "" + t == t;
    assert t != "" by { NotEmpty(t); }
    RunDelivers(p, START, "", chunks);
    var end := Run(p, START, chunks).0;
    assert Settled(p, START) && Tidy(START) by { StartIsSettled(p); }
    var ps := RunConserves(p, START, chunks);
    var last := LastPieces(p, end);
    TextOfAppend(Run(p, START, chunks).1, Flush(p, end));
    StreamDeliversLasts(p, chunks);
  }

  lemma {:induction false} EmptyStream(p: Parser, chunks: seq<string>)
    requires Concat(chunks) == ""
    ensures TextOf(Stream(p, chunks)) == "" && CallLists(Stream(p, chunks)) == []
  {
    hide Run, Flush, Parser.Recognise, TextOf, RecognisedPerChunk, Lasts, CallLists, Settled;
    RunsOut(p, START, chunks);
    var end := Run(p, START, chunks).0;
    assert Settled(p, START) && Tidy(START) by { StartIsSettled(p); }
    var ps := RunConserves(p, START, chunks);
    var last := LastPieces(p, end);
    TextOfAppend(Run(p, START, chunks).1, Flush(p, end));
    StreamDeliversLasts(p, chunks);
  }

  lemma StartIsSettled(p: Parser)
    ensures Settled(p, START) && Tidy(START)
  {
  }

  lemma NotEmpty(t: string)
    requires OneBlock(t)
    ensures t != ""
  {
  }

  // Rendered calls.

  /** What the scanner passes over holds no visible close tag. */
  lemma {:induction false} PassesClose(text: string, tag: string, i: nat, j: nat)
    requires MarkupScan.Passes(text, tag, i, j)
    ensures FindVisible(text, "</" + tag + ">", i) == FindVisible(text, "</" + tag + ">", j)
    decreases j - i
  {
    if i < j {
      match Markup.Look(text, tag, i)
      case Hidden(next) =>
        PassesClose(text, tag, next, j);
      case Plain =>
        if At(text, i, "</" + tag + ">") {
          CloseCloses(text, tag, i);
        }
        PassesClose(text, tag, i + 1, j);
      case _ =>
    }
  }

  lemma CloseCloses(text: string, tag: string, i: nat)
    requires At(text, i, "</" + tag + ">")
    ensures At(text, i, "</" + tag) && Markup.Boundary(text, i + |tag| + 2)
  {
    var p := "</" + tag + ">";
    AtChar(text, i, p, |tag| + 2);
    forall k | 0 <= k < |tag| + 2 ensures LowerChar(text[i + k]) == ("</" + tag)[k] {
      AtChar(text, i, p, k);
    }
  }

  /** A rendered wrapper is one block for the sieve. */
  lemma {:induction false} WrapperIsOneBlock(t: string, body: string)
    requires t == "<tool_calls>" + body + "</tool_calls>" && MarkupInert.Inert("tool_calls", body)
    ensures OneBlock(t)
  {
    hide FindVisible, MarkupScan.Passes, Markup.Look, IndexFrom, SkipIgnored, MarkupInert.Inert;
    var n := 12 + |body|;
    WrapperChars(t, body);
    assert MarkupScan.Sub(t, 12, body);
    InertPasses(t, 12, body);
    PassesClose(t, "tool_calls", 12, n);
    assert "</" + "tool_calls" + ">" == WRAPPER_CLOSE;
    WrapperOpens(t);
    CloseIsVisible(t, n);
    assert t[0..|t|] == t;
    assert n + |WRAPPER_CLOSE| == |t|;
  }

  lemma InertPasses(t: string, i: nat, body: string)
    requires MarkupInert.Inert("tool_calls", body) && MarkupScan.Sub(t, i, body)
    ensures MarkupScan.Passes(t, "tool_calls", i, i + |body|)
  {
  }

  lemma WrapperChars(t: string, body: string)
    requires t == "<tool_calls>" + body + "</tool_calls>"
    ensures |t| == |body| + 25
    ensures t[..12] == "<tool_calls>" && t[12..12 + |body|] == body && t[12 + |body|..] == "</tool_calls>"
  {
  }

  lemma WrapperOpens(t: string)
    requires |t| >= 12 && t[..12] == "<tool_calls>"
    ensures At(t, 0, WRAPPER) && TagAt(t, 0) && IndexFrom(t, WRAPPER, 0) == 0
    ensures FindVisible(t, WRAPPER_CLOSE, 11) == FindVisible(t, WRAPPER_CLOSE, 12)
  {
    hide SkipIgnored, IndexFrom;
    assert "<tool_calls>"[..11] == WRAPPER;
    forall k | 0 <= k < |WRAPPER| ensures LowerChar(t[0 + k]) == WRAPPER[k] {
      assert t[k] == t[..12][k] == "<tool_calls>"[k] == "<tool_calls>"[..11][k];
    }
    assert t[11] == t[..12][11] == '>';
    NotIgnored(t, 11);
    assert !At(t, 11, WRAPPER_CLOSE) by {
      if At(t, 11, WRAPPER_CLOSE) {
        AtChar(t, 11, WRAPPER_CLOSE, 0);
      }
    }
  }

  lemma NotIgnored(t: string, i: nat)
    requires i < |t| && (t[i] != '<' || (i + 1 < |t| && t[i + 1] == '/'))
    ensures SkipIgnored(t, i).Visible?
  {
    if At(t, i, CDATA_OPEN) {
      AtChar(t, i, CDATA_OPEN, 0);
      AtChar(t, i, CDATA_OPEN, 1);
    }
    if At(t, i, COMMENT_OPEN) {
      AtChar(t, i, COMMENT_OPEN, 0);
      AtChar(t, i, COMMENT_OPEN, 1);
    }
  }

  lemma CloseIsVisible(t: string, n: nat)
    requires n + 13 <= |t| && t[n..] == "</tool_calls>"
    ensures FindVisible(t, WRAPPER_CLOSE, n) == n
  {
    hide SkipIgnored;
    forall k | 0 <= k < |WRAPPER_CLOSE| ensures LowerChar(t[n + k]) == WRAPPER_CLOSE[k] {
      assert t[n + k] == t[n..][k];
    }
    assert t[n + 1] == t[n..][1];
    NotIgnored(t, n);
  }

  /** A call as the sieve delivers it; `encode` renders its input. */
  function Delivery(encode: TC.Parsed -> ToolCall, calls: seq<TC.Parsed>): seq<ToolCall> {
    seq(|calls|, i requires 0 <= i < |calls| => encode(calls[i]))
  }

  /** The tool-call parser and the repair of broken markup, as the sieve uses them. */
  function StreamParser(e: TC.Engine, encode: TC.Parsed -> ToolCall): Parser {
    Parser(
      (block: string) => Delivery(encode, TR.ParseReply(e, block)),
      (block: string) => Delivery(encode, TR.TryRepair(e, block)))
  }

  /** A rendering is one block, or nothing if no call has a name. */
  lemma {:induction false} RenderingIsOneBlock(json: seq<(string, string)> -> string, calls: seq<TC.Call>)
    requires TC.RenderCalls(json, calls) != []
    ensures OneBlock(TC.Format(json, calls))
  {
    hide OneBlock, MarkupInert.Inert, TC.RenderCalls, TC.Join, RT.Rest;
    var blocks := TC.RenderCalls(json, calls);
    RT.RenderedLines(json, calls);
    RT.JoinedLines(blocks);
    RT.RestIsInert(json, calls);
    FormatText(TC.Join(blocks));
    WrapperIsOneBlock(TC.Format(json, calls), RT.Rest(json, calls));
  }

  /** Rendered calls, streamed back in any chunks: either what the parser makes of the whole
      rendering is delivered at once and no text is shown, or nothing is recognised and the rendering
      is shown as it is. */
  lemma {:induction false} RenderingStreams(e: TC.Engine, encode: TC.Parsed -> ToolCall,
                                            json: seq<(string, string)> -> string, calls: seq<TC.Call>,
                                            chunks: seq<string>)
    requires Concat(chunks) == TC.Format(json, calls)
    ensures var p, t := StreamParser(e, encode), TC.Format(json, calls);
      var out := if t == "" then [] else p.Recognise(t);
      && TextOf(Stream(p, chunks)) == (if out == [] then t else "")
      && CallLists(Stream(p, chunks)) == if out == [] then [] else [out]
  {
    hide Stream, OneBlock, TextOf, CallLists, Parser.Recognise, StreamParser, TC.RenderCalls, TC.Format;
    if TC.Format(json, calls) == "" {
      EmptyStream(StreamParser(e, encode), chunks);
    } else {
      RC.FormatOfNone(json, calls);
      RenderingIsOneBlock(json, calls);
      FirstOfTwo(StreamParser(e, encode), TC.Format(json, calls));
      OneBlockStream(StreamParser(e, encode), chunks);
    }
  }

  lemma RecognisesReply(e: TC.Engine, encode: TC.Parsed -> ToolCall, t: string)
    requires TR.ParseReply(e, t) != []
    ensures StreamParser(e, encode).Recognise(t) == Delivery(encode, TR.ParseReply(e, t)) != []
  {
    hide TR.ParseReply;
  }

  lemma {:induction false} ReplyStreams(e: TC.Engine, encode: TC.Parsed -> ToolCall,
                                        json: seq<(string, string)> -> string, calls: seq<TC.Call>,
                                        chunks: seq<string>, read: seq<TC.Parsed>)
    requires Concat(chunks) == TC.Format(json, calls) != ""
    requires TR.ParseReply(e, TC.Format(json, calls)) == read != []
    ensures var p := StreamParser(e, encode);
      TextOf(Stream(p, chunks)) == "" && CallLists(Stream(p, chunks)) == [Delivery(encode, read)]
  {
    hide *;
    RecognisesReply(e, encode, TC.Format(json, calls));
    RenderingStreams(e, encode, json, calls, chunks);
  }

  lemma DeliveryOf(encode: TC.Parsed -> ToolCall, c: TC.Parsed)
    ensures Delivery(encode, [c]) == [encode(c)]
  {
  }

  /** If no fence opens in the names, or in a value whose section the scan for fences misses, no text
      is shown and the calls shown are delivered, in order and at once, but for reads of a path that
      has been read: all of them exactly if no path is read twice. */
  lemma {:induction false} RenderedCallsStream(e: TC.Engine, encode: TC.Parsed -> ToolCall,
                                               json: seq<(string, string)> -> string, calls: seq<TC.Call>,
                                               chunks: seq<string>)
    requires Concat(chunks) == TC.Format(json, calls) && FC.QuietCalls(json, calls)
    ensures var p, read := StreamParser(e, encode), RT.ReadCalls(e, json, calls);
      && TextOf(Stream(p, chunks)) == ""
      && CallLists(Stream(p, chunks)) ==
           (if read == [] then [] else [Delivery(encode, TR.WithoutRepeats(e, read))])
      && (Delivery(encode, TR.WithoutRepeats(e, read)) == Delivery(encode, read) <==> TR.NoRepeats(e, read))
  {
    hide Stream, TextOf, CallLists, TC.RenderCalls, TC.Format, FC.QuietCalls, RT.ReadCalls;
    hide TR.ParseReply, TR.WithoutRepeats, TR.NoRepeats;
    var read := RT.ReadCalls(e, json, calls);
    RC.SomeRead(e, json, calls);
    TR.NothingDroppedIff(e, read);
    RC.FormatOfNone(json, calls);
    if TC.RenderCalls(json, calls) == [] {
      RT.NothingRendered(e, json, calls);
      EmptyStream(StreamParser(e, encode), chunks);
    } else {
      RC.FormatTrims(json, calls);
      RC.ReplyReadsBack(e, json, calls);
      ReplyStreams(e, encode, json, calls, chunks, TR.WithoutRepeats(e, read));
      NothingReadIsNothing(e, json, calls);
    }
  }

  lemma NothingReadIsNothing(e: TC.Engine, json: seq<(string, string)> -> string, calls: seq<TC.Call>)
    requires TC.RenderCalls(json, calls) != []
    ensures RT.ReadCalls(e, json, calls) != []
  {
    hide TC.RenderCalls, RT.ReadCalls;
    RC.SomeRead(e, json, calls);
  }

  /** One of two rendered reads of one file is delivered. */
  lemma {:induction false} RepeatedReadIsLost(e: TC.Engine, encode: TC.Parsed -> ToolCall, chunks: seq<string>)
    requires RT.FirstIsEntry(e) && Concat(chunks) == TC.Format(RC.JSON, [RC.READ, RC.READ])
    ensures var read := TC.Parsed("Read", map["path" := TC.Str("/a")]);
      && RT.ReadCalls(e, RC.JSON, [RC.READ, RC.READ]) == [read, read]
      && CallLists(Stream(StreamParser(e, encode), chunks)) == [[encode(read)]]
  {
    hide *;
    var read := TC.Parsed("Read", map["path" := TC.Str("/a")]);
    RC.RepeatedReadIsDropped(e);
    ReplyStreams(e, encode, RC.JSON, [RC.READ, RC.READ], chunks, [read]);
    DeliveryOf(encode, read);
  }

  /** A fenced part of a value is lost behind a name with a fence marker. */
  lemma {:induction false} ExposedFenceIsLost(e: TC.Engine, encode: TC.Parsed -> ToolCall, chunks: seq<string>)
    requires RT.FirstIsEntry(e) && Concat(chunks) == TC.Format(RC.JSON, [TC.Call("T", [(RC.KEY, RC.FENCED)])])
    ensures var calls := [TC.Call("T", [(RC.KEY, RC.FENCED)])];
      && RT.ReadCalls(e, RC.JSON, calls) == [TC.Parsed("T", map[RC.KEY := TC.Str(RC.FENCED)])]
      && CallLists(Stream(StreamParser(e, encode), chunks))
           == [[encode(TC.Parsed("T", map[RC.KEY := TC.Str(RC.UNFENCED)]))]]
  {
    hide *;
    var calls := [TC.Call("T", [(RC.KEY, RC.FENCED)])];
    var read := TC.Parsed("T", map[RC.KEY := TC.Str(RC.UNFENCED)]);
    RC.ExposedFenceIsCut(e);
    RC.OneRead(e, RC.FENCED);
    RC.FormatTrims(RC.JSON, calls);
    ReplyStreams(e, encode, RC.JSON, calls, chunks, [read]);
    DeliveryOf(encode, read);
  }

  lemma FormatText(lines: string)
    ensures "<tool_calls>\n" + lines + "\n</tool_calls>" == "<tool_calls>" + ("\n" + lines + "\n") + "</tool_calls>"
  {
  }
}
