/** Concrete streams for which the sieve depends on how they are cut into chunks. */
module SieveLimits {
  import opened Options
  import opened Text
  import opened CodeFence
  import opened SieveModel
  import opened SieveConservation
  import opened SieveRuns
  import opened SieveReference
  import opened SieveChunks
  import opened SieveSteady

  const BLOCK := "<tool_calls></tool_calls>"

  /** An empty wrapper is a complete block, whatever follows it. */
  lemma BlockCloses(t: string)
    ensures TagAt(BLOCK + t, 0) && IndexFrom(BLOCK + t, WRAPPER, 0) == 0
    ensures FindVisible(BLOCK + t, WRAPPER_CLOSE, |WRAPPER|) == |WRAPPER| + 1
  {
    var u := BLOCK + t;
    assert BLOCK[..11] == WRAPPER && BLOCK[12..] == WRAPPER_CLOSE && BLOCK[11] == '>';
    forall k | 0 <= k < |WRAPPER| ensures LowerChar(u[0 + k]) == WRAPPER[k] {
      assert u[k] == BLOCK[k] == BLOCK[..11][k];
    }
    forall k | 0 <= k < |WRAPPER_CLOSE| ensures LowerChar(u[12 + k]) == WRAPPER_CLOSE[k] {
      assert u[12 + k] == BLOCK[12 + k] == BLOCK[12..][k];
    }
    assert At(u, 0, WRAPPER) && At(u, 12, WRAPPER_CLOSE) && u[11] == '>';
    CloseShows(u);
  }

  lemma CloseShows(u: string)
    requires |u| > 11 && At(u, 12, WRAPPER_CLOSE) && u[11] == '>'
    ensures FindVisible(u, WRAPPER_CLOSE, 11) == 12
  {
    assert CDATA_OPEN[0] == COMMENT_OPEN[0] == WRAPPER_CLOSE[0] == '<' && CDATA_OPEN[1] == COMMENT_OPEN[1] == '!';
    assert WRAPPER_CLOSE[1] == '/' && LowerChar(u[12 + 1]) == '/';
    assert SkipIgnored(u, 11).Visible? && !At(u, 11, WRAPPER_CLOSE);
    assert SkipIgnored(u, 12).Visible?;
  }

  lemma {:induction false} BlockConsumed(t: string)
    ensures Consume(EAGER, BLOCK + t) == Ready("", [CALL], t)
  {
    hide FindVisible, IndexFrom, At;
    var u := BLOCK + t;
    BlockCloses(t);
    assert u[..0] == "" && u[0..25] == BLOCK && u[25..] == t;
    NoTicksNoFence("");
    TrimsBoth("", t);
  }

  /** A fresh sieve given text that starts with a tool tag captures all of it. */
  lemma {:induction false} CapturesAtOnce(p: Parser, st: State, u: string)
    requires Open(st.fence) && !st.capturing && st.capture == "" && TagAt(u, 0)
    ensures var captured := State("", u, true, st.fence, st.waiting);
      && Drain(p, st.(pending := u)) == Drain(p, captured)
      && Recognised(p, st.(pending := u)) == Recognised(p, captured)
  {
    hide Consume, SafeLength, TagAt;
    assert u[..0] == "" && u[0..] == u && "" + u == u;
    TagHead(u, 0);
    assert SegmentStart(st.fence, u, 0) == 0;
    var captured := State("", u, true, st.fence, st.waiting);
    assert Text1("") + Drain(p, captured).1 == Drain(p, captured).1;
  }

  /** A fresh sieve given a block: the block is recognised, then what follows it is drained. */
  lemma {:induction false} BlockRecognised(st: State, t: string)
    requires Open(st.fence) && !st.capturing && st.capture == ""
    ensures var fed := st.(pending := BLOCK + t);
      var next := State(t, "", false, st.fence, [CALL]);
      Recognised(EAGER, fed) == [[CALL]] + Recognised(EAGER, next) && Drain(EAGER, fed) == Drain(EAGER, next)
  {
    hide Consume, SafeLength, SegmentStart, TagAt;
    var u := BLOCK + t;
    BlockCloses(t);
    CapturesAtOnce(EAGER, st, u);
    BlockConsumed(t);
    assert u + "" == u;
    var next := State(t, "", false, st.fence, [CALL]);
    assert Text1("") + Drain(EAGER, next).1 == Drain(EAGER, next).1;
  }

  lemma {:induction false} OneBlock(st: State)
    requires Open(st.fence) && !st.capturing && st.capture == ""
    ensures var fed := st.(pending := BLOCK);
      Recognised(EAGER, fed) == [[CALL]] && Drain(EAGER, fed).0 == State("", "", false, st.fence, [CALL])
  {
    assert BLOCK + "" == BLOCK;
    BlockRecognised(st, "");
  }

  lemma {:induction false} TwoBlocks(st: State)
    requires Open(st.fence) && !st.capturing && st.capture == ""
    ensures Recognised(EAGER, st.(pending := BLOCK + BLOCK)) == [[CALL], [CALL]]
  {
    hide Recognised;
    BlockRecognised(st, BLOCK);
    OneBlock(State(BLOCK, "", false, st.fence, [CALL]));
  }

  lemma LastsOf(a: seq<seq<ToolCall>>, b: seq<seq<ToolCall>>)
    ensures Lasts([a, b]) == LastOf(a) + LastOf(b)
  {
    assert [a, b][1..] == [b] && [b][1..] == [];
    assert Lasts([b]) == LastOf(b) + [] == LastOf(b);
  }

  /** Two complete blocks in one chunk: the calls of the first are lost, while the same text in two
      chunks delivers both. */
  lemma {:induction false} TwoBlocksLoseOne()
    ensures CallLists(Stream(EAGER, [BLOCK + BLOCK])) == [[CALL]]
    ensures CallLists(Stream(EAGER, [BLOCK, BLOCK])) == [[CALL], [CALL]]
  {
    hide Drain, Recognised, Stream;
    var joined, apart := [BLOCK + BLOCK], [BLOCK, BLOCK];
    assert START.pending + (BLOCK + BLOCK) == BLOCK + BLOCK && START.pending + BLOCK == BLOCK;
    TwoBlocks(START.(waiting := []));
    assert joined[1..] == [];
    assert RecognisedPerChunk(EAGER, START, joined) == [[[CALL], [CALL]]];
    StreamDeliversLasts(EAGER, joined);
    OneBlock(START);
    var st := Process(EAGER, START, BLOCK).0;
    assert START.(pending := START.pending + BLOCK, waiting := []) == START.(pending := BLOCK);
    OneBlock(st.(waiting := []));
    assert st.pending + BLOCK == BLOCK;
    assert apart[1..] == [BLOCK] && [BLOCK][1..] == [];
    assert RecognisedPerChunk(EAGER, st, [BLOCK]) == [[[CALL]]];
    assert RecognisedPerChunk(EAGER, START, apart) == [[[CALL]], [[CALL]]];
    StreamDeliversLasts(EAGER, apart);
    LastsOf([[CALL]], [[CALL]]);
  }

  /** Text without '<' is released at once. */
  lemma PlainChunk(st: State, s: string)
    requires !st.capturing && s != "" && forall i :: 0 <= i < |s| ==> s[i] != '<'
    ensures var fed := st.(pending := s);
      Recognised(EAGER, fed) == [] && Drain(EAGER, fed).0 == st.(pending := "", fence := Note(st.fence, s))
  {
    hide Note, Feed;
    forall j ensures !TagAt(s, j) && !At(s, j, "<") {
      assert WRAPPER[0] == INVOKE[0] == '<';
      if 0 <= j < |s| {
        assert LowerChar(s[j + 0]) != '<';
      }
    }
    var fed := st.(pending := s);
    SegmentSkips(st.fence, s, 0, |s|);
    assert PartialTag(s) == -1 && SafeLength(st.fence, s) == |s|;
    assert s[..|s|] == s && s[|s|..] == "";
    var next := st.(pending := "", fence := Note(st.fence, s));
    assert Drain(EAGER, next) == (next, []) && Recognised(EAGER, next) == [];
  }

  const FENCED := "```\n" + BLOCK

  lemma FencedTags(i: nat)
    requires i < |FENCED|
    ensures TagAt(FENCED, i) <==> i == 4
  {
    hide TagAt, IndexFrom, FindVisible;
    BlockCloses("");
    assert BLOCK + "" == BLOCK;
    TagShift("```\n", BLOCK, 0);
    assert FENCED[17] == '/';
    assert FENCED[i] == '<' ==> i == 4 || i == 16;
    if i != 4 && TagAt(FENCED, i) {
      TagHead(FENCED, i);
    }
  }

  lemma TagHead(s: string, i: int)
    requires TagAt(s, i)
    ensures 0 <= i && i + 1 < |s| && s[i] == '<' && s[i + 1] != '/'
  {
    var name := if At(s, i, WRAPPER) then WRAPPER else INVOKE;
    AtChar(s, i, name, 0);
    AtChar(s, i, name, 1);
  }

  lemma {:induction false} FeedFenceLine(f: Fence)
    ensures Feed(f, "```\n") == Step(f.(ticks := f.ticks + 3), '\n')
  {
    hide FlushTicks;
    assert "```\n"[..3] == "```" && "```"[..2] == "``" && "``"[..1] == "`" && "`"[..0] == "";
    assert Feed(f, "`") == Step(Feed(f, ""), '`');
    assert Feed(f, "``") == Step(Feed(f, "`"), '`');
    assert Feed(f, "```") == Step(Feed(f, "``"), '`') == f.(ticks := f.ticks + 3);
  }

  /** The fence before the block is seen only by a sieve that knows a line has just begun. */
  lemma {:induction false} FencedBlock(st: State)
    requires st.fence.stack == [] && st.fence.ticks == 0 && !st.capturing && st.capture == ""
    ensures Recognised(EAGER, st.(pending := FENCED)) == if st.fence.lineStart then [] else [[CALL]]
  {
    hide Consume, TagAt, Feed, Recognised, Note;
    var fed := st.(pending := FENCED);
    assert FENCED[..4] == "```\n" && FENCED[4..] == BLOCK;
    FeedFenceLine(st.fence);
    if st.fence.lineStart {
      assert Inside(st.fence, FENCED[..4]);
      forall i | 0 <= i < |FENCED| ensures !(TagAt(FENCED, i) && !Inside(st.fence, FENCED[..i])) {
        FencedTags(i);
      }
      SegmentSkips(st.fence, FENCED, 0, |FENCED|);
      FencedEnds();
      DrainsWhole(fed);
    } else {
      forall i | 0 <= i <= 4 ensures TagAt(FENCED, i) <==> i == 4 {
        FencedTags(i);
      }
      SegmentAt(st.fence, FENCED, 0, 4);
      var captured := State("", "" + BLOCK, true, Note(st.fence, FENCED[..4]), st.waiting);
      CapturedBlock(captured);
      StepToCapture(fed, captured);
    }
  }

  lemma {:induction false} SegmentAt(f: Fence, s: string, i: nat, k: nat)
    requires i <= k < |s| && TagAt(s, k) && !Inside(f, s[..k])
    requires forall j :: i <= j < k ==> !TagAt(s, j)
    ensures SegmentStart(f, s, i) == k
    decreases k - i
  {
    hide TagAt, Inside;
    if i < k {
      SegmentAt(f, s, i + 1, k);
    }
  }

  lemma FencedEnds()
    ensures PartialTag(FENCED) == -1
  {
    var k := LastIndexOf(FENCED, "<");
    assert FENCED[28] == '>' && |FENCED| == 29;
    if k >= 0 {
      AtChar(FENCED, k, "<", 0);
      assert FENCED[k..][28 - k] == '>';
    }
  }

  lemma DrainsWhole(st: State)
    requires !st.capturing && st.pending != ""
    requires SegmentStart(st.fence, st.pending, 0) < 0 && PartialTag(st.pending) < 0
    ensures Recognised(EAGER, st) == []
  {
    hide SegmentStart, PartialTag, Note;
    var n := |st.pending|;
    var next := st.(pending := st.pending[n..], fence := Note(st.fence, st.pending[..n]));
    assert next.pending == "" && Recognised(EAGER, next) == [];
  }

  lemma {:induction false} CapturedBlock(st: State)
    requires st.capturing && st.capture == BLOCK && st.pending == ""
    ensures Recognised(EAGER, st) == [[CALL]]
  {
    hide Consume, Note, SegmentStart, SafeLength;
    assert st.capture + st.pending == BLOCK + "";
    BlockConsumed("");
    var next := State("", "", false, Note(st.fence, ""), [CALL]);
    assert Recognised(EAGER, next) == [];
  }

  lemma StepToCapture(st: State, captured: State)
    requires !st.capturing && st.capture == "" && st.pending != "" && SegmentStart(st.fence, st.pending, 0) >= 0
    requires var k := SegmentStart(st.fence, st.pending, 0);
      captured == State("", "" + st.pending[k..], true, Note(st.fence, st.pending[..k]), st.waiting)
    ensures Recognised(EAGER, st) == Recognised(EAGER, captured)
  {
    hide Consume, Note, SegmentStart, SafeLength;
  }

  const LURE := "<invoke >```"

  lemma LureChars(u: string)
    requires |u| >= 12 && u[..12] == LURE
    ensures u[0] == '<' && u[1] == 'i' && u[2] == 'n' && u[3] == 'v'
    ensures u[4] == 'o' && u[5] == 'k' && u[6] == 'e' && u[7] == ' '
    ensures forall i :: 0 < i < 12 ==> u[i] != '<'
  {
    assert forall i :: 0 <= i < 12 ==> u[i] == u[..12][i] == LURE[i];
  }

  lemma LureTag(u: string)
    requires |u| >= 12 && u[..12] == LURE
    ensures TagAt(u, 0) && forall i :: 0 <= i < 12 ==> !At(u, i, WRAPPER)
  {
    LureChars(u);
    forall k | 0 <= k < |INVOKE| ensures LowerChar(u[0 + k]) == INVOKE[k] {
    }
    assert At(u, 0, INVOKE);
    forall i | 0 <= i < 12 ensures !At(u, i, WRAPPER) {
      if At(u, i, WRAPPER) {
        AtChar(u, i, WRAPPER, 0);
        AtChar(u, i, WRAPPER, 1);
      }
    }
  }

  lemma {:induction false} LuredBlock(t: string)
    ensures var u := LURE + (BLOCK + t); TagAt(u, 0) && FirstBlock(u) == Some(Span(12, 37, BLOCK))
  {
    hide FindVisible, IndexFrom, At, TagAt;
    var y := BLOCK + t;
    var u := LURE + y;
    assert u[..12] == LURE;
    LureTag(u);
    BlockCloses(t);
    assert At(y, 0, WRAPPER);
    AtShift(LURE, y, 0, WRAPPER);
    assert IndexFrom(u, WRAPPER, 0) == 12;
    BlockShift(LURE, y);
    assert y[0..25] == BLOCK;
  }

  lemma TicksIn(s: string, i: int)
    requires At(s, i, TICKS)
    ensures 0 <= i && i + 3 <= |s| && s[i] == '`'
  {
    AtChar(s, i, TICKS, 0);
  }

  lemma LureTicks()
    ensures At(LURE, 9, TICKS) && forall i :: At(LURE, i, TICKS) ==> i == 9
  {
    assert LURE[9] == '`' && LURE[10] == '`' && LURE[11] == '`';
    assert forall i :: 0 <= i < 9 ==> LURE[i] != '`';
    forall i | At(LURE, i, TICKS) ensures i == 9 {
      TicksIn(LURE, i);
    }
  }

  lemma LureOpens()
    ensures OpensFence(LURE) && TrimFence(LURE, "```") == ("<invoke >", "")
  {
    hide At, LastIndexUpTo, IndexFrom, TrimSpace, CountTicks;
    assert LURE[11] == '`' && TrimRight(LURE, LINE_SPACES) == LURE;
    LureTicks();
    assert LastIndexOf(LURE, TICKS) == 9;
    assert LURE[..12] == LURE && LURE[12..] == "" && LURE[..9] == "<invoke >";
    EmptyTrims();
    OneTriple();
    ThreeTicks();
  }

  lemma ThreeTicks()
    ensures TrimLeft("```", LINE_SPACES) == "```" && "```"[3..] == "" && At("```", 0, TICKS)
  {
  }

  lemma OneTriple()
    ensures CountTicks(LURE, 0) == 1
  {
    hide At;
    LureTicks();
    assert IndexFrom(LURE, TICKS, 0) == 9;
    assert IndexFrom(LURE, TICKS, 12) < 0;
    assert CountTicks(LURE, 12) == 0;
  }

  lemma {:induction false} LureConsumed(t: string)
    requires t == "" || t == "```"
    ensures var u := LURE + (BLOCK + t);
      TagAt(u, 0) && Consume(EAGER, u) == Ready(if t == "" then LURE else "<invoke >", [CALL], "")
  {
    hide Consume, FirstBlock, TrimFence, OpensFence, ClosesFence, TagAt;
    var u := LURE + (BLOCK + t);
    LuredBlock(t);
    ConsumeIsTurn(EAGER, u);
    LureOpens();
    assert !ClosesFence("") by { NothingCloses(); }
    TrimsBoth(LURE, "");
    LureSlices(t);
  }

  lemma LureSlices(t: string)
    ensures var u := LURE + (BLOCK + t); u[..12] == LURE && u[37..] == t && |u| >= 37
  {
    assert LURE + (BLOCK + t) == (LURE + BLOCK) + t && |LURE + BLOCK| == 37;
  }

  lemma NothingCloses()
    ensures !ClosesFence("")
  {
  }

  /** What is released of a block behind an opening fence: the fence as well, unless the closing
      fence has arrived. */
  lemma {:induction false} LureReleased(t: string)
    requires t == "" || t == "```"
    ensures var fed := START.(pending := LURE + (BLOCK + t));
      Drain(EAGER, fed) == (State("", "", false, Drain(EAGER, fed).0.fence, [CALL]),
                            [Content(if t == "" then LURE else "<invoke >")])
  {
    hide Consume, SegmentStart, SafeLength, TagAt, Note;
    var u := LURE + (BLOCK + t);
    LureConsumed(t);
    CapturesAtOnce(EAGER, START, u);
    var prefix := if t == "" then LURE else "<invoke >";
    DrainBlock(u, prefix);
  }

  lemma {:induction false} DrainBlock(u: string, prefix: string)
    requires Consume(EAGER, u) == Ready(prefix, [CALL], "")
    ensures Drain(EAGER, State("", u, true, INITIAL, []))
         == (State("", "", false, Note(INITIAL, prefix), [CALL]), Text1(prefix))
  {
    hide Consume, SegmentStart, SafeLength, Note;
    assert u + "" == u;
    var next := State("", "", false, Note(INITIAL, prefix), [CALL]);
    assert Drain(EAGER, next) == (next, []);
    assert Text1(prefix) + [] == Text1(prefix);
  }

  /** A closing fence that arrives late is shown, together with its opening fence; both are removed
      with the block when they arrive with it. */
  lemma {:induction false} LateFenceIsShown()
    ensures TextOf(Stream(EAGER, [LURE + (BLOCK + "```")])) == "<invoke >"
    ensures LURE <= TextOf(Stream(EAGER, [LURE + (BLOCK + ""), "```"]))
  {
    hide Drain, Run, Flush, TextOf, RecognisedPerChunk;
    var joined, apart := [LURE + (BLOCK + "```")], [LURE + (BLOCK + ""), "```"];
    assert START.pending + joined[0] == joined[0] && START.pending + apart[0] == apart[0];
    LureReleased("```");
    LureReleased("");
    assert START.(waiting := []) == START;
    var st := Drain(EAGER, START.(pending := joined[0])).0;
    RunOne(EAGER, START, joined);
    assert joined[1..] == [];
    NothingRun(EAGER, INITIAL, st);
    DrainSettles(EAGER, START.(pending := joined[0]));
    var last := LastPieces(EAGER, st);
    TextOfAppend(Run(EAGER, START, joined).1, Flush(EAGER, st));
    EventTexts([], "<invoke >");
    EventTexts([], LURE);
    RunOne(EAGER, START, apart);
    TextOfAppend(Run(EAGER, START, apart).1, Flush(EAGER, Run(EAGER, START, apart).0));
  }

  lemma {:induction false} FenceSeen()
    ensures CallLists(Stream(EAGER, ["a\n", FENCED])) == []
  {
    hide Drain, Recognised, Stream, Feed, Note;
    var together := ["a\n", FENCED];
    NotesOf();
    PlainChunk(START, "a\n");
    assert "" + "a\n" == "a\n" && "" + FENCED == FENCED;
    var st := Process(EAGER, START, "a\n").0;
    FencedBlock(st.(waiting := []));
    assert together[1..] == [FENCED] && [FENCED][1..] == [];
    assert RecognisedPerChunk(EAGER, st, [FENCED]) == [[]];
    assert RecognisedPerChunk(EAGER, START, together) == [[], []];
    StreamDeliversLasts(EAGER, together);
    LastsOf([], []);
  }

  lemma {:induction false} FenceMissed()
    ensures CallLists(Stream(EAGER, ["a", "\n", FENCED])) == [[CALL]]
  {
    hide Drain, Recognised, Stream, Feed, Note;
    var alone := ["a", "\n", FENCED];
    NotesOf();
    assert "" + "a" == "a" && "" + "\n" == "\n" && "" + FENCED == FENCED;
    PlainChunk(START, "a");
    var st1 := Process(EAGER, START, "a").0;
    PlainChunk(st1.(waiting := []), "\n");
    var st2 := Process(EAGER, st1, "\n").0;
    FencedBlock(st2.(waiting := []));
    assert alone[1..] == ["\n", FENCED] && ["\n", FENCED][1..] == [FENCED];
    assert RecognisedPerChunk(EAGER, st2, [FENCED]) == [[[CALL]]];
    assert RecognisedPerChunk(EAGER, st1, ["\n", FENCED]) == [[], [[CALL]]];
    assert RecognisedPerChunk(EAGER, START, alone) == [[], [], [[CALL]]];
    StreamDeliversLasts(EAGER, alone);
    LastsOf([], [[CALL]]);
    assert RecognisedPerChunk(EAGER, START, alone)[1..] == [[], [[CALL]]];
  }

  /** With code fences the chunking shows: a line break that arrives alone is not noted, so the
      fence on the next line is missed and the fenced block is taken for a tool call. */
  lemma {:induction false} FencesDependOnChunks()
    ensures Concat(["a\n", FENCED]) == Concat(["a", "\n", FENCED])
    ensures CallLists(Stream(EAGER, ["a\n", FENCED])) == []
    ensures CallLists(Stream(EAGER, ["a", "\n", FENCED])) == [[CALL]]
  {
    hide Stream;
    FenceSeen();
    FenceMissed();
    assert ["a\n", FENCED][1..] == [FENCED] && ["\n", FENCED][1..] == [FENCED];
    assert ["a", "\n", FENCED][1..] == ["\n", FENCED];
    assert "a\n" == "a" + "\n";
  }

  lemma NotesOf()
    ensures Note(INITIAL, "a\n") == Fence([], 0, true)
    ensures Note(INITIAL, "a") == INITIAL
    ensures Note(INITIAL, "\n") == INITIAL
  {
    assert "a\n"[..1] == "a" && "a"[..0] == "" && "\n"[1..] == "";
    assert TrimLeft("a", SPACES) == "a" && TrimLeft("a\n", SPACES) == "a\n" && TrimLeft("\n", SPACES) == "";
    assert TrimRight("a", SPACES) == "a" && TrimRight("a\n", SPACES) == "a";
    assert Feed(INITIAL, "a") == Step(Feed(INITIAL, ""), 'a');
  }
}
