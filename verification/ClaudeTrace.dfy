/** The traces of the Claude event stream: their grammar, and what their deltas add up to. */
module ClaudeTrace {
  import opened ClaudeStream

  // The grammar of a message.

  /** Where a reader of the events stands. */
  datatype Place =
    | Before
    | Between(next: int)
    | Inside(index: int, kind: BlockKind, next: int)
    | Closing
    | Done
    | Aborted
    | Lost

  /** Blocks are numbered from 0 without gaps, one is open at a time, a delta belongs to the open
      block and suits its kind; the message ends between two blocks. */
  function Read(p: Place, e: Event): Place {
    match e
    case MessageStart => if p.Before? then Between(0) else Lost
    case Start(i, k) => if p.Between? && i == p.next then Inside(i, k, i + 1) else Lost
    case ThinkingDelta(i, _) => if p.Inside? && i == p.index && p.kind.Thinking? then p else Lost
    case TextDelta(i, _) => if p.Inside? && i == p.index && p.kind.Text? then p else Lost
    case InputDelta(i, _) => if p.Inside? && i == p.index && p.kind.ToolUse? then p else Lost
    case Stop(i) => if p.Inside? && i == p.index then Between(p.next) else Lost
    case MessageDelta(_, _) => if p.Between? then Closing else Lost
    case MessageStop => if p.Closing? then Done else Lost
    case Failure(_) => if p.Between? || p.Inside? then Aborted else Lost
    case Ping => if p.Between? || p.Inside? then p else Lost
  }

  function ReadAll(p: Place, es: seq<Event>): Place
    decreases |es|
  {
    if es == [] then p else ReadAll(Read(p, es[0]), es[1..])
  }

  lemma {:induction false} ReadJoin(p: Place, a: seq<Event>, b: seq<Event>)
    ensures ReadAll(p, a + b) == ReadAll(ReadAll(p, a), b)
    decreases |a|
  {
    hide Read;
    if a == [] {
      assert a + b == b;
    } else {
      assert (a + b)[1..] == a[1..] + b;
      ReadJoin(Read(p, a[0]), a[1..], b);
    }
  }

  lemma ReadOne(p: Place, a: seq<Event>, e: Event)
    ensures ReadAll(p, a + [e]) == Read(ReadAll(p, a), e)
  {
    hide Read;
    ReadJoin(p, a, [e]);
    assert ReadAll(ReadAll(p, a), [e]) == ReadAll(Read(ReadAll(p, a), e), [e][1..]);
  }

  // What the deltas add up to.

  function ThinkingOf(es: seq<Event>): string {
    if es == [] then "" else (if es[0].ThinkingDelta? then es[0].content else "") + ThinkingOf(es[1..])
  }

  function TextOf(es: seq<Event>): string {
    if es == [] then "" else (if es[0].TextDelta? then es[0].content else "") + TextOf(es[1..])
  }

  /** The names and the inputs of the tool calls sent. */
  function NamesOf(es: seq<Event>): seq<string> {
    if es == [] then [] else (if es[0].Start? && es[0].kind.ToolUse? then [es[0].kind.name] else []) + NamesOf(es[1..])
  }

  function InputsOf(es: seq<Event>): seq<string> {
    if es == [] then [] else (if es[0].InputDelta? then [es[0].content] else []) + InputsOf(es[1..])
  }

  /** All that is said to the client. */
  datatype Content = Content(thinking: string, text: string, names: seq<string>, inputs: seq<string>)

  function ContentOf(es: seq<Event>): Content {
    Content(ThinkingOf(es), TextOf(es), NamesOf(es), InputsOf(es))
  }

  function Added(c: Content, e: Event): Content {
    match e
    case ThinkingDelta(_, t) => c.(thinking := c.thinking + t)
    case TextDelta(_, t) => c.(text := c.text + t)
    case InputDelta(_, t) => c.(inputs := c.inputs + [t])
    case Start(_, k) => if k.ToolUse? then c.(names := c.names + [k.name]) else c
    case _ => c
  }

  lemma {:induction false} ThinkingOne(es: seq<Event>, e: Event)
    ensures ThinkingOf(es + [e]) == ThinkingOf(es) + ThinkingOf([e])
  {
    if es == [] {
      assert [] + [e] == [e];
    } else {
      assert (es + [e])[1..] == es[1..] + [e];
      ThinkingOne(es[1..], e);
    }
  }

  lemma {:induction false} TextOne(es: seq<Event>, e: Event)
    ensures TextOf(es + [e]) == TextOf(es) + TextOf([e])
  {
    if es == [] {
      assert [] + [e] == [e];
    } else {
      assert (es + [e])[1..] == es[1..] + [e];
      TextOne(es[1..], e);
    }
  }

  lemma {:induction false} NamesOne(es: seq<Event>, e: Event)
    ensures NamesOf(es + [e]) == NamesOf(es) + NamesOf([e])
  {
    if es == [] {
      assert [] + [e] == [e];
    } else {
      assert (es + [e])[1..] == es[1..] + [e];
      NamesOne(es[1..], e);
    }
  }

  lemma {:induction false} InputsOne(es: seq<Event>, e: Event)
    ensures InputsOf(es + [e]) == InputsOf(es) + InputsOf([e])
  {
    if es == [] {
      assert [] + [e] == [e];
    } else {
      assert (es + [e])[1..] == es[1..] + [e];
      InputsOne(es[1..], e);
    }
  }

  lemma ContentOne(es: seq<Event>, e: Event)
    ensures ContentOf(es + [e]) == Added(ContentOf(es), e)
  {
    hide ThinkingOf, TextOf, NamesOf, InputsOf;
    ThinkingOne(es, e);
    TextOne(es, e);
    NamesOne(es, e);
    InputsOne(es, e);
    SingleContent(e);
  }

  lemma SingleContent(e: Event)
    ensures ThinkingOf([e]) == (if e.ThinkingDelta? then e.content else "")
    ensures TextOf([e]) == (if e.TextDelta? then e.content else "")
    ensures NamesOf([e]) == (if e.Start? && e.kind.ToolUse? then [e.kind.name] else [])
    ensures InputsOf([e]) == (if e.InputDelta? then [e.content] else [])
  {
    assert [e][1..] == [];
  }

  // The invariant of a run.

  function PlaceOf(s: State): Place {
    if s.thinkingOpen then Inside(s.thinkingIndex, Thinking, s.next)
    else if s.textOpen then Inside(s.textIndex, Text, s.next)
    else Between(s.next)
  }

  /** The trace so far is well-formed up to the open block, at most one block is open, and the
      deltas sent are the thinking and, unless buffered, the text. */
  predicate Sound(c: Config, s: State) {
    && !s.ended && !(s.thinkingOpen && s.textOpen)
    && (s.thinkingOpen ==> s.next == s.thinkingIndex + 1) && (s.textOpen ==> s.next == s.textIndex + 1)
    && ReadAll(Before, s.sent) == PlaceOf(s)
    && ContentOf(s.sent) == Content(s.thinking, if c.bufferToolContent then "" else s.text, [], [])
    && (c.bufferToolContent ==> !s.textOpen)
  }

  lemma InitialIsSound(c: Config)
    ensures Sound(c, INITIAL)
  {
    assert ReadAll(Before, []  + [MessageStart]) == Read(ReadAll(Before, []), MessageStart) by {
      ReadOne(Before, [], MessageStart);
    }
    assert [] + [MessageStart] == [MessageStart];
    ContentOne([], MessageStart);
  }

  /** Sending an event moves the reader by that event. */
  lemma Sending(s: State, e: Event)
    ensures var s' := Send(s, e);
      ReadAll(Before, s'.sent) == Read(ReadAll(Before, s.sent), e) && ContentOf(s'.sent) == Added(ContentOf(s.sent), e)
  {
    hide Read, Added, ContentOf;
    ReadOne(Before, s.sent, e);
    ContentOne(s.sent, e);
  }

  lemma ClosingReads(s: State)
    requires ReadAll(Before, s.sent) == PlaceOf(s) && !(s.thinkingOpen && s.textOpen)
    ensures var s' := CloseText(CloseThinking(s));
      && ReadAll(Before, s'.sent) == Between(s.next) && PlaceOf(s') == Between(s.next)
      && ContentOf(s'.sent) == ContentOf(s.sent)
  {
    hide ReadAll, ContentOf;
    if s.thinkingOpen {
      Sending(s, Stop(s.thinkingIndex));
    } else if s.textOpen {
      Sending(s, Stop(s.textIndex));
    }
  }

  lemma ThinkingKeepsSound(c: Config, s: State, piece: string)
    requires Sound(c, s)
    ensures Sound(c, TakeThinking(s, piece))
  {
    hide ReadAll, ContentOf, Trimmed;
    var t := Trimmed(s.thinking, piece);
    if t != "" {
      var grown := s.(thinking := s.thinking + t);
      if s.textOpen {
        Sending(grown, Stop(s.textIndex));
      }
      var closed := CloseText(grown);
      if !s.thinkingOpen {
        Sending(closed, Start(closed.next, Thinking));
      }
      var open := OpenThinking(closed);
      Sending(open, ThinkingDelta(open.thinkingIndex, t));
    }
  }

  lemma TextKeepsSound(c: Config, s: State, piece: string)
    requires Sound(c, s)
    ensures Sound(c, TakeText(c, s, piece))
  {
    hide ReadAll, ContentOf, Trimmed;
    var t := Trimmed(s.text, piece);
    if t != "" && !c.bufferToolContent {
      var grown := s.(text := s.text + t);
      if s.thinkingOpen {
        Sending(grown, Stop(s.thinkingIndex));
      }
      var closed := CloseThinking(grown);
      if !s.textOpen {
        Sending(closed, Start(closed.next, Text));
      }
      var open := OpenText(closed);
      Sending(open, TextDelta(open.textIndex, t));
    }
  }

  lemma {:induction false} PartsKeepSound(c: Config, s: State, ps: seq<Part>)
    requires Sound(c, s)
    ensures Sound(c, TakeParts(c, s, ps))
    decreases |ps|
  {
    hide Sound, TakeThinking, TakeText, Seen;
    if ps != [] {
      ThinkingKeepsSound(c, s, c.clean(ps[0].text));
      TextKeepsSound(c, s, c.clean(ps[0].text));
      PartsKeepSound(c, TakePart(c, s, ps[0]), ps[1..]);
    }
  }

  // The end of a message.

  function ToolNames(tools: seq<Tool>): seq<string> {
    seq(|tools|, i requires 0 <= i < |tools| => tools[i].name)
  }

  function ToolInputs(tools: seq<Tool>): seq<string> {
    seq(|tools|, i requires 0 <= i < |tools| => tools[i].input)
  }

  lemma {:induction false} ToolsRead(s: State, tools: seq<Tool>, index: int)
    requires ReadAll(Before, s.sent) == Between(index)
    ensures var sent := s.sent + ToolEvents(tools, index);
      var c := ContentOf(s.sent);
      && ReadAll(Before, sent) == Between(index + |tools|)
      && ContentOf(sent) == c.(names := c.names + ToolNames(tools), inputs := c.inputs + ToolInputs(tools))
    decreases |tools|
  {
    hide ReadAll, ContentOf, ToolNames, ToolInputs, ToolEvents;
    if tools == [] {
      NoToolEvents(tools, index);
      assert s.sent + [] == s.sent;
      NoTools();
    } else {
      var next := ToolRead(s, tools[0], index);
      ToolsRead(next, tools[1..], index + 1);
      ToolsSplit(tools, ContentOf(s.sent));
      ToolStep(tools, 0, index, s.sent);
      assert tools[0..] == tools;
    }
  }

  lemma ToolRead(s: State, t: Tool, index: int) returns (next: State)
    requires ReadAll(Before, s.sent) == Between(index)
    ensures next.sent == s.sent + [Start(index, ToolUse(t.name)), InputDelta(index, t.input), Stop(index)]
    ensures ReadAll(Before, next.sent) == Between(index + 1)
    ensures var c := ContentOf(s.sent);
      ContentOf(next.sent) == c.(names := c.names + [t.name], inputs := c.inputs + [t.input])
  {
    hide ReadAll, ContentOf;
    var a, b, z := Start(index, ToolUse(t.name)), InputDelta(index, t.input), Stop(index);
    Sending(s, a);
    Sending(Send(s, a), b);
    Sending(Send(Send(s, a), b), z);
    next := Send(Send(Send(s, a), b), z);
  }

  lemma NoTools()
    ensures ToolNames([]) == [] && ToolInputs([]) == []
  {
  }

  lemma ToolsSplit(tools: seq<Tool>, c: Content)
    requires tools != []
    ensures c.names + ToolNames(tools) == c.names + [tools[0].name] + ToolNames(tools[1..])
    ensures c.inputs + ToolInputs(tools) == c.inputs + [tools[0].input] + ToolInputs(tools[1..])
  {
  }

  /** The calls a message makes if tools were offered: those in its text; if it has no text, those
      in its thinking. */
  function CallsIn(c: Config, thinking: string, text: string): seq<Tool> {
    if !c.bufferToolContent then []
    else if text == "" && thinking != "" && |c.detect(text)| == 0 then c.detect(thinking)
    else c.detect(text)
  }

  /** What a finished message says: the thinking; the text, or the detected tools in its place;
      why it ended, and how much was written. */
  predicate SaysAll(c: Config, s: State, sent: seq<Event>, reason: string) {
    var text := c.clean(s.text);
    var tools := CallsIn(c, s.thinking, text);
    var n := |sent|;
    && ReadAll(Before, sent) == Done
    && ContentOf(sent) == Content(
         s.thinking,
         if !c.bufferToolContent then s.text else if tools != [] then "" else text,
         ToolNames(tools), ToolInputs(tools))
    && n >= 2
    && sent[n - 2]
       == MessageDelta(if tools != [] then "tool_use" else reason, c.tokens(s.thinking) + c.tokens(text))
  }

  lemma EndReads(s: State, reason: string, tokens: int)
    requires ReadAll(Before, s.sent).Between?
    ensures var sent := s.sent + [MessageDelta(reason, tokens), MessageStop];
      ReadAll(Before, sent) == Done && ContentOf(sent) == ContentOf(s.sent)
  {
    hide ReadAll, ContentOf;
    var delta := MessageDelta(reason, tokens);
    Sending(s, delta);
    Sending(Send(s, delta), MessageStop);
    assert s.sent + [delta] + [MessageStop] == s.sent + [delta, MessageStop];
  }

  lemma WholeTextReads(s: State, text: string)
    requires ReadAll(Before, s.sent) == Between(s.next)
    ensures var s' := AddWholeText(s, text);
      var c := ContentOf(s.sent);
      ReadAll(Before, s'.sent) == Between(s.next + 1) && ContentOf(s'.sent) == c.(text := c.text + text)
  {
    hide ReadAll, ContentOf;
    var a, b, z := Start(s.next, Text), TextDelta(s.next, text), Stop(s.next);
    Sending(s, a);
    Sending(Send(s, a), b);
    Sending(Send(Send(s, a), b), z);
    assert s.sent + [a] + [b] + [z] == s.sent + [a, b, z];
  }

  lemma DetectedCalls(c: Config, s: State)
    ensures (if c.bufferToolContent then Detected(c, s) else []) == CallsIn(c, s.thinking, c.clean(s.text))
  {
  }

  lemma FinalizeSaysAll(c: Config, s: State, reason: string)
    requires Sound(c, s)
    ensures var f := Finalize(c, s, reason);
      f.ended && f.text == s.text && f.thinking == s.thinking && SaysAll(c, s, f.sent, reason)
  {
    hide ReadAll, ContentOf, ToolEvents, Detected, AddTools, AddWholeText, ToolNames, ToolInputs, CallsIn,
      CloseText, CloseThinking;
    var tools := if c.bufferToolContent then Detected(c, s) else [];
    var finalText := c.clean(s.text);
    DetectedCalls(c, s);
    ClosingReads(s.(ended := true));
    ClosingKeeps(s.(ended := true));
    var closed := CloseText(CloseThinking(s.(ended := true)));
    AddingKeeps(closed, tools, finalText);
    NoTools();
    if tools != [] {
      ToolsRead(closed, tools, closed.next);
      EndReads(AddTools(closed, tools), "tool_use", Tokens(c, s.thinking, finalText));
    } else if c.bufferToolContent && finalText != "" {
      WholeTextReads(closed, finalText);
      EndReads(AddWholeText(closed, finalText), reason, Tokens(c, s.thinking, finalText));
    } else {
      EndReads(closed, reason, Tokens(c, s.thinking, finalText));
    }
  }

  lemma AddingKeeps(s: State, tools: seq<Tool>, text: string)
    ensures AddTools(s, tools).(sent := s.sent, next := s.next) == s
    ensures AddTools(s, tools).sent == s.sent + ToolEvents(tools, s.next)
    ensures AddTools(s, tools).next == s.next + |tools|
    ensures AddWholeText(s, text).(sent := s.sent, next := s.next) == s
  {
  }

  /** A second finish changes nothing. */
  lemma FinalizeTwice(c: Config, s: State, reason: string, again: string)
    ensures Finalize(c, Finalize(c, s, reason), again) == Finalize(c, s, reason)
  {
    hide AddTools, AddWholeText, Detected;
    var closed := CloseText(CloseThinking(s.(ended := true)));
    AddingKeeps(closed, Detected(c, s), c.clean(s.text));
  }

  // Whole runs.

  /** Every run: while it goes on, the trace is a well-formed beginning; if it finishes, the trace
      is a complete message; if it fails, it breaks off with the error; and in a finished message
      the deltas are the thinking and the text, or the detected tools in place of the text. */
  lemma {:induction false} EveryRunIsWellFormed(c: Config, s: State, inputs: seq<Input>)
    requires Sound(c, s)
    ensures var (f, e) := Run(c, s, inputs);
      && (e == Running || e == Abandoned ==> Sound(c, f))
      && (e == Finished ==> f.ended && SaysAll(c, f, f.sent, "end_turn"))
      && (e == Failed ==> ReadAll(Before, f.sent) == Aborted)
    decreases |inputs|
  {
    hide Finalize, SaysAll, TakeParts, Reported, ReadAll, ContentOf;
    if inputs != [] {
      match inputs[0]
      case Arrives(line) =>
        var (s', d) := OnParsed(c, s, line);
        PartsKeepSound(c, s, line.parts);
        assert Sound(c, s');
        FinalizeSaysAll(c, s', "end_turn");
        SameContents(c, s', Finalize(c, s', "end_turn"), "end_turn");
        Sending(s', Failure(Reported(s'.upstreamErr)));
        EveryRunIsWellFormed(c, s', inputs[1..]);
      case Tick =>
        Sending(s, Ping);
        EveryRunIsWellFormed(c, Send(s, Ping), inputs[1..]);
      case Timeout =>
        FinalizeSaysAll(c, s, "end_turn");
        SameContents(c, s, Finalize(c, s, "end_turn"), "end_turn");
      case Cancelled =>
      case BodyEnds(err) =>
        FinalizeSaysAll(c, s, "end_turn");
        SameContents(c, s, Finalize(c, s, "end_turn"), "end_turn");
        Sending(s, Failure(Reported(err)));
    }
  }

  lemma SameContents(c: Config, s: State, f: State, reason: string)
    requires f.text == s.text && f.thinking == s.thinking
    ensures SaysAll(c, s, f.sent, reason) == SaysAll(c, f, f.sent, reason)
  {
    hide ReadAll, ContentOf, ToolNames, ToolInputs;
  }
}
