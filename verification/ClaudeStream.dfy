/** The Claude event stream (internal/httpapi/claude/stream_runtime_core.go and
    stream_runtime_finalize.go): parsed upstream lines become message events. */
module ClaudeStream {
  import T = Text

  const SNAPSHOT_LENGTH := 32

  /** `TrimContinuationOverlap` (internal/sse/dedupe.go): what an incoming piece adds. */
  function Trimmed(existing: string, incoming: string): string {
    if incoming == "" || existing == "" then incoming
    else if |incoming| >= SNAPSHOT_LENGTH && existing <= incoming then incoming[|existing|..]
    else if |incoming| >= SNAPSHOT_LENGTH && incoming <= existing then ""
    else incoming
  }

  datatype Tool = Tool(name: string, input: string)

  datatype BlockKind = Thinking | Text | ToolUse(name: string)

  datatype Event =
    | MessageStart
    | Start(index: int, kind: BlockKind)
    | ThinkingDelta(index: int, content: string)
    | TextDelta(index: int, content: string)
    | InputDelta(index: int, content: string)
    | Stop(index: int)
    | MessageDelta(stopReason: string, tokens: int)
    | MessageStop
    | Failure(message: string)
    | Ping

  /** What a request fixes: its switches, and the functions the runtime calls. */
  datatype Config = Config(
    thinkingEnabled: bool, searchEnabled: bool, bufferToolContent: bool,
    clean: string -> string, citation: string -> bool, detect: string -> seq<Tool>, tokens: string -> int)

  datatype Part = Part(thinking: bool, text: string)

  datatype Line = Line(parsed: bool, errorMessage: string, stop: bool, parts: seq<Part>)

  datatype State = State(
    thinking: string, text: string, next: int,
    thinkingOpen: bool, thinkingIndex: int, textOpen: bool, textIndex: int,
    ended: bool, upstreamErr: string, sent: seq<Event>)

  const INITIAL := State("", "", 0, false, -1, false, -1, false, "", [MessageStart])

  function Send(s: State, e: Event): State {
    s.(sent := s.sent + [e])
  }

  function CloseThinking(s: State): State {
    if s.thinkingOpen then Send(s, Stop(s.thinkingIndex)).(thinkingOpen := false, thinkingIndex := -1) else s
  }

  function CloseText(s: State): State {
    if s.textOpen then Send(s, Stop(s.textIndex)).(textOpen := false, textIndex := -1) else s
  }

  function OpenThinking(s: State): State {
    if s.thinkingOpen then s
    else Send(s, Start(s.next, Thinking)).(thinkingOpen := true, thinkingIndex := s.next, next := s.next + 1)
  }

  function OpenText(s: State): State {
    if s.textOpen then s
    else Send(s, Start(s.next, Text)).(textOpen := true, textIndex := s.next, next := s.next + 1)
  }

  function TakeThinking(s: State, piece: string): State {
    var t := Trimmed(s.thinking, piece);
    if t == "" then s
    else
      var open := OpenThinking(CloseText(s.(thinking := s.thinking + t)));
      Send(open, ThinkingDelta(open.thinkingIndex, t))
  }

  function TakeText(c: Config, s: State, piece: string): State {
    var t := Trimmed(s.text, piece);
    if t == "" then s
    else
      var grown := s.(text := s.text + t);
      if c.bufferToolContent then grown
      else
        var open := OpenText(CloseThinking(grown));
        Send(open, TextDelta(open.textIndex, t))
  }

  /** A part that is empty once cleaned, or a citation mark, is not content. */
  predicate Seen(c: Config, p: Part) {
    c.clean(p.text) != "" && !(!p.thinking && c.searchEnabled && c.citation(c.clean(p.text)))
  }

  function TakePart(c: Config, s: State, p: Part): State {
    if !Seen(c, p) then s
    else if !p.thinking then TakeText(c, s, c.clean(p.text))
    else if c.thinkingEnabled then TakeThinking(s, c.clean(p.text))
    else s
  }

  function TakeParts(c: Config, s: State, ps: seq<Part>): State
    decreases |ps|
  {
    if ps == [] then s else TakeParts(c, TakePart(c, s, ps[0]), ps[1..])
  }

  /** What the runtime tells the engine after a line. */
  datatype Decision = Decision(stop: bool, upstreamError: bool, contentSeen: bool)

  predicate ContentIn(c: Config, ps: seq<Part>) {
    exists i :: 0 <= i < |ps| && Seen(c, ps[i])
  }

  function OnParsed(c: Config, s: State, l: Line): (State, Decision) {
    if !l.parsed then (s, Decision(false, false, false))
    else if l.errorMessage != "" then (s.(upstreamErr := l.errorMessage), Decision(true, true, false))
    else if l.stop then (s, Decision(true, false, false))
    else (TakeParts(c, s, l.parts), Decision(false, false, ContentIn(c, l.parts)))
  }

  function ToolEvents(tools: seq<Tool>, index: int): seq<Event>
    decreases |tools|
  {
    if tools == [] then []
    else
      [Start(index, ToolUse(tools[0].name)), InputDelta(index, tools[0].input), Stop(index)]
      + ToolEvents(tools[1..], index + 1)
  }

  /** The tool calls of a buffered reply: those in the text, or in the thinking if there is no text. */
  function Detected(c: Config, s: State): seq<Tool> {
    var finalText := c.clean(s.text);
    if c.detect(finalText) == [] && finalText == "" && s.thinking != "" then c.detect(s.thinking)
    else c.detect(finalText)
  }

  function AddTools(s: State, tools: seq<Tool>): State {
    s.(sent := s.sent + ToolEvents(tools, s.next), next := s.next + |tools|)
  }

  function AddWholeText(s: State, text: string): State {
    s.(sent := s.sent + [Start(s.next, Text), TextDelta(s.next, text), Stop(s.next)], next := s.next + 1)
  }

  function Finalize(c: Config, s: State, reason: string): State {
    if s.ended then s
    else
      var closed := CloseText(CloseThinking(s.(ended := true)));
      var finalText := c.clean(s.text);
      var tools := if c.bufferToolContent then Detected(c, s) else [];
      var blocks :=
        if tools != [] then AddTools(closed, tools)
        else if c.bufferToolContent && finalText != "" then AddWholeText(closed, finalText)
        else closed;
      var stopReason := if tools != [] then "tool_use" else reason;
      blocks.(sent := blocks.sent + [MessageDelta(stopReason, Tokens(c, s.thinking, finalText)), MessageStop])
  }

  function Reported(message: string): string {
    if T.TrimSpace(message) == "" then "upstream stream error" else T.TrimSpace(message)
  }

  // The engine (internal/stream/engine.go) as the sequence of what it meets.

  /** A line, a keep-alive tick, a timeout, a cancelled request, or the end of the body with the
      scanner's error, if any. */
  datatype Input = Arrives(line: Line) | Tick | Timeout | Cancelled | BodyEnds(scannerErr: string)

  datatype Ending = Running | Finished | Failed | Abandoned

  function Next(c: Config, s: State, i: Input): (State, Ending) {
    match i
    case Arrives(line) =>
      var (s', d) := OnParsed(c, s, line);
      if !d.stop then (s', Running)
      else if d.upstreamError then (Send(s', Failure(Reported(s'.upstreamErr))), Failed)
      else (Finalize(c, s', "end_turn"), Finished)
    case Tick => (Send(s, Ping), Running)
    case Timeout => (Finalize(c, s, "end_turn"), Finished)
    case Cancelled => (s, Abandoned)
    case BodyEnds(err) =>
      if err != "" then (Send(s, Failure(Reported(err))), Failed) else (Finalize(c, s, "end_turn"), Finished)
  }

  function Run(c: Config, s: State, inputs: seq<Input>): (State, Ending)
    decreases |inputs|
  {
    if inputs == [] then (s, Running)
    else
      var (s', e) := Next(c, s, inputs[0]);
      if e != Running then (s', e) else Run(c, s', inputs[1..])
  }

  // The runtime as it runs.

  class Runtime {
    const config: Config
    var thinking: string
    var text: string
    var nextBlockIndex: int
    var thinkingBlockOpen: bool
    var thinkingBlockIndex: int
    var textBlockOpen: bool
    var textBlockIndex: int
    var ended: bool
    var upstreamErr: string
    var sent: seq<Event>

    function Value(): State
      reads this
    {
      State(thinking, text, nextBlockIndex, thinkingBlockOpen, thinkingBlockIndex, textBlockOpen, textBlockIndex,
            ended, upstreamErr, sent)
    }

    constructor (c: Config)
      ensures config == c && Value() == INITIAL
    {
      config := c;
      thinking, text, nextBlockIndex := "", "", 0;
      thinkingBlockOpen, thinkingBlockIndex := false, -1;
      textBlockOpen, textBlockIndex := false, -1;
      ended, upstreamErr := false, "";
      sent := [MessageStart];
    }

    method CloseThinkingBlock()
      modifies this
      ensures Value() == CloseThinking(old(Value()))
    {
      if !thinkingBlockOpen {
        return;
      }
      sent := sent + [Stop(thinkingBlockIndex)];
      thinkingBlockOpen := false;
      thinkingBlockIndex := -1;
    }

    method CloseTextBlock()
      modifies this
      ensures Value() == CloseText(old(Value()))
    {
      if !textBlockOpen {
        return;
      }
      sent := sent + [Stop(textBlockIndex)];
      textBlockOpen := false;
      textBlockIndex := -1;
    }

    method AddThinking(piece: string)
      modifies this
      ensures Value() == TakeThinking(old(Value()), piece)
    {
      var t := Trimmed(thinking, piece);
      if t == "" {
        return;
      }
      thinking := thinking + t;
      CloseTextBlock();
      if !thinkingBlockOpen {
        thinkingBlockIndex := nextBlockIndex;
        nextBlockIndex := nextBlockIndex + 1;
        sent := sent + [Start(thinkingBlockIndex, Thinking)];
        thinkingBlockOpen := true;
      }
      sent := sent + [ThinkingDelta(thinkingBlockIndex, t)];
    }

    method AddText(piece: string)
      modifies this
      ensures Value() == TakeText(config, old(Value()), piece)
    {
      var t := Trimmed(text, piece);
      if t == "" {
        return;
      }
      text := text + t;
      if config.bufferToolContent {
        return;
      }
      CloseThinkingBlock();
      if !textBlockOpen {
        textBlockIndex := nextBlockIndex;
        nextBlockIndex := nextBlockIndex + 1;
        sent := sent + [Start(textBlockIndex, Text)];
        textBlockOpen := true;
      }
      sent := sent + [TextDelta(textBlockIndex, t)];
    }

    method HandleLine(l: Line) returns (d: Decision)
      modifies this
      ensures (Value(), d) == OnParsed(config, old(Value()), l)
    {
      hide TakeThinking, TakeText;
      if !l.parsed {
        return Decision(false, false, false);
      }
      if l.errorMessage != "" {
        upstreamErr := l.errorMessage;
        return Decision(true, true, false);
      }
      if l.stop {
        return Decision(true, false, false);
      }
      var contentSeen := false;
      var i := 0;
      while i < |l.parts|
        invariant 0 <= i <= |l.parts|
        invariant TakeParts(config, old(Value()), l.parts) == TakeParts(config, Value(), l.parts[i..])
        invariant contentSeen == ContentIn(config, l.parts[..i])
      {
        var p := l.parts[i];
        ghost var before := Value();
        PartsStep(config, before, l.parts, i);
        SeenStep(config, l.parts, i);
        i := i + 1;
        var cleaned := config.clean(p.text);
        if cleaned == "" {
          continue;
        }
        if !p.thinking && config.searchEnabled && config.citation(cleaned) {
          continue;
        }
        contentSeen := true;
        if p.thinking {
          if !config.thinkingEnabled {
            continue;
          }
          AddThinking(cleaned);
          continue;
        }
        AddText(cleaned);
      }
      assert l.parts[..i] == l.parts;
      return Decision(false, false, contentSeen);
    }

    method EmitTools(tools: seq<Tool>)
      modifies this
      ensures Value() == AddTools(old(Value()), tools)
    {
      hide ToolEvents;
      var i := 0;
      assert tools[0..] == tools;
      while i < |tools|
        invariant 0 <= i <= |tools|
        invariant sent + ToolEvents(tools[i..], nextBlockIndex + i)
               == old(sent) + ToolEvents(tools, old(nextBlockIndex))
        invariant Value().(sent := old(sent)) == old(Value())
      {
        var index := nextBlockIndex + i;
        ToolStep(tools, i, index, sent);
        var tool := tools[i];
        sent := sent + [Start(index, ToolUse(tool.name)), InputDelta(index, tool.input), Stop(index)];
        i := i + 1;
      }
      NoToolEvents(tools[i..], nextBlockIndex + i);
      nextBlockIndex := nextBlockIndex + |tools|;
    }

    method EmitText(finalText: string)
      modifies this
      ensures Value() == AddWholeText(old(Value()), finalText)
    {
      var index := nextBlockIndex;
      nextBlockIndex := nextBlockIndex + 1;
      sent := sent + [Start(index, Text), TextDelta(index, finalText), Stop(index)];
    }

    method Finish(reason: string)
      modifies this
      ensures Value() == Finalize(config, old(Value()), reason)
    {
      hide AddTools, AddWholeText, CloseText, CloseThinking;
      if ended {
        return;
      }
      ClosingKeeps(Value().(ended := true));
      ended := true;
      CloseThinkingBlock();
      CloseTextBlock();
      ghost var closed := Value();
      var finalText := config.clean(text);
      var stopReason := reason;
      var written := Tokens(config, thinking, finalText);
      if config.bufferToolContent {
        var detected := config.detect(finalText);
        if detected == [] && finalText == "" && thinking != "" {
          detected := config.detect(thinking);
        }
        if detected != [] {
          stopReason := "tool_use";
          EmitTools(detected);
        } else if finalText != "" {
          EmitText(finalText);
        }
      }
      sent := sent + [MessageDelta(stopReason, written), MessageStop];
    }
  }

  /** The engine's loop over what it meets, with the runtime's hooks. */
  method Consume(c: Config, inputs: seq<Input>) returns (runtime: Runtime, e: Ending)
    ensures fresh(runtime) && (runtime.Value(), e) == Run(c, INITIAL, inputs)
  {
    hide OnParsed, Finalize, Reported;
    runtime := new Runtime(c);
    var i := 0;
    assert inputs[0..] == inputs;
    while i < |inputs|
      invariant 0 <= i <= |inputs| && fresh(runtime) && runtime.config == c
      invariant Run(c, INITIAL, inputs) == Run(c, runtime.Value(), inputs[i..])
      decreases |inputs| - i
    {
      assert inputs[i..][1..] == inputs[i + 1..];
      match inputs[i] {
        case Arrives(line) =>
          var d := runtime.HandleLine(line);
          if d.stop && d.upstreamError {
            runtime.sent := runtime.sent + [Failure(Reported(runtime.upstreamErr))];
            return runtime, Failed;
          }
          if d.stop {
            runtime.Finish("end_turn");
            return runtime, Finished;
          }
        case Tick =>
          runtime.sent := runtime.sent + [Ping];
        case Timeout =>
          runtime.Finish("end_turn");
          return runtime, Finished;
        case Cancelled =>
          return runtime, Abandoned;
        case BodyEnds(err) =>
          if err != "" {
            runtime.sent := runtime.sent + [Failure(Reported(err))];
            return runtime, Failed;
          }
          runtime.Finish("end_turn");
          return runtime, Finished;
      }
      i := i + 1;
    }
    e := Running;
  }

  function Tokens(c: Config, thinking: string, finalText: string): int {
    c.tokens(thinking) + c.tokens(finalText)
  }

  lemma ClosingKeeps(s: State)
    ensures var s' := CloseText(CloseThinking(s));
      s'.text == s.text && s'.thinking == s.thinking && s'.ended == s.ended && s'.next == s.next
  {
  }

  lemma PartsStep(c: Config, s: State, ps: seq<Part>, i: nat)
    requires i < |ps|
    ensures TakeParts(c, s, ps[i..]) == TakeParts(c, TakePart(c, s, ps[i]), ps[i + 1..])
  {
    hide TakePart;
    assert ps[i..][1..] == ps[i + 1..];
  }

  lemma SeenStep(c: Config, ps: seq<Part>, i: nat)
    requires i < |ps|
    ensures ContentIn(c, ps[..i + 1]) == (ContentIn(c, ps[..i]) || Seen(c, ps[i]))
  {
    hide Seen;
    if ContentIn(c, ps[..i]) {
      var k :| 0 <= k < i && Seen(c, ps[..i][k]);
      assert ps[..i + 1][k] == ps[..i][k];
    }
    if Seen(c, ps[i]) {
      assert ps[..i + 1][i] == ps[i];
    }
  }

  lemma NoToolEvents(tools: seq<Tool>, index: int)
    requires tools == []
    ensures ToolEvents(tools, index) == []
  {
  }

  lemma ToolStep(tools: seq<Tool>, i: nat, index: int, sent: seq<Event>)
    requires i < |tools|
    ensures var three := [Start(index, ToolUse(tools[i].name)), InputDelta(index, tools[i].input), Stop(index)];
      sent + ToolEvents(tools[i..], index) == sent + three + ToolEvents(tools[i + 1..], index + 1)
  {
    assert tools[i..][1..] == tools[i + 1..];
  }
}
