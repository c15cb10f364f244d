/** How a run ends, read off its inputs. */
module ClaudeEndings {
  import T = Text
  import opened ClaudeStream

  /** A stop line without error, a timeout, or the end of the body without a scanner error. */
  predicate EndsNormally(i: Input) {
    || (i.Arrives? && i.line.parsed && i.line.errorMessage == "" && i.line.stop)
    || i.Timeout? || i == BodyEnds("")
  }

  /** A line with an error message, or a scanner error at the end of the body. */
  predicate EndsWithError(i: Input) {
    (i.Arrives? && i.line.parsed && i.line.errorMessage != "") || (i.BodyEnds? && i.scannerErr != "")
  }

  function ErrorText(i: Input): string
    requires EndsWithError(i)
  {
    if i.Arrives? then i.line.errorMessage else i.scannerErr
  }

  predicate EndsRun(i: Input) {
    EndsNormally(i) || EndsWithError(i) || i.Cancelled?
  }

  predicate NothingEnds(inputs: seq<Input>) {
    forall i :: 0 <= i < |inputs| ==> !EndsRun(inputs[i])
  }

  /** The first input that ends a run. */
  predicate FirstEnd(inputs: seq<Input>, i: nat) {
    i < |inputs| && EndsRun(inputs[i]) && NothingEnds(inputs[..i])
  }

  /** What an error is reported as: its text without blanks around it, or a default if it is blank. */
  predicate ReportedAs(text: string, message: string) {
    if T.All(text, T.SPACES) then message == "upstream stream error"
    else
      && message != "" && message[0] !in T.SPACES && message[|message| - 1] !in T.SPACES
      && exists i, j :: 0 <= i <= j <= |text| && text[i..j] == message
           && T.All(text[..i], T.SPACES) && T.All(text[j..], T.SPACES)
  }

  lemma ReportedIs(text: string)
    ensures ReportedAs(text, Reported(text))
  {
    hide T.SPACES;
    var u := T.TrimLeft(text, T.SPACES);
    T.TrimLeftSplit(text, T.SPACES);
    T.TrimRightSplit(u, T.SPACES);
    var t := T.TrimSpace(text);
    var i := |text| - |u|;
    var j := i + |t|;
    assert text[i..j] == u[..|t|] == t && text[j..] == u[|t|..];
    T.TrimsToNothing(text);
    if t != "" {
      T.TrimEnds(text);
    }
  }

  lemma {:induction false} FirstEndLater(inputs: seq<Input>, i: nat)
    requires inputs != [] && !EndsRun(inputs[0])
    ensures FirstEnd(inputs[1..], i) <==> FirstEnd(inputs, i + 1)
    ensures NothingEnds(inputs[1..]) <==> NothingEnds(inputs)
  {
    hide EndsRun;
    if i < |inputs[1..]| {
      assert inputs[..i + 1] == [inputs[0]] + inputs[1..][..i];
    }
    assert inputs == [inputs[0]] + inputs[1..];
    MoreEnds(inputs[0], inputs[1..]);
    if i < |inputs[1..]| {
      MoreEnds(inputs[0], inputs[1..][..i]);
    }
  }

  lemma MoreEnds(first: Input, rest: seq<Input>)
    ensures NothingEnds([first] + rest) <==> !EndsRun(first) && NothingEnds(rest)
  {
    hide EndsRun;
    assert ([first] + rest)[0] == first && forall i :: 0 <= i < |rest| ==> ([first] + rest)[i + 1] == rest[i];
  }

  /** A run that nothing ends goes on. */
  lemma {:induction false} GoesOn(c: Config, s: State, inputs: seq<Input>)
    requires NothingEnds(inputs)
    ensures Run(c, s, inputs).1 == Running
    decreases |inputs|
  {
    hide Finalize, TakeParts, Reported;
    if inputs != [] {
      assert !EndsRun(inputs[0]);
      FirstEndLater(inputs, 0);
      GoesOn(c, Next(c, s, inputs[0]).0, inputs[1..]);
    }
  }

  /** The first input that ends a run says how: normally, with its error as the last event behind what
      was sent before, or without a word. */
  lemma {:induction false} EndsAsItSays(c: Config, s: State, inputs: seq<Input>, i: nat)
    requires FirstEnd(inputs, i)
    ensures var (f, e) := Run(c, s, inputs);
      var before := Run(c, s, inputs[..i]).0;
      && (EndsNormally(inputs[i]) ==> e == Finished && f == Finalize(c, before, "end_turn"))
      && (inputs[i].Cancelled? ==> e == Abandoned && f == before)
      && (EndsWithError(inputs[i]) ==>
            && e == Failed
            && exists message :: ReportedAs(ErrorText(inputs[i]), message)
                 && f.sent == before.sent + [Failure(message)])
    decreases |inputs|
  {
    hide Finalize, TakeParts, Reported, ReportedAs;
    if i > 0 {
      NotYet(inputs, i, 0);
    }
    if EndsRun(inputs[0]) {
      assert inputs[..0] == [];
      if EndsWithError(inputs[0]) {
        ReportedIs(ErrorText(inputs[0]));
      }
    } else {
      FirstEndLater(inputs, i - 1);
      EndsAsItSays(c, Next(c, s, inputs[0]).0, inputs[1..], i - 1);
      assert inputs[..i][0] == inputs[0] && inputs[..i][1..] == inputs[1..][..i - 1];
    }
  }

  lemma {:induction false} SomeEndsFirst(inputs: seq<Input>) returns (i: nat)
    requires !NothingEnds(inputs)
    ensures FirstEnd(inputs, i)
  {
    hide EndsRun;
    if EndsRun(inputs[0]) {
      i := 0;
    } else {
      FirstEndLater(inputs, 0);
      i := SomeEndsFirst(inputs[1..]);
      FirstEndLater(inputs, i);
      i := i + 1;
    }
  }

  lemma OneFirst(inputs: seq<Input>, i: nat, j: nat)
    requires FirstEnd(inputs, i) && FirstEnd(inputs, j)
    ensures i == j
  {
    if i < j {
      NotYet(inputs, j, i);
    } else if j < i {
      NotYet(inputs, i, j);
    }
  }

  lemma NotYet(inputs: seq<Input>, i: nat, j: nat)
    requires FirstEnd(inputs, i) && j < i
    ensures !EndsRun(inputs[j])
  {
    hide EndsRun;
    assert inputs[..i][j] == inputs[j];
  }

  /** Which ending a run has is decided by the first input that ends it. */
  lemma {:induction false} EndingIff(c: Config, s: State, inputs: seq<Input>)
    ensures var e := Run(c, s, inputs).1;
      && (e == Running <==> NothingEnds(inputs))
      && (e == Finished <==> exists i: nat :: i < |inputs| && FirstEnd(inputs, i) && EndsNormally(inputs[i]))
      && (e == Failed <==> exists i: nat :: i < |inputs| && FirstEnd(inputs, i) && EndsWithError(inputs[i]))
      && (e == Abandoned <==> exists i: nat :: i < |inputs| && FirstEnd(inputs, i) && inputs[i].Cancelled?)
  {
    hide Run, FirstEnd, NothingEnds, EndsNormally, EndsWithError;
    if NothingEnds(inputs) {
      GoesOn(c, s, inputs);
      forall i: nat ensures !FirstEnd(inputs, i) {
        NoFirst(inputs, i);
      }
    } else {
      var i := SomeEndsFirst(inputs);
      EndsAsItSays(c, s, inputs, i);
      OneKind(inputs, i);
      forall j: nat | FirstEnd(inputs, j) ensures i == j {
        OneFirst(inputs, i, j);
      }
    }
  }

  lemma NoFirst(inputs: seq<Input>, i: nat)
    requires NothingEnds(inputs)
    ensures !FirstEnd(inputs, i)
  {
    hide EndsRun;
  }

  lemma OneKind(inputs: seq<Input>, i: nat)
    requires FirstEnd(inputs, i)
    ensures i < |inputs| && (EndsNormally(inputs[i]) || EndsWithError(inputs[i]) || inputs[i].Cancelled?)
    ensures EndsNormally(inputs[i]) ==> !EndsWithError(inputs[i]) && !inputs[i].Cancelled?
    ensures EndsWithError(inputs[i]) ==> !inputs[i].Cancelled?
  {
  }

  // Keep-alive.

  function Pings(es: seq<Event>): nat {
    if es == [] then 0 else Pings(es[..|es| - 1]) + if es[|es| - 1].Ping? then 1 else 0
  }

  /** The ticks before the input that ends the run. */
  function TicksIn(inputs: seq<Input>): nat {
    if inputs == [] || EndsRun(inputs[0]) then 0 else (if inputs[0].Tick? then 1 else 0) + TicksIn(inputs[1..])
  }

  lemma {:induction false} PingsJoin(a: seq<Event>, b: seq<Event>)
    ensures Pings(a + b) == Pings(a) + Pings(b)
  {
    if b == [] {
      assert a + b == a;
    } else {
      PingsJoin(a, b[..|b| - 1]);
      assert (a + b)[..|a + b| - 1] == a + b[..|b| - 1];
    }
  }

  lemma OnePing(e: Event)
    ensures Pings([e]) == (if e.Ping? then 1 else 0) && Pings([]) == 0
  {
    assert [e][..0] == [];
  }

  lemma SendPings(s: State, e: Event)
    ensures Pings(Send(s, e).sent) == Pings(s.sent) + if e.Ping? then 1 else 0
  {
    PingsJoin(s.sent, [e]);
    OnePing(e);
  }

  lemma ClosingPings(s: State)
    ensures Pings(CloseText(s).sent) == Pings(CloseThinking(s).sent) == Pings(s.sent)
  {
    hide Pings;
    SendPings(s, Stop(s.textIndex));
    SendPings(s, Stop(s.thinkingIndex));
  }

  lemma OpeningPings(s: State)
    ensures Pings(OpenText(s).sent) == Pings(OpenThinking(s).sent) == Pings(s.sent)
  {
    hide Pings;
    SendPings(s, Start(s.next, Text));
    SendPings(s, Start(s.next, Thinking));
  }

  lemma PartPings(c: Config, s: State, p: Part)
    ensures Pings(TakePart(c, s, p).sent) == Pings(s.sent)
  {
    hide Pings, Trimmed, OpenText, OpenThinking, CloseText, CloseThinking;
    var piece := c.clean(p.text);
    var t := Trimmed(s.thinking, piece);
    var thought := s.(thinking := s.thinking + t);
    ClosingPings(thought);
    OpeningPings(CloseText(thought));
    var open := OpenThinking(CloseText(thought));
    SendPings(open, ThinkingDelta(open.thinkingIndex, t));
    var u := Trimmed(s.text, piece);
    var said := s.(text := s.text + u);
    ClosingPings(said);
    OpeningPings(CloseThinking(said));
    var open' := OpenText(CloseThinking(said));
    SendPings(open', TextDelta(open'.textIndex, u));
  }

  lemma {:induction false} PartsPing(c: Config, s: State, ps: seq<Part>)
    ensures Pings(TakeParts(c, s, ps).sent) == Pings(s.sent)
    decreases |ps|
  {
    hide TakePart, Pings;
    if ps != [] {
      PartPings(c, s, ps[0]);
      PartsPing(c, TakePart(c, s, ps[0]), ps[1..]);
    }
  }

  lemma {:induction false} ToolPings(tools: seq<Tool>, index: int)
    ensures Pings(ToolEvents(tools, index)) == 0
    decreases |tools|
  {
    hide Pings;
    OnePing(Ping);
    if tools != [] {
      var a, b, z := Start(index, ToolUse(tools[0].name)), InputDelta(index, tools[0].input), Stop(index);
      ThreePings(a, b, z);
      PingsJoin([a, b, z], ToolEvents(tools[1..], index + 1));
      ToolPings(tools[1..], index + 1);
    }
  }

  lemma ThreePings(a: Event, b: Event, z: Event)
    requires !a.Ping? && !b.Ping? && !z.Ping?
    ensures Pings([a, b, z]) == 0 && Pings([a, b]) == 0
  {
    hide Pings;
    OnePing(a);
    OnePing(b);
    OnePing(z);
    PingsJoin([a], [b]);
    PingsJoin([a, b], [z]);
    assert [a] + [b] == [a, b] && [a, b] + [z] == [a, b, z];
  }

  lemma FinalizePings(c: Config, s: State, reason: string)
    ensures Pings(Finalize(c, s, reason).sent) == Pings(s.sent)
  {
    hide Pings, ToolEvents, Detected, CloseText, CloseThinking;
    var closing := s.(ended := true);
    ClosingPings(closing);
    ClosingPings(CloseThinking(closing));
    var closed := CloseText(CloseThinking(closing));
    var tools, text := Detected(c, s), c.clean(s.text);
    ToolPings(tools, closed.next);
    PingsJoin(closed.sent, ToolEvents(tools, closed.next));
    var whole := [Start(closed.next, Text), TextDelta(closed.next, text), Stop(closed.next)];
    ThreePings(whole[0], whole[1], whole[2]);
    PingsJoin(closed.sent, whole);
    forall before: seq<Event>, r, n ensures Pings(before + [MessageDelta(r, n), MessageStop]) == Pings(before) {
      ThreePings(MessageDelta(r, n), MessageStop, MessageStop);
      PingsJoin(before, [MessageDelta(r, n), MessageStop]);
    }
  }

  lemma NextPings(c: Config, s: State, i: Input)
    ensures Pings(Next(c, s, i).0.sent) == Pings(s.sent) + if i.Tick? then 1 else 0
    ensures Next(c, s, i).1 == Running <==> !EndsRun(i)
  {
    hide Pings, Finalize, TakeParts, Reported;
    FinalizePings(c, s, "end_turn");
    match i
    case Arrives(line) =>
      PartsPing(c, s, line.parts);
      var s' := OnParsed(c, s, line).0;
      FinalizePings(c, s', "end_turn");
      SendPings(s', Failure(Reported(s'.upstreamErr)));
    case Tick =>
      SendPings(s, Ping);
    case BodyEnds(err) =>
      SendPings(s, Failure(Reported(err)));
    case _ =>
  }

  /** One ping goes out for each tick of the run. */
  lemma {:induction false} PingsAreTicks(c: Config, s: State, inputs: seq<Input>)
    ensures Pings(Run(c, s, inputs).0.sent) == Pings(s.sent) + TicksIn(inputs)
    decreases |inputs|
  {
    hide Pings, Next, EndsRun;
    if inputs != [] {
      NextPings(c, s, inputs[0]);
      OnlyOne(inputs[0]);
      if !EndsRun(inputs[0]) {
        PingsAreTicks(c, Next(c, s, inputs[0]).0, inputs[1..]);
      }
    }
  }

  lemma OnlyOne(i: Input)
    ensures i.Tick? ==> !EndsRun(i)
  {
  }
}
