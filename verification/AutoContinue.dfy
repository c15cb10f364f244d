/** The auto-continue pump (internal/deepseek/client/client_continue.go): a reply that the upstream
    left unfinished is continued in further rounds, spliced into one event stream. */
module AutoContinue {
  import opened Options
  import opened Text

  // What the JSON decoder finds in a chunk. Absent numbers are 0, absent texts are empty.

  datatype Response = Response(messageId: int, status: string, autoContinue: bool)

  datatype Payload = Words(text: string) | Fields(response: Option<Response>) | OtherPayload

  datatype Chunk = Chunk(responseMessageId: int, path: string, value: Payload, message: Option<Response>)

  type Decoder = string -> Option<Chunk>

  /** One line of a body as the scanner delivers it; `cancelled` and `broken` say whether the
      request is cancelled by then and whether writing the line downstream fails. */
  datatype Line = Line(text: string, cancelled: bool, broken: bool)

  datatype Body = Body(lines: seq<Line>, readError: bool)

  datatype Kind = Blank | Done | Data(data: string) | Plain

  function KindOf(text: string): Kind {
    var trimmed := TrimSpace(text);
    if trimmed == "" then Blank
    else if "data:" <= trimmed then
      var data := TrimSpace(trimmed[5..]);
      if data == "[DONE]" then Done else Data(data)
    else Plain
  }

  /** The pump's memory: `continueState`. */
  datatype Status = Status(session: string, id: int, last: string, finished: bool)

  predicate MayContinue(s: Status) {
    var last := TrimSpace(s.last);
    && !s.finished && s.id > 0 && TrimSpace(s.session) != ""
    && (SameWord(last, "wip") || SameWord(last, "incomplete") || SameWord(last, "auto_continue"))
  }

  function NextRound(s: Status): Status {
    s.(last := "", finished := false)
  }

  function SeeId(s: Status, id: int): Status {
    if id > 0 then s.(id := id) else s
  }

  function SeeStatus(s: Status, status: string): Status {
    if status == "" then s
    else
      var t := TrimSpace(status);
      s.(last := t, finished := s.finished || SameWord(t, "finished"))
  }

  /** What one decoded chunk does to the memory. */
  function See(s: Status, c: Chunk): Status {
    var s1 := SeeId(s, c.responseMessageId);
    var s2 := if c.path == "response/status" && c.value.Words? then SeeStatus(s1, c.value.text) else s1;
    var s3 :=
      if c.value.Fields? && c.value.response.Some? then
        var r := c.value.response.value;
        var seen := SeeStatus(SeeId(s2, r.messageId), r.status);
        if r.autoContinue then seen.(last := "AUTO_CONTINUE") else seen
      else s2;
    if c.message.Some? then SeeStatus(SeeId(s3, c.message.value.messageId), c.message.value.status) else s3
  }

  function SeeLine(d: Decoder, s: Status, text: string): Status {
    var kind := KindOf(text);
    if kind.Data? && kind.data != "" && d(kind.data).Some? then See(s, d(kind.data).value) else s
  }

  /** The result of passing one body on. */
  datatype Passed = Passed(out: seq<string>, hadDone: bool, status: Status, failed: bool)

  function Pass(d: Decoder, lines: seq<Line>, readError: bool, s: Status, hadDone: bool): Passed
    decreases |lines|
  {
    if lines == [] then Passed([], hadDone, s, readError)
    else
      var l := lines[0];
      if l.cancelled then Passed([], hadDone, s, true)
      else match KindOf(l.text)
        case Blank => Pass(d, lines[1..], readError, s, hadDone)
        case Done => Pass(d, lines[1..], readError, s, true)
        case _ =>
          var seen := SeeLine(d, s, l.text);
          if l.broken then Passed([], hadDone, seen, true)
          else
            var rest := Pass(d, lines[1..], readError, seen, hadDone);
            rest.(out := [l.text] + rest.out)
  }

  const FINAL := "data: [DONE]"

  /** The pump's own effects on the outside: `open` gives the body of the n-th continuation,
      `closes` says whether the final line can still be written. */
  datatype Upstream = Upstream(open: (nat, string, int) -> Option<Body>, closes: bool)

  datatype Outcome = Outcome(out: seq<string>, failed: bool)

  function Pump(d: Decoder, up: Upstream, body: Body, s: Status, rounds: nat, maxRounds: nat): Outcome
    decreases maxRounds - rounds
  {
    var p := Pass(d, body.lines, body.readError, s, false);
    if p.failed then Outcome(p.out, true)
    else if MayContinue(p.status) && rounds < maxRounds then
      var next := up.open(rounds + 1, p.status.session, p.status.id);
      if next.None? then Outcome(p.out, true)
      else
        var rest := Pump(d, up, next.value, NextRound(p.status), rounds + 1, maxRounds);
        Outcome(p.out + rest.out, rest.failed)
    else if !p.hadDone then Outcome(p.out, false)
    else if up.closes then Outcome(p.out + [FINAL], false)
    else Outcome(p.out, true)
  }

  // The pump as it runs.

  class ContinueState {
    var sessionID: string
    var responseMessageID: int
    var lastStatus: string
    var finished: bool

    function Value(): Status
      reads this
    {
      Status(sessionID, responseMessageID, lastStatus, finished)
    }

    constructor (session: string)
      ensures Value() == Status(session, 0, "", false)
    {
      sessionID := session;
      responseMessageID := 0;
      lastStatus := "";
      finished := false;
    }

    method NoteStatus(status: string)
      modifies this
      ensures Value() == SeeStatus(old(Value()), status)
    {
      if status != "" {
        lastStatus := TrimSpace(status);
        if SameWord(lastStatus, "finished") {
          finished := true;
        }
      }
    }

    method Observe(d: Decoder, data: string)
      modifies this
      ensures Value() == if data != "" && d(data).Some? then See(old(Value()), d(data).value) else old(Value())
    {
      hide SameWord, TrimSpace;
      if data == "" {
        return;
      }
      var decoded := d(data);
      if decoded.None? {
        return;
      }
      var chunk := decoded.value;
      if chunk.responseMessageId > 0 {
        responseMessageID := chunk.responseMessageId;
      }
      if chunk.path == "response/status" && chunk.value.Words? {
        NoteStatus(chunk.value.text);
      }
      if chunk.value.Fields? && chunk.value.response.Some? {
        var response := chunk.value.response.value;
        if response.messageId > 0 {
          responseMessageID := response.messageId;
        }
        NoteStatus(response.status);
        if response.autoContinue {
          lastStatus := "AUTO_CONTINUE";
        }
      }
      if chunk.message.Some? {
        var response := chunk.message.value;
        if response.messageId > 0 {
          responseMessageID := response.messageId;
        }
        NoteStatus(response.status);
      }
    }

    method ShouldContinue() returns (r: bool)
      ensures r == MayContinue(Value())
    {
      if finished || responseMessageID <= 0 || TrimSpace(sessionID) == "" {
        return false;
      }
      var last := TrimSpace(lastStatus);
      return SameWord(last, "wip") || SameWord(last, "incomplete") || SameWord(last, "auto_continue");
    }

    method PrepareForNextRound()
      modifies this
      ensures Value() == NextRound(old(Value()))
    {
      finished := false;
      lastStatus := "";
    }
  }

  /** What was passed on before the rest. */
  function Onto(out: seq<string>, rest: Passed): Passed {
    rest.(out := out + rest.out)
  }

  lemma OntoTwice(a: seq<string>, b: seq<string>, rest: Passed)
    ensures Onto(a, Onto(b, rest)) == Onto(a + b, rest)
  {
    assert a + (b + rest.out) == a + b + rest.out;
  }

  lemma PassStep(d: Decoder, lines: seq<Line>, readError: bool, s: Status, hadDone: bool)
    requires lines != []
    ensures var l := lines[0];
      var p := Pass(d, lines, readError, s, hadDone);
      && (l.cancelled ==> p == Passed([], hadDone, s, true))
      && (!l.cancelled && KindOf(l.text).Blank? ==> p == Pass(d, lines[1..], readError, s, hadDone))
      && (!l.cancelled && KindOf(l.text).Done? ==> p == Pass(d, lines[1..], readError, s, true))
      && (!l.cancelled && !KindOf(l.text).Blank? && !KindOf(l.text).Done? ==>
            var seen := SeeLine(d, s, l.text);
            if l.broken then p == Passed([], hadDone, seen, true)
            else p == Onto([l.text], Pass(d, lines[1..], readError, seen, hadDone)))
  {
    hide KindOf, SeeLine;
  }

  lemma KindsByHand(text: string)
    ensures var trimmed := TrimSpace(text);
      KindOf(text) ==
        if trimmed == "" then Blank
        else if !("data:" <= trimmed) then Plain
        else if TrimSpace(trimmed[5..]) == "[DONE]" then Done else Data(TrimSpace(trimmed[5..]))
  {
  }

  lemma SeenByHand(d: Decoder, s: Status, text: string)
    ensures KindOf(text).Data? ==>
      var data := KindOf(text).data;
      SeeLine(d, s, text) == if data != "" && d(data).Some? then See(s, d(data).value) else s
    ensures !KindOf(text).Data? ==> SeeLine(d, s, text) == s
  {
  }

  /** `streamBodyWithContinueState`, writing to `out`. */
  method StreamBody(d: Decoder, body: Body, state: ContinueState)
    returns (out: seq<string>, hadDone: bool, failed: bool)
    modifies state
    ensures Passed(out, hadDone, state.Value(), failed)
         == Pass(d, body.lines, body.readError, old(state.Value()), false)
  {
    hide TrimSpace, See, Pass, SameWord, MayContinue, SeeLine, KindOf;
    out := [];
    hadDone := false;
    var i := 0;
    assert body.lines[0..] == body.lines;
    ghost var all := Pass(d, body.lines, body.readError, state.Value(), false);
    assert [] + all.out == all.out;
    while i < |body.lines|
      invariant 0 <= i <= |body.lines|
      invariant all == Onto(out, Pass(d, body.lines[i..], body.readError, state.Value(), hadDone))
    {
      var line := body.lines[i];
      ghost var seen := SeeLine(d, state.Value(), line.text);
      PassStep(d, body.lines[i..], body.readError, state.Value(), hadDone);
      assert body.lines[i..][1..] == body.lines[i + 1..];
      OntoTwice(out, [line.text], Pass(d, body.lines[i + 1..], body.readError, seen, hadDone));
      if line.cancelled {
        return out, hadDone, true;
      }
      KindsByHand(line.text);
      SeenByHand(d, state.Value(), line.text);
      i := i + 1;
      var trimmed := TrimSpace(line.text);
      if trimmed == "" {
        continue;
      }
      if "data:" <= trimmed {
        var data := TrimSpace(trimmed[5..]);
        if data == "[DONE]" {
          hadDone := true;
          continue;
        }
        state.Observe(d, data);
      }
      if line.broken {
        return out, hadDone, true;
      }
      out := out + [line.text];
    }
    PassEnd(d, body.lines[i..], body.readError, state.Value(), hadDone);
    failed := body.readError;
  }

  lemma PassEnd(d: Decoder, lines: seq<Line>, readError: bool, s: Status, hadDone: bool)
    requires lines == []
    ensures Pass(d, lines, readError, s, hadDone) == Passed([], hadDone, s, readError)
  {
  }

  lemma PumpStep(d: Decoder, up: Upstream, body: Body, s: Status, rounds: nat, maxRounds: nat)
    ensures var p := Pass(d, body.lines, body.readError, s, false);
      var o := Pump(d, up, body, s, rounds, maxRounds);
      && (p.failed ==> o == Outcome(p.out, true))
      && (!p.failed && MayContinue(p.status) && rounds < maxRounds ==>
            var next := up.open(rounds + 1, p.status.session, p.status.id);
            if next.None? then o == Outcome(p.out, true)
            else
              o == Ahead(p.out, Pump(d, up, next.value, NextRound(p.status), rounds + 1, maxRounds)))
      && (!p.failed && !(MayContinue(p.status) && rounds < maxRounds) ==>
            o == if !p.hadDone then Outcome(p.out, false)
                 else if up.closes then Outcome(p.out + [FINAL], false) else Outcome(p.out, true))
  {
    hide MayContinue, Pass, NextRound;
  }

  /** What a round adds in front of the rest. */
  function Ahead(out: seq<string>, rest: Outcome): Outcome {
    Outcome(out + rest.out, rest.failed)
  }

  lemma AheadTwice(a: seq<string>, b: seq<string>, rest: Outcome)
    ensures Ahead(a, Ahead(b, rest)) == Ahead(a + b, rest)
  {
    assert a + (b + rest.out) == a + b + rest.out;
  }

  method PumpAutoContinue(d: Decoder, up: Upstream, initial: Body, session: string, maxRounds: nat)
    returns (out: seq<string>, failed: bool)
    ensures Outcome(out, failed) == Pump(d, up, initial, Status(session, 0, "", false), 0, maxRounds)
  {
    hide MayContinue, Pass, NextRound, Pump, See, SeeLine, KindOf, TrimSpace;
    var state := new ContinueState(session);
    out := [];
    var current := initial;
    var rounds := 0;
    while true
      invariant fresh(state) && 0 <= rounds <= maxRounds
      invariant Pump(d, up, initial, Status(session, 0, "", false), 0, maxRounds)
        == Ahead(out, Pump(d, up, current, state.Value(), rounds, maxRounds))
      decreases maxRounds - rounds
    {
      PumpStep(d, up, current, state.Value(), rounds, maxRounds);
      var written, hadDone, broken := StreamBody(d, current, state);
      if !broken {
        ghost var p := state.Value();
        if MayContinue(p) && rounds < maxRounds && up.open(rounds + 1, p.session, p.id).Some? {
          var next := up.open(rounds + 1, p.session, p.id).value;
          AheadTwice(out, written, Pump(d, up, next, NextRound(p), rounds + 1, maxRounds));
        }
      }
      out := out + written;
      if broken {
        return out, true;
      }
      var again := state.ShouldContinue();
      if again && rounds < maxRounds {
        rounds := rounds + 1;
        var next := up.open(rounds, state.sessionID, state.responseMessageID);
        if next.None? {
          return out, true;
        }
        current := next.value;
        state.PrepareForNextRound();
        continue;
      }
      if hadDone {
        if !up.closes {
          return out, true;
        }
        out := out + [FINAL];
      }
      return out, false;
    }
  }
}
