/** The streaming tool sieve as the source runs it: buffers updated in place by loops. Each method
    is proved against its meaning in `SieveModel`. */
module Sieve {
  import opened Text
  import opened CodeFence
  import opened SieveModel

  const TOOL_TAGS: seq<string> :=
    ["<tool_calls>", "<tool_calls\n", "<tool_calls ", "<invoke ", "<invoke\n", "<invoke\t", "<invoke\r"]

  /** The seven literal tags are the wrapper or invoke opener followed by a delimiter. */
  lemma TagsAre(s: string, i: int)
    ensures TagAt(s, i) <==> exists k :: 0 <= k < |TOOL_TAGS| && At(s, i, TOOL_TAGS[k])
  {
    TagIs(s, i, WRAPPER, '>');
    TagIs(s, i, WRAPPER, '\n');
    TagIs(s, i, WRAPPER, ' ');
    TagIs(s, i, INVOKE, ' ');
    TagIs(s, i, INVOKE, '\n');
    TagIs(s, i, INVOKE, '\t');
    TagIs(s, i, INVOKE, '\r');
    assert WRAPPER + ['>'] == TOOL_TAGS[0] && WRAPPER + ['\n'] == TOOL_TAGS[1] && WRAPPER + [' '] == TOOL_TAGS[2];
    assert INVOKE + [' '] == TOOL_TAGS[3] && INVOKE + ['\n'] == TOOL_TAGS[4];
    assert INVOKE + ['\t'] == TOOL_TAGS[5] && INVOKE + ['\r'] == TOOL_TAGS[6];
    if TagAt(s, i) {
      var j := if At(s, i, WRAPPER) && i + 11 < |s| && s[i + 11] in ">\n "
               then (if s[i + 11] == '>' then 0 else if s[i + 11] == '\n' then 1 else 2)
               else (if s[i + 7] == ' ' then 3 else if s[i + 7] == '\n' then 4 else if s[i + 7] == '\t' then 5 else 6);
      assert At(s, i, TOOL_TAGS[j]);
    }
  }

  lemma TagIs(s: string, i: int, name: string, c: char)
    requires !('A' <= c <= 'Z') && !('a' <= c <= 'z')
    ensures At(s, i, name + [c]) <==> At(s, i, name) && i + |name| < |s| && s[i + |name|] == c
  {
    if At(s, i, name + [c]) {
      forall k | 0 <= k < |name| ensures LowerChar(s[i + k]) == name[k] {
        assert (name + [c])[k] == name[k];
      }
      assert (name + [c])[|name|] == c;
    }
  }

  /** Two tool tags never overlap: each has its only '<' at its start. */
  lemma TagsApart(s: string, i: int, j: int, tag: string)
    requires tag in TOOL_TAGS && At(s, i, tag) && TagAt(s, j) && i < j
    ensures i + |tag| <= j
  {
    assert WRAPPER[0] == INVOKE[0] == '<' && LowerChar(s[j + 0]) == '<';
    assert forall k :: 0 < k < |tag| ==> tag[k] != '<';
    if 0 < j - i < |tag| {
      AtChar(s, i, tag, j - i);
    }
  }

  /** The earliest listed tag at or after `offset`. */
  method EarliestTag(s: string, offset: nat) returns (best: int, matched: string)
    ensures best == -1 || (offset <= best && matched in TOOL_TAGS && At(s, best, matched) && TagAt(s, best))
    ensures forall j :: offset <= j && (best < 0 || j < best) ==> !TagAt(s, j)
  {
    best, matched := -1, "";
    for t := 0 to |TOOL_TAGS|
      invariant best == -1 || (offset <= best && matched in TOOL_TAGS && At(s, best, matched))
      invariant forall k, j :: 0 <= k < t && offset <= j && (best < 0 || j < best) ==> !At(s, j, TOOL_TAGS[k])
    {
      var index := IndexFrom(s, TOOL_TAGS[t], offset);
      if index >= 0 && (best < 0 || index < best) {
        best, matched := index, TOOL_TAGS[t];
      }
    }
    forall j | offset <= j && (best < 0 || j < best) ensures !TagAt(s, j) {
      TagsAre(s, j);
    }
    TagsAre(s, best);
  }

  /** The search loop of `findToolSegmentStart`: the earliest listed tag, then past it while it
      lies inside a code fence. */
  method FindToolSegmentStart(f: Fence, s: string) returns (start: int)
    ensures start == SegmentStart(f, s, 0)
  {
    if s == "" {
      return -1;
    }
    var offset := 0;
    while true
      invariant 0 <= offset <= |s|
      invariant SegmentStart(f, s, 0) == SegmentStart(f, s, offset)
      decreases |s| - offset
    {
      var best, matched := EarliestTag(s, offset);
      if best < 0 {
        SkipNonTags(f, s, offset, |s|);
        return -1;
      }
      SkipNonTags(f, s, offset, best);
      var fenceThere := FenceAfter(f, s[..best]);
      if fenceThere.stack == [] {
        return best;
      }
      assert |matched| > 0;
      forall j | best < j < best + |matched| ensures !TagAt(s, j) {
        if TagAt(s, j) {
          TagsApart(s, best, j, matched);
        }
      }
      SkipNonTags(f, s, best + 1, best + |matched|);
      offset := best + |matched|;
    }
  }

  lemma {:induction false} SkipNonTags(f: Fence, s: string, i: nat, j: nat)
    requires i <= j <= |s|
    requires forall k :: i <= k < j ==> !TagAt(s, k)
    ensures SegmentStart(f, s, i) == SegmentStart(f, s, j)
    decreases j - i
  {
    hide TagAt, Feed;
    if i < j {
      SkipNonTags(f, s, i + 1, j);
    }
  }

  method FenceAfter(f: Fence, s: string) returns (g: Fence)
    ensures g == Feed(f, s)
  {
    var stack, ticks, lineStart := Simulate(f.stack, f.ticks, f.lineStart, s);
    g := Fence(stack, ticks, lineStart);
  }

  /** The index loop of `findXMLCloseOutsideCDATA`. */
  method FindCloseOutsideCDATA(s: string, closeTag: string, start: int) returns (r: int)
    requires closeTag != ""
    ensures r == FindVisible(s, closeTag, if start < 0 then 0 else start)
  {
    hide At, SkipIgnored;
    if s == "" {
      return -1;
    }
    var i := if start < 0 then 0 else start;
    ghost var found := FindVisible(s, closeTag, i);
    while i < |s|
      invariant 0 <= i
      invariant found == FindVisible(s, closeTag, i)
      decreases |s| - i
    {
      match SkipIgnored(s, i)
      case Blocked =>
        return -1;
      case Advanced(next) =>
        i := next;
      case Visible =>
        if At(s, i, closeTag) {
          return i;
        }
        i := i + 1;
    }
    r := -1;
  }

  /** `consumeXMLToolCapture`. */
  method ConsumeCapture(p: Parser, captured: string) returns (r: Consumed)
    ensures r == Consume(p, captured)
  {
    hide Settle, At, FindVisible, IndexFrom;
    var openIdx := IndexFrom(captured, WRAPPER, 0);
    if openIdx >= 0 {
      var closeIdx := FindCloseOutsideCDATA(captured, WRAPPER_CLOSE, openIdx + |WRAPPER|);
      if closeIdx < 0 {
        return NotReady;
      }
      AtInside(captured, closeIdx, WRAPPER_CLOSE);
      var closeEnd := closeIdx + |WRAPPER_CLOSE|;
      var block := captured[openIdx..closeEnd];
      return Settle(p, captured[..openIdx], block, block, captured[closeEnd..]);
    }
    var invokeIdx := IndexFrom(captured, INVOKE, 0);
    var closeIdx := FindCloseOutsideCDATA(captured, WRAPPER_CLOSE, invokeIdx);
    if invokeIdx >= 0 && closeIdx > invokeIdx {
      AtInside(captured, closeIdx, WRAPPER_CLOSE);
      var closeEnd := closeIdx + |WRAPPER_CLOSE|;
      return Settle(p, captured[..invokeIdx], "<tool_calls>" + captured[invokeIdx..closeIdx] + "</tool_calls>",
                    captured[invokeIdx..closeEnd], captured[closeEnd..]);
    }
    return NotReady;
  }

  class ToolSieve {
    const parser: Parser
    var pending: string
    var capture: string
    var capturing: bool
    var fence: Fence
    var pendingToolCalls: seq<ToolCall>

    ghost function Abs(): State
      reads this
    {
      State(pending, capture, capturing, fence, pendingToolCalls)
    }

    /** Nothing is kept in the capture buffer outside a capture. */
    ghost predicate Valid()
      reads this
    {
      !capturing ==> capture == ""
    }

    constructor (parser: Parser)
      ensures this.parser == parser && Abs() == START && Valid()
    {
      this.parser := parser;
      pending, capture, capturing, fence := "", "", false, INITIAL;
      pendingToolCalls := [];
    }

    method NoteText(content: string)
      modifies this`fence
      ensures fence == Note(old(fence), content)
    {
      if TrimSpace(content) != "" {
        fence := FenceAfter(fence, content);
      }
    }

    /** Emits a non-empty text and notes it. */
    method Emit(text: string) returns (events: seq<Event>)
      modifies this`fence
      ensures events == Text1(text)
      ensures fence == Note(old(fence), text)
    {
      events := [];
      if text != "" {
        NoteText(text);
        events := [Content(text)];
      }
    }

    /** One turn of the loop while a block is being captured. */
    method TurnCapturing() returns (again: bool, events: seq<Event>)
      requires capturing
      modifies this
      ensures Valid()
      ensures again ==> Drain(parser, old(Abs())) == (Drain(parser, Abs()).0, events + Drain(parser, Abs()).1)
      ensures !again ==> Drain(parser, old(Abs())) == (Abs(), events)
      ensures again ==> |pending| + |capture| < old(|pending| + |capture|)
    {
      if |pending| > 0 {
        capture := capture + pending;
        pending := "";
      }
      assert capture == old(capture + pending);
      var consumed := ConsumeCapture(parser, capture);
      if consumed.NotReady? {
        return false, [];
      }
      capture := "";
      capturing := false;
      events := Emit(consumed.prefix);
      pending := consumed.suffix;
      if consumed.calls != [] {
        pendingToolCalls := consumed.calls;
      }
      again := true;
    }

    /** One turn of the loop outside a capture. */
    method TurnPending() returns (again: bool, events: seq<Event>)
      requires !capturing && Valid()
      modifies this
      ensures Valid()
      ensures again ==> Drain(parser, old(Abs())) == (Drain(parser, Abs()).0, events + Drain(parser, Abs()).1)
      ensures !again ==> Drain(parser, old(Abs())) == (Abs(), events)
      ensures again ==> |pending| + |capture| < old(|pending| + |capture|) || capturing
      ensures |pending| + |capture| <= old(|pending| + |capture|)
    {
      var text := pending;
      if text == "" {
        return false, [];
      }
      var start := FindToolSegmentStart(fence, text);
      if start >= 0 {
        events := Emit(text[..start]);
        pending := "";
        capture := capture + text[start..];
        capturing := true;
        return true, events;
      }
      var n := SafeLength(fence, text);
      if n == 0 {
        return false, [];
      }
      pending := text[n..];
      events := Emit(text[..n]);
      again := true;
    }

    method ProcessChunk(chunk: string) returns (events: seq<Event>)
      requires Valid()
      modifies this
      ensures Valid()
      ensures (Abs(), events) == Process(parser, old(Abs()), chunk)
    {
      hide Drain;
      pending := pending + chunk;
      events := [];
      if pendingToolCalls != [] {
        events := events + [Calls(pendingToolCalls)];
        pendingToolCalls := [];
      }
      assert Abs() == old(Abs()).(pending := old(pending) + chunk, waiting := []);
      ghost var goal, delivered := Drain(parser, Abs()), events;
      while true
        invariant Valid()
        invariant goal.0 == Drain(parser, Abs()).0
        invariant delivered + goal.1 == events + Drain(parser, Abs()).1
        decreases |pending| + |capture|, !capturing
      {
        ghost var before := events;
        var again, emitted;
        if capturing {
          again, emitted := TurnCapturing();
        } else {
          again, emitted := TurnPending();
        }
        events := events + emitted;
        if !again {
          break;
        }
        assert before + (emitted + Drain(parser, Abs()).1) == events + Drain(parser, Abs()).1;
      }
      assert delivered == Delivered(old(pendingToolCalls));
    }

    method Flush() returns (events: seq<Event>)
      requires Valid()
      modifies this
      ensures events == SieveModel.Flush(parser, old(Abs()))
      ensures pending == capture == "" && !capturing && pendingToolCalls == []
    {
      hide Process, Consume, Note;
      events := ProcessChunk("");
      var released := Delivered(pendingToolCalls);
      ghost var st := Abs();
      pendingToolCalls := [];
      if capturing {
        var consumed := ConsumeCapture(parser, capture);
        var text;
        if consumed.Ready? {
          text := Emit(consumed.prefix);
          released := released + text + Delivered(consumed.calls);
          text := Emit(consumed.suffix);
        } else {
          text := Emit(capture);
        }
        released := released + text;
        capture := "";
        capturing := false;
      }
      var rest := Emit(pending);
      released := released + rest;
      pending := "";
      assert released == Release(parser, st);
      events := events + released;
    }
  }
}
