/** The loops of the tool-call renderer and parser, as the source runs them. */
module ToolCalls {
  import opened Options
  import opened Text
  import opened Markup
  import opened ToolCallText

  /** `renderPromptToolParameters` on a map of strings, keys already sorted. */
  method RenderToolParameters(ps: seq<(string, string)>) returns (body: string, ok: bool)
    ensures ok == Renderable(ps)
    ensures ok ==> body == Join(RenderParams(ps))
  {
    hide RenderParam, TrimSpace, Join;
    var lines: seq<string> := [];
    for i := 0 to |ps|
      invariant Renderable(ps[..i])
      invariant RenderParams(ps) == lines + RenderParams(ps[i..])
    {
      if TrimSpace(ps[i].0) == "" {
        return "", false;
      }
      lines := lines + [RenderParam(ps[i])];
      assert ps[i..][1..] == ps[i + 1..] && ps[..i + 1] == ps[..i] + [ps[i]];
    }
    assert ps[..|ps|] == ps && ps[|ps|..] == [] && lines + [] == lines;
    return Join(lines), true;
  }

  method FormatToolCallParameters(json: string, ps: seq<(string, string)>) returns (text: string)
    ensures text == RenderArguments(json, ps)
  {
    hide RenderParam, TrimSpace, Join, RenderParams, Renderable;
    var body, ok := RenderToolParameters(ps);
    if ok && TrimSpace(body) != "" {
      return body;
    }
    if TrimSpace(json) == "" {
      return "";
    }
    return RenderParam(("content", json));
  }

  lemma NextCall(json: seq<(string, string)> -> string, calls: seq<Call>, i: nat)
    requires i < |calls|
    ensures var block := RenderCall(json(calls[i].params), calls[i]);
      RenderCalls(json, calls[i..]) == (if block == "" then [] else [block]) + RenderCalls(json, calls[i + 1..])
  {
    hide RenderCall;
    assert calls[i..][1..] == calls[i + 1..];
  }

  lemma NoCalls(json: seq<(string, string)> -> string, calls: seq<Call>)
    requires calls == []
    ensures RenderCalls(json, calls) == []
  {
  }

  method FormatToolCallsForPrompt(json: seq<(string, string)> -> string, calls: seq<Call>) returns (text: string)
    ensures text == Format(json, calls)
  {
    hide RenderCall, Join, RenderCalls;
    var blocks: seq<string> := [];
    assert calls[0..] == calls;
    for i := 0 to |calls|
      invariant RenderCalls(json, calls) == blocks + RenderCalls(json, calls[i..])
    {
      NextCall(json, calls, i);
      var block := RenderCall(json(calls[i].params), calls[i]);
      if block != "" {
        blocks := blocks + [block];
      }
    }
    NoCalls(json, calls[|calls|..]);
    assert blocks + [] == blocks;
    if blocks == [] {
      return "";
    }
    return "<tool_calls>\n" + Join(blocks) + "\n</tool_calls>";
  }

  /** `isPureNumber`: the scan with its one-decimal-point flag. */
  method IsPureNumber(s: string) returns (r: bool)
    ensures r == PureNumber(s)
  {
    if s == "" {
      return false;
    }
    var i := 0;
    if s[0] == '-' {
      if |s| == 1 {
        return false;
      }
      i := 1;
    }
    var hasDecimal := false;
    while i < |s|
      invariant 0 <= i <= |s| && (s[0] == '-' ==> i > 0 && s != "-")
      invariant forall k :: 0 <= k < i ==> '0' <= s[k] <= '9' || s[k] == '.' || (k == 0 && s[k] == '-')
      invariant hasDecimal == ('.' in s[..i])
      invariant forall j, k :: 0 <= j < k < i ==> !(s[j] == '.' && s[k] == '.')
    {
      var c := s[i];
      if c == '.' {
        if hasDecimal {
          return false;
        }
        hasDecimal := true;
      } else if c < '0' || c > '9' {
        return false;
      }
      assert s[..i + 1] == s[..i] + [c];
      i := i + 1;
    }
    return true;
  }

  method ParseSingleToolCall(e: Engine, b: Block) returns (call: Option<Parsed>)
    ensures call == ParseCall(e, b)
  {
    hide NameOf, TrimSpace, Simplify, ParseValue, Blocks;
    var name := NameOf(b.attrs);
    if name == "" {
      return None;
    }
    var inner := TrimSpace(b.body);
    if "{" <= inner && e.jsonInput(inner).Some? {
      return Some(Parsed(name, Simplify(e, name, e.jsonInput(inner).value)));
    }
    var input: map<string, Value> := map[];
    var blocks := FindElementBlocks(inner, "parameter");
    for i := 0 to |blocks|
      invariant Gather(e, blocks, map[]) == Gather(e, blocks[i..], input)
    {
      var key := NameOf(blocks[i].attrs);
      assert blocks[i..][1..] == blocks[i + 1..];
      if key == "" {
        continue;
      }
      input := Append(input, key, ParseValue(e, blocks[i].body));
    }
    input := Simplify(e, name, input);
    if input == map[] && inner != "" {
      return None;
    }
    return Some(Parsed(name, input));
  }

  lemma NextBlock(e: Engine, blocks: seq<Block>, i: nat)
    requires i < |blocks|
    ensures var call := ParseCall(e, blocks[i]);
      ParseAll(e, blocks[i..]) == (if call.None? then [] else [call.value]) + ParseAll(e, blocks[i + 1..])
  {
    hide ParseCall;
    assert blocks[i..][1..] == blocks[i + 1..];
  }

  method ParseBlocks(e: Engine, blocks: seq<Block>) returns (out: seq<Parsed>)
    ensures out == ParseAll(e, blocks)
  {
    hide ParseCall, ParseAll;
    out := [];
    assert blocks[0..] == blocks;
    for i := 0 to |blocks|
      invariant ParseAll(e, blocks) == out + ParseAll(e, blocks[i..])
    {
      NextBlock(e, blocks, i);
      var call := ParseSingleToolCall(e, blocks[i]);
      if call.Some? {
        out := out + [call.value];
      }
    }
    NoBlocks(e, blocks[|blocks|..]);
  }

  lemma NoBlocks(e: Engine, blocks: seq<Block>)
    requires blocks == []
    ensures ParseAll(e, blocks) == [] && InWrappers(e, blocks) == []
  {
  }

  lemma NextWrapper(e: Engine, ws: seq<Block>, i: nat)
    requires i < |ws|
    ensures InWrappers(e, ws[i..]) == ParseAll(e, Blocks(ws[i].body, "invoke", 0)) + InWrappers(e, ws[i + 1..])
  {
    hide ParseAll, Blocks;
    assert ws[i..][1..] == ws[i + 1..];
  }

  method ParseWrappers(e: Engine, wrappers: seq<Block>) returns (out: seq<Parsed>)
    ensures out == InWrappers(e, wrappers)
  {
    hide ParseAll, InWrappers, Blocks;
    out := [];
    assert wrappers[0..] == wrappers;
    for i := 0 to |wrappers|
      invariant InWrappers(e, wrappers) == out + InWrappers(e, wrappers[i..])
    {
      NextWrapper(e, wrappers, i);
      var invokes := FindElementBlocks(wrappers[i].body, "invoke");
      var calls := ParseBlocks(e, invokes);
      out := out + calls;
    }
    NoBlocks(e, wrappers[|wrappers|..]);
  }

  lemma NextBare(blocks: seq<Block>, ws: seq<Block>, i: nat)
    requires i < |blocks|
    ensures Bare(blocks[i..], ws) == (if InsideAny(blocks[i], ws) then [] else [blocks[i]]) + Bare(blocks[i + 1..], ws)
  {
    hide InsideAny;
    assert blocks[i..][1..] == blocks[i + 1..];
  }

  method BareBlocks(blocks: seq<Block>, wrappers: seq<Block>) returns (bare: seq<Block>)
    ensures bare == Bare(blocks, wrappers)
  {
    hide InsideAny;
    bare := [];
    assert blocks[0..] == blocks;
    for i := 0 to |blocks|
      invariant Bare(blocks, wrappers) == bare + Bare(blocks[i..], wrappers)
    {
      NextBare(blocks, wrappers, i);
      if !InsideAny(blocks[i], wrappers) {
        bare := bare + [blocks[i]];
      }
    }
  }

  /** `parseXMLToolCalls`: the calls of the wrappers, then the calls outside them. */
  method ParseToolCalls(e: Engine, text: string) returns (out: seq<Parsed>)
    ensures out == Parse(e, text)
  {
    hide ParseAll, ParseCall, Blocks, InWrappers, Bare;
    var wrappers := FindElementBlocks(text, "tool_calls");
    if wrappers == [] {
      var repaired := e.repair(text);
      if repaired != text {
        wrappers := FindElementBlocks(repaired, "tool_calls");
      }
    }
    out := ParseWrappers(e, wrappers);
    var blocks := FindElementBlocks(text, "invoke");
    var bare := BareBlocks(blocks, wrappers);
    var rest := ParseBlocks(e, bare);
    out := out + rest;
  }
}
