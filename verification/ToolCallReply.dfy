/** The parser the sieve calls (internal/toolcall/toolcalls_parse.go): fenced lines are cut out,
    calls are read, and calls that read a file again are dropped. */
module ToolCallReply {
  import opened Text
  import opened FencedText
  import opened ToolCallText
  import ToolCalls

  /** The first string in a map, in the order it is iterated. */
  function FirstText(e: Engine, input: map<string, Value>): string
    decreases |input|
  {
    if input == map[] || e.first(input) !in input then ""
    else
      var k := e.first(input);
      assert (input - {k}).Keys == input.Keys - {k};
      if input[k].Str? then input[k].text else FirstText(e, input - {k})
  }

  predicate HasText(input: map<string, Value>, k: string) {
    k in input && input[k].Str?
  }

  /** `getReadPathKey`. */
  function PathKey(e: Engine, input: map<string, Value>): string {
    if HasText(input, "file_path") then input["file_path"].text
    else if HasText(input, "path") then input["path"].text
    else if HasText(input, "file") then input["file"].text
    else if HasText(input, "filepath") then input["filepath"].text
    else FirstText(e, input)
  }

  /** What a call is known by when it comes again: the path of a read tool. */
  function ReadKey(e: Engine, c: Parsed): string {
    if ReadTool(c.name) then PathKey(e, c.input) else ""
  }

  predicate SameRead(e: Engine, c: Parsed, d: Parsed) {
    ReadKey(e, c) == ReadKey(e, d) != ""
  }

  predicate ReadBefore(e: Engine, calls: seq<Parsed>, d: Parsed) {
    exists i :: 0 <= i < |calls| && calls[i].name != "" && SameRead(e, calls[i], d)
  }

  /** The calls that have a name and are no repetition of an earlier read. */
  function WithoutRepeats(e: Engine, calls: seq<Parsed>): seq<Parsed> {
    if calls == [] then []
    else
      var n := |calls| - 1;
      WithoutRepeats(e, calls[..n])
      + if calls[n].name == "" || ReadBefore(e, calls[..n], calls[n]) then [] else [calls[n]]
  }

  /** No two reads of one path. */
  predicate NoRepeats(e: Engine, calls: seq<Parsed>) {
    forall i, j :: 0 <= i < j < |calls| ==> !SameRead(e, calls[i], calls[j])
  }

  /** `TryRepairAndParse`. */
  function TryRepair(e: Engine, text: string): seq<Parsed> {
    match e.mend(text)
    case None => []
    case Some(mended) => Parse(e, mended)
  }

  /** `ParseToolCalls`. */
  function ParseReply(e: Engine, text: string): seq<Parsed> {
    var trimmed := TrimSpace(text);
    var stripped := TrimSpace(StripFences(trimmed));
    if trimmed == "" || stripped == "" then []
    else if Parse(e, stripped) != [] then WithoutRepeats(e, Parse(e, stripped))
    else WithoutRepeats(e, TryRepair(e, stripped))
  }

  // The loops as they run.

  /** The keys of these calls. */
  ghost function Keys(e: Engine, calls: seq<Parsed>): set<string> {
    set i | 0 <= i < |calls| && calls[i].name != "" && ReadKey(e, calls[i]) != "" :: ReadKey(e, calls[i])
  }

  lemma KeysAfter(e: Engine, calls: seq<Parsed>, d: Parsed)
    ensures Keys(e, calls + [d])
         == Keys(e, calls) + if d.name != "" && ReadKey(e, d) != "" then {ReadKey(e, d)} else {}
  {
    hide ReadKey;
    var more := calls + [d];
    assert more[|calls|] == d;
    forall i | 0 <= i < |calls| ensures more[i] == calls[i] {
    }
  }

  lemma BeforeIff(e: Engine, calls: seq<Parsed>, d: Parsed)
    ensures ReadBefore(e, calls, d) <==> ReadKey(e, d) in Keys(e, calls)
  {
    hide ReadKey;
  }

  lemma OneMore(e: Engine, calls: seq<Parsed>, d: Parsed)
    ensures WithoutRepeats(e, calls + [d])
         == WithoutRepeats(e, calls) + if d.name == "" || ReadBefore(e, calls, d) then [] else [d]
  {
    hide ReadBefore;
    assert (calls + [d])[..|calls|] == calls;
  }

  /** `filterToolCallsDetailed`. */
  method FilterToolCalls(e: Engine, parsed: seq<Parsed>) returns (out: seq<Parsed>)
    ensures out == WithoutRepeats(e, parsed)
  {
    hide PathKey, ReadTool, WithoutRepeats, ReadBefore, Keys;
    out := [];
    var seen: set<string> := {};
    NothingSeen(e);
    for i := 0 to |parsed|
      invariant out == WithoutRepeats(e, parsed[..i])
      invariant seen == Keys(e, parsed[..i])
    {
      var tc := parsed[i];
      assert parsed[..i + 1] == parsed[..i] + [tc];
      OneMore(e, parsed[..i], tc);
      KeysAfter(e, parsed[..i], tc);
      BeforeIff(e, parsed[..i], tc);
      KeysNamed(e, parsed[..i]);
      if tc.name == "" {
        continue;
      }
      if ReadTool(tc.name) {
        var pathKey := PathKey(e, tc.input);
        if pathKey != "" {
          if pathKey in seen {
            continue;
          }
          seen := seen + {pathKey};
        }
      }
      out := out + [tc];
    }
    assert parsed[..|parsed|] == parsed;
  }

  lemma NothingSeen(e: Engine)
    ensures WithoutRepeats(e, []) == [] && Keys(e, []) == {}
  {
  }

  lemma KeysNamed(e: Engine, calls: seq<Parsed>)
    ensures "" !in Keys(e, calls)
  {
    hide ReadKey;
  }

  /** `parseToolCallsDetailedXMLOnly`. */
  method ParseToolCallsDetailed(e: Engine, text: string) returns (calls: seq<Parsed>)
    ensures calls == ParseReply(e, text)
  {
    hide Parse, WithoutRepeats, TrimSpace, StripFences;
    var trimmed := TrimSpace(text);
    if trimmed == "" {
      return [];
    }
    trimmed := StripFencedCodeBlocks(trimmed);
    trimmed := TrimSpace(trimmed);
    if trimmed == "" {
      return [];
    }
    var parsed := ToolCalls.ParseToolCalls(e, trimmed);
    if |parsed| > 0 {
      calls := FilterToolCalls(e, parsed);
      return;
    }
    calls := FilterToolCalls(e, TryRepair(e, trimmed));
  }

  // What is dropped.

  lemma {:induction false} RepeatsShorten(e: Engine, calls: seq<Parsed>)
    ensures |WithoutRepeats(e, calls)| <= |calls|
  {
    hide ReadBefore;
    if calls != [] {
      RepeatsShorten(e, calls[..|calls| - 1]);
    }
  }

  lemma RepeatsSplit(e: Engine, calls: seq<Parsed>, d: Parsed)
    requires forall i :: 0 <= i < |calls| ==> calls[i].name != ""
    ensures NoRepeats(e, calls + [d]) <==> NoRepeats(e, calls) && !ReadBefore(e, calls, d)
  {
    hide ReadKey;
    var more := calls + [d];
    assert more[|calls|] == d;
    assert forall i :: 0 <= i < |calls| ==> more[i] == calls[i];
    if ReadBefore(e, calls, d) {
      var i :| 0 <= i < |calls| && SameRead(e, calls[i], d);
      assert SameRead(e, more[i], more[|calls|]);
    }
    if !NoRepeats(e, calls) {
      var i, j :| 0 <= i < j < |calls| && SameRead(e, calls[i], calls[j]);
      assert SameRead(e, more[i], more[j]);
    }
  }

  /** Nothing is dropped exactly if all calls have names and no path is read twice. */
  lemma {:induction false} NothingDroppedIff(e: Engine, calls: seq<Parsed>)
    requires forall i :: 0 <= i < |calls| ==> calls[i].name != ""
    ensures WithoutRepeats(e, calls) == calls <==> NoRepeats(e, calls)
    ensures !NoRepeats(e, calls) ==> |WithoutRepeats(e, calls)| < |calls|
  {
    hide ReadBefore, NoRepeats, WithoutRepeats;
    if calls == [] {
      NothingSeen(e);
      assert NoRepeats(e, []) by { NothingRepeats(e); }
    } else {
      var n := |calls| - 1;
      NothingDroppedIff(e, calls[..n]);
      RepeatsShorten(e, calls[..n]);
      assert calls == calls[..n] + [calls[n]];
      OneMore(e, calls[..n], calls[n]);
      RepeatsSplit(e, calls[..n], calls[n]);
    }
  }

  lemma NothingRepeats(e: Engine)
    ensures NoRepeats(e, [])
  {
  }

  /** Of each path the first read stays. */
  lemma {:induction false} FirstStays(e: Engine, calls: seq<Parsed>)
    requires calls != [] && calls[0].name != ""
    ensures var out := WithoutRepeats(e, calls); out != [] && out[0] == calls[0]
  {
    hide SameRead;
    var n := |calls| - 1;
    if n > 0 {
      FirstStays(e, calls[..n]);
    }
  }
}
