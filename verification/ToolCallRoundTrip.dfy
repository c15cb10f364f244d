/** What the parser makes of rendered tool calls: all calls come back in order, and exactly those
    whose values are plain come back unchanged. */
module ToolCallRoundTrip {
  import opened Options
  import opened Text
  import opened Markup
  import opened MarkupScan
  import opened ToolCallText
  import opened MarkupInert
  import opened ToolCallNames

  /** The parameters a call shows in its rendering. */
  function Shown(json: string, c: Call): seq<(string, string)> {
    if Renderable(c.params) && c.params != [] then c.params
    else if TrimSpace(json) == "" then []
    else [("content", json)]
  }

  /** What the parser gathers from these parameters: equal names are collected in a list. */
  function Collected(e: Engine, ps: seq<(string, string)>, acc: map<string, Value>): map<string, Value>
    decreases |ps|
  {
    if ps == [] then acc
    else Collected(e, ps[1..], Append(acc, TrimSpace(ps[0].0), ParseValue(e, RenderText(ps[0].1))))
  }

  function ReadCall(e: Engine, json: string, c: Call): Parsed {
    var name := TrimSpace(c.name);
    Parsed(name, Simplify(e, name, Collected(e, Shown(json, c), map[])))
  }

  /** The calls that have a name, in order. */
  function ReadCalls(e: Engine, json: seq<(string, string)> -> string, calls: seq<Call>): seq<Parsed> {
    if calls == [] then []
    else
      (if TrimSpace(calls[0].name) == "" then [] else [ReadCall(e, json(calls[0].params), calls[0])])
      + ReadCalls(e, json, calls[1..])
  }

  // Parameters.

  function Param(p: (string, string)): string {
    Element("parameter", TrimSpace(p.0), RenderText(p.1))
  }

  /** Rendered parameters without the first indentation. */
  function ParamsTail(ps: seq<(string, string)>): string
    requires ps != []
  {
    Param(ps[0]) + if |ps| == 1 then "" else "\n    " + ParamsTail(ps[1..])
  }

  lemma {:induction false} JoinedParams(ps: seq<(string, string)>)
    requires ps != []
    ensures Join(RenderParams(ps)) == PARAM_INDENT + ParamsTail(ps)
  {
    hide Element, RenderText, TrimSpace;
    var lines := RenderParams(ps);
    assert lines[0] == PARAM_INDENT + Param(ps[0]);
    assert lines[1..] == RenderParams(ps[1..]);
    if |ps| > 1 {
      JoinedParams(ps[1..]);
      assert RenderParams(ps[1..]) != [];
      assert "\n" + PARAM_INDENT == "\n    ";
    } else {
      assert RenderParams(ps[1..]) == [];
    }
  }

  lemma {:induction false} ParamsAreInert(tag: string, ps: seq<(string, string)>)
    requires LowerLetters(tag) && tag[0] != 'p' && ps != []
    ensures Inert(tag, ParamsTail(ps))
  {
    hide Inert, Element, RenderText, TrimSpace;
    RenderedValueIsInert(tag, ps[0].1);
    InertElement(tag, "parameter", TrimSpace(ps[0].0), RenderText(ps[0].1));
    if |ps| > 1 {
      ParamsAreInert(tag, ps[1..]);
      InertPlain(tag, "\n    ");
      InertJoin(tag, "\n    ", ParamsTail(ps[1..]));
      InertJoin(tag, Param(ps[0]), "\n    " + ParamsTail(ps[1..]));
    } else {
      assert ParamsTail(ps) == Param(ps[0]);
    }
  }

  /** Plain text in front of a position changes nothing about the blocks from there. */
  lemma {:induction false} SkipPlain(text: string, tag: string, i: nat, x: string)
    requires Sub(text, i, x) && NoAngle(x)
    ensures i + |x| <= |text| && Blocks(text, tag, i) == Blocks(text, tag, i + |x|)
  {
    hide Blocks, Passes, Sub;
    SubText(text, i, x);
    InertPlain(tag, x);
    PassBlocks(text, tag, i, i + |x|);
  }

  /** Reading rendered parameters gathers each under its trimmed name. */
  lemma {:induction false} GatherRendered(e: Engine, text: string, i: nat, ps: seq<(string, string)>,
                                          acc: map<string, Value>)
    requires ps != [] && Renderable(ps) && Sub(text, i, ParamsTail(ps)) && i + |ParamsTail(ps)| == |text|
    ensures Gather(e, Blocks(text, "parameter", i), acc) == Collected(e, ps, acc)
    decreases |ps|
  {
    hide Inert, Element, RenderText, TrimSpace, NameAttr, Escape, Blocks, Sub, NameOf, Append, ParseValue, Renderable;
    var key := TrimSpace(ps[0].0);
    var body := RenderText(ps[0].1);
    var el := Param(ps[0]);
    var j := i + |el|;
    SubFirst(text, i, ps);
    RenderedValueIsInert("parameter", ps[0].1);
    ElementIsBlock(text, "parameter", i, key, body);
    var b := Block(NameAttr(Escape(key)), body, i, j);
    NameReadsBack(key);
    TrimTwice(ps[0].0);
    KeyIsThere(ps);
    var acc' := Append(acc, key, ParseValue(e, body));
    GatherOne(e, b, Blocks(text, "parameter", j), acc);
    if |ps| == 1 {
      NothingLeft(text, "parameter", |text|);
      assert Collected(e, ps, acc) == Collected(e, ps[1..], acc') == acc';
    } else {
      SkipPlain(text, "parameter", j, "\n    ");
      GatherRendered(e, text, j + 5, ps[1..], acc');
    }
  }

  lemma SubFirst(text: string, i: nat, ps: seq<(string, string)>)
    requires ps != [] && Sub(text, i, ParamsTail(ps))
    ensures Sub(text, i, Param(ps[0]))
    ensures |ps| == 1 ==> |ParamsTail(ps)| == |Param(ps[0])|
    ensures |ps| > 1 ==> var j := i + |Param(ps[0])|;
      && Sub(text, j, "\n    ") && Sub(text, j + 5, ParamsTail(ps[1..]))
      && |ParamsTail(ps)| == |Param(ps[0])| + 5 + |ParamsTail(ps[1..])|
  {
    hide Param, Sub;
    if |ps| > 1 {
      SubSplit(text, i, Param(ps[0]), "\n    " + ParamsTail(ps[1..]));
      SubSplit(text, i + |Param(ps[0])|, "\n    ", ParamsTail(ps[1..]));
    } else {
      assert ParamsTail(ps) == Param(ps[0]);
    }
  }

  lemma KeyIsThere(ps: seq<(string, string)>)
    requires ps != [] && Renderable(ps)
    ensures TrimSpace(ps[0].0) != "" && Renderable(ps[1..])
  {
    forall k | 0 <= k < |ps| - 1 ensures TrimSpace(ps[1..][k].0) != "" {
      assert ps[1..][k] == ps[k + 1];
    }
  }

  lemma GatherOne(e: Engine, b: Block, rest: seq<Block>, acc: map<string, Value>)
    requires NameOf(b.attrs) != ""
    ensures Gather(e, [b] + rest, acc) == Gather(e, rest, Append(acc, NameOf(b.attrs), ParseValue(e, b.body)))
  {
    hide NameOf, Append, ParseValue;
    assert ([b] + rest)[1..] == rest;
  }

  lemma {:induction false} CollectedKeeps(e: Engine, ps: seq<(string, string)>, acc: map<string, Value>)
    ensures acc.Keys <= Collected(e, ps, acc).Keys
    ensures forall i :: 0 <= i < |ps| ==> TrimSpace(ps[i].0) in Collected(e, ps, acc)
    decreases |ps|
  {
    hide ParseValue, RenderText, TrimSpace;
    if ps != [] {
      var acc' := Append(acc, TrimSpace(ps[0].0), ParseValue(e, RenderText(ps[0].1)));
      CollectedKeeps(e, ps[1..], acc');
      forall i | 0 <= i < |ps| ensures TrimSpace(ps[i].0) in Collected(e, ps, acc) {
        if i > 0 {
          assert ps[i] == ps[1..][i - 1];
        }
      }
    }
  }

  // Calls.

  function InvokeBody(ps: seq<(string, string)>): string {
    if ps == [] then "" else "\n" + (PARAM_INDENT + ParamsTail(ps)) + "\n" + CALL_INDENT
  }

  function Invoke(json: string, c: Call): string {
    Element("invoke", TrimSpace(c.name), InvokeBody(Shown(json, c)))
  }

  lemma ContentIsNamed()
    ensures TrimSpace("content") == "content"
  {
    assert "" + "content" + "" == "content" && All("", SPACES);
    TrimPadded("", "content", "");
  }

  lemma TailEnds(ps: seq<(string, string)>)
    requires ps != []
    ensures var t := ParamsTail(ps); t != "" && t[0] == '<' && t[|t| - 1] == '>'
  {
    hide NameAttr, RenderText, TrimSpace, Escape;
    var el := Param(ps[0]);
    assert el[0] == '<' && el[|el| - 1] == '>';
    if |ps| > 1 {
      TailEnds(ps[1..]);
    }
  }

  lemma ArgumentsShown(json: string, c: Call)
    ensures Renderable(Shown(json, c))
    ensures RenderArguments(json, c.params)
         == if Shown(json, c) == [] then "" else PARAM_INDENT + ParamsTail(Shown(json, c))
  {
    hide ParamsTail, TrimSpace, Join, RenderParams, RenderParam;
    var ps := c.params;
    if Renderable(ps) && ps != [] {
      JoinedParams(ps);
      IndentedTrims(ps);
      assert Shown(json, c) == ps;
    } else {
      ContentIsNamed();
      ContentShown(json);
      if ps == [] {
        NoParams();
      }
    }
  }

  lemma NoParams()
    ensures Join(RenderParams([])) == "" && TrimSpace("") == ""
  {
  }

  lemma ContentShown(json: string)
    ensures RenderParam(("content", json)) == PARAM_INDENT + ParamsTail([("content", json)])
  {
    hide Element, RenderText, TrimSpace;
  }

  lemma IndentedTrims(ps: seq<(string, string)>)
    requires ps != []
    ensures TrimSpace(PARAM_INDENT + ParamsTail(ps)) == ParamsTail(ps) != ""
  {
    hide ParamsTail, TrimSpace;
    TailEnds(ps);
    assert PARAM_INDENT + ParamsTail(ps) + "" == PARAM_INDENT + ParamsTail(ps);
    assert All(PARAM_INDENT, SPACES) && All("", SPACES);
    TrimPadded(PARAM_INDENT, ParamsTail(ps), "");
  }

  lemma {:induction false} BodyTrims(ps: seq<(string, string)>)
    requires ps != []
    ensures TrimSpace(InvokeBody(ps)) == ParamsTail(ps)
  {
    hide ParamsTail, TrimSpace, All;
    TailEnds(ps);
    var a, b := "\n" + PARAM_INDENT, "\n" + CALL_INDENT;
    PaddingIsBlank();
    assert InvokeBody(ps) == a + ParamsTail(ps) + b;
    TrimPadded(a, ParamsTail(ps), b);
  }

  lemma PaddingIsBlank()
    ensures All("\n" + PARAM_INDENT, SPACES) && All("\n" + CALL_INDENT, SPACES)
  {
  }

  lemma {:induction false} RenderedCall(json: string, c: Call)
    requires TrimSpace(c.name) != ""
    ensures RenderCall(json, c) == CALL_INDENT + Invoke(json, c)
  {
    hide ParamsTail, TrimSpace, Element, RenderArguments, Shown;
    ArgumentsShown(json, c);
    if Shown(json, c) != [] {
      TailEnds(Shown(json, c));
    }
  }

  /** Reading a rendered call gives its name and its gathered parameters. */
  lemma CallReads(e: Engine, json: string, c: Call, start: nat, end: nat)
    requires TrimSpace(c.name) != ""
    ensures ParseCall(e, Block(NameAttr(Escape(TrimSpace(c.name))), InvokeBody(Shown(json, c)), start, end))
         == Some(ReadCall(e, json, c))
  {
    hide Shown, TrimSpace, NameOf, NameAttr, Escape, ParamsTail, InvokeBody, Gather, Collected, Blocks, Simplify;
    var name := TrimSpace(c.name);
    var ps := Shown(json, c);
    var b := Block(NameAttr(Escape(name)), InvokeBody(ps), start, end);
    NameReadsBack(name);
    TrimTwice(c.name);
    ArgumentsShown(json, c);
    if ps == [] {
      EmptyCall(e, b.body);
    } else {
      BodyTrims(ps);
      TailEnds(ps);
      SubWhole(ParamsTail(ps));
      GatherRendered(e, ParamsTail(ps), 0, ps, map[]);
      var input := Collected(e, ps, map[]);
      CollectedKeeps(e, ps, map[]);
      assert TrimSpace(ps[0].0) in input;
      SimplifyKeepsSome(e, name, input);
      NotJson(ParamsTail(ps));
    }
  }

  lemma NotJson(s: string)
    requires s != "" && s[0] == '<'
    ensures !("{" <= s)
  {
  }

  lemma EmptyCall(e: Engine, body: string)
    requires body == InvokeBody([])
    ensures TrimSpace(body) == "" && Gather(e, Blocks("", "parameter", 0), map[]) == Collected(e, [], map[])
    ensures forall name :: Simplify(e, name, map[]) == map[]
  {
  }

  /** A read tool keeps one of its parameters, any other tool keeps all. */
  lemma SimplifyShape(e: Engine, name: string, input: map<string, Value>) returns (k: string)
    requires input != map[]
    ensures k in input
    ensures var out := Simplify(e, name, input);
      && (out == input || out == map[k := input[k]])
      && (ReadTool(name) && e.first(input) in input ==> out == map[k := input[k]])
      && (!ReadTool(name) ==> out == input)
  {
    hide ReadTool;
    if "file_path" in input {
      k := "file_path";
    } else if "path" in input {
      k := "path";
    } else if "file" in input {
      k := "file";
    } else if "filepath" in input {
      k := "filepath";
    } else if e.first(input) in input {
      k := e.first(input);
    } else {
      k :| k in input;
    }
  }

  lemma SimplifyKeepsSome(e: Engine, name: string, input: map<string, Value>)
    requires input != map[]
    ensures Simplify(e, name, input) != map[]
  {
    hide Simplify;
    var k := SimplifyShape(e, name, input);
    assert k in map[k := input[k]];
  }

  /** The text between the wrapper tags. */
  function Rest(json: seq<(string, string)> -> string, calls: seq<Call>): string {
    if calls == [] then "\n"
    else
      (if TrimSpace(calls[0].name) == "" then "" else "\n" + CALL_INDENT + Invoke(json(calls[0].params), calls[0]))
      + Rest(json, calls[1..])
  }

  function Lines(blocks: seq<string>): string {
    if blocks == [] then "\n" else "\n" + blocks[0] + Lines(blocks[1..])
  }

  lemma {:induction false} JoinedLines(blocks: seq<string>)
    requires blocks != []
    ensures "\n" + Join(blocks) + "\n" == Lines(blocks)
  {
    if |blocks| > 1 {
      JoinedLines(blocks[1..]);
    } else {
      assert Lines(blocks[1..]) == "\n";
    }
  }

  lemma {:induction false} RenderedLines(json: seq<(string, string)> -> string, calls: seq<Call>)
    ensures Lines(RenderCalls(json, calls)) == Rest(json, calls)
    decreases |calls|
  {
    hide RenderCall, Invoke, TrimSpace;
    if calls != [] {
      RenderedLines(json, calls[1..]);
      var c := calls[0];
      var block := RenderCall(json(c.params), c);
      if TrimSpace(c.name) == "" {
        assert block == "" by {
          NamelessIsDropped(json(c.params), c);
        }
        assert [] + RenderCalls(json, calls[1..]) == RenderCalls(json, calls[1..]);
      } else {
        RenderedCall(json(c.params), c);
        var rest := RenderCalls(json, calls[1..]);
        assert RenderCalls(json, calls) == [block] + rest;
        assert ([block] + rest)[1..] == rest;
      }
    }
  }

  lemma NamelessIsDropped(json: string, c: Call)
    requires TrimSpace(c.name) == ""
    ensures RenderCall(json, c) == ""
  {
  }

  lemma InvokeBodyIsInert(tag: string, ps: seq<(string, string)>)
    requires LowerLetters(tag) && tag[0] != 'p'
    ensures Inert(tag, InvokeBody(ps))
  {
    hide Inert, ParamsTail;
    if ps == [] {
      InertPlain(tag, "");
    } else {
      ParamsAreInert(tag, ps);
      InertPlain(tag, "\n" + PARAM_INDENT);
      InertPlain(tag, "\n" + CALL_INDENT);
      InertJoin(tag, "\n" + PARAM_INDENT, ParamsTail(ps));
      InertJoin(tag, "\n" + PARAM_INDENT + ParamsTail(ps), "\n" + CALL_INDENT);
      assert InvokeBody(ps) == ("\n" + PARAM_INDENT + ParamsTail(ps)) + ("\n" + CALL_INDENT);
    }
  }

  lemma {:induction false} RestIsInert(json: seq<(string, string)> -> string, calls: seq<Call>)
    ensures Inert("tool_calls", Rest(json, calls))
    decreases |calls|
  {
    hide Inert, Shown, InvokeBody, TrimSpace, Element;
    if calls == [] {
      InertPlain("tool_calls", "\n");
    } else {
      RestIsInert(json, calls[1..]);
      var c := calls[0];
      if TrimSpace(c.name) == "" {
        assert Rest(json, calls) == "" + Rest(json, calls[1..]) == Rest(json, calls[1..]);
      } else {
        var text := json(c.params);
        InvokeBodyIsInert("tool_calls", Shown(text, c));
        InertElement("tool_calls", "invoke", TrimSpace(c.name), InvokeBody(Shown(text, c)));
        InertPlain("tool_calls", "\n" + CALL_INDENT);
        InertJoin("tool_calls", "\n" + CALL_INDENT, Invoke(text, c));
        InertJoin("tool_calls", "\n" + CALL_INDENT + Invoke(text, c), Rest(json, calls[1..]));
      }
    }
  }

  /** Reading the rendered calls one after another. */
  lemma {:induction false} CallsRead(e: Engine, text: string, i: nat, json: seq<(string, string)> -> string,
                                     calls: seq<Call>)
    requires Sub(text, i, Rest(json, calls)) && i + |Rest(json, calls)| == |text|
    ensures ParseAll(e, Blocks(text, "invoke", i)) == ReadCalls(e, json, calls)
    decreases |calls|
  {
    hide Blocks, Sub, ParseCall, ReadCall, TrimSpace, Invoke;
    if calls == [] {
      SkipPlain(text, "invoke", i, "\n");
      NothingLeft(text, "invoke", |text|);
    } else {
      var c := calls[0];
      if TrimSpace(c.name) == "" {
        assert Rest(json, calls) == "" + Rest(json, calls[1..]) == Rest(json, calls[1..]);
        CallsRead(e, text, i, json, calls[1..]);
        assert ReadCalls(e, json, calls) == [] + ReadCalls(e, json, calls[1..]);
      } else {
        var inv := Invoke(json(c.params), c);
        var rest := Rest(json, calls[1..]);
        SubSplit(text, i, "\n" + CALL_INDENT + inv, rest);
        SubSplit(text, i, "\n" + CALL_INDENT, inv);
        SkipPlain(text, "invoke", i, "\n" + CALL_INDENT);
        var j := i + 3 + |inv|;
        var b := InvokeIsBlock(e, text, i + 3, json(c.params), c);
        CallsRead(e, text, j, json, calls[1..]);
        ParseAllOne(e, b, Blocks(text, "invoke", j));
      }
    }
  }

  lemma {:induction false} InvokeIsBlock(e: Engine, text: string, i: nat, json: string, c: Call) returns (b: Block)
    requires TrimSpace(c.name) != "" && Sub(text, i, Invoke(json, c))
    ensures var j := i + |Invoke(json, c)|; Blocks(text, "invoke", i) == [b] + Blocks(text, "invoke", j)
    ensures ParseCall(e, b) == Some(ReadCall(e, json, c))
  {
    hide Blocks, Sub, ParseCall, ReadCall, TrimSpace, Element, InvokeBody, Shown, Inert, NameAttr, Escape;
    var name := TrimSpace(c.name);
    var body := InvokeBody(Shown(json, c));
    InvokeBodyIsInert("invoke", Shown(json, c));
    ElementIsBlock(text, "invoke", i, name, body);
    b := Block(NameAttr(Escape(name)), body, i, i + |Invoke(json, c)|);
    CallReads(e, json, c, b.start, b.end);
  }

  lemma ParseAllOne(e: Engine, b: Block, rest: seq<Block>)
    ensures ParseAll(e, [b] + rest)
         == (if ParseCall(e, b).None? then [] else [ParseCall(e, b).value]) + ParseAll(e, rest)
  {
    hide ParseCall;
    assert ([b] + rest)[1..] == rest;
  }

  lemma {:induction false} AllInside(bs: seq<Block>, ws: seq<Block>)
    requires forall k :: 0 <= k < |bs| ==> InsideAny(bs[k], ws)
    ensures Bare(bs, ws) == []
  {
    hide InsideAny;
    if bs != [] {
      AllInside(bs[1..], ws);
    }
  }

  /** Every block of a text lies inside a wrapper that spans the whole text. */
  lemma {:induction false} NothingBare(text: string, w: Block)
    requires w.start == 0 && w.end == |text|
    ensures Bare(Blocks(text, "invoke", 0), [w]) == []
  {
    hide Blocks, IsBlock;
    BlocksInOrder(text, "invoke", 0);
    var bs := Blocks(text, "invoke", 0);
    forall k | 0 <= k < |bs| ensures InsideAny(bs[k], [w]) {
      assert [w][0] == w;
    }
    AllInside(bs, [w]);
  }

  /** Every rendering reads back as the calls it shows: whatever the names and values hold, no call
      is lost, added, merged or moved. It is empty only if no call has a name. */
  lemma RenderedCallsReadBack(e: Engine, json: seq<(string, string)> -> string, calls: seq<Call>)
    ensures var text := Format(json, calls);
      if text == "" then ReadCalls(e, json, calls) == [] else Parse(e, text) == ReadCalls(e, json, calls)
  {
    hide Blocks, ParseAll, RenderCalls, Bare, Join, Rest, ReadCalls, Inert, Parse;
    var blocks := RenderCalls(json, calls);
    if blocks == [] {
      NothingRendered(e, json, calls);
    } else {
      var text := Format(json, calls);
      var body := Rest(json, calls);
      RenderedLines(json, calls);
      JoinedLines(blocks);
      WrapperText(Join(blocks));
      RestIsInert(json, calls);
      WrapperIsBlock(text, "tool_calls", body);
      var w := Block("", body, 0, |text|);
      NothingBare(text, w);
      SubWhole(body);
      CallsRead(e, body, 0, json, calls);
      OneWrapper(e, text, w);
    }
  }

  lemma {:induction false} NothingRendered(e: Engine, json: seq<(string, string)> -> string, calls: seq<Call>)
    requires RenderCalls(json, calls) == []
    ensures ReadCalls(e, json, calls) == []
    decreases |calls|
  {
    hide TrimSpace, RenderCall, Invoke, ReadCall;
    if calls != [] {
      NothingRendered(e, json, calls[1..]);
      if TrimSpace(calls[0].name) != "" {
        RenderedCall(json(calls[0].params), calls[0]);
      }
    }
  }

  lemma WrapperText(lines: string)
    ensures "<tool_calls>\n" + lines + "\n</tool_calls>"
         == "<" + "tool_calls" + ">" + ("\n" + lines + "\n") + "</" + "tool_calls" + ">"
  {
  }

  lemma {:induction false} OneWrapper(e: Engine, text: string, w: Block)
    requires Blocks(text, "tool_calls", 0) == [w] && Bare(Blocks(text, "invoke", 0), [w]) == []
    ensures Parse(e, text) == ParseAll(e, Blocks(w.body, "invoke", 0))
  {
    hide Blocks, ParseCall, Bare;
    assert [w][1..] == [];
    assert InWrappers(e, [w]) == ParseAll(e, Blocks(w.body, "invoke", 0)) + [];
  }

  // Which calls come back unchanged.

  predicate DistinctNames(ps: seq<(string, string)>) {
    forall i, j :: 0 <= i < j < |ps| ==> ps[i].0 != ps[j].0
  }

  /** Names without surrounding blanks, parameter names that differ. */
  predicate WellNamed(c: Call) {
    && TrimSpace(c.name) == c.name != ""
    && (forall i :: 0 <= i < |c.params| ==> TrimSpace(c.params[i].0) == c.params[i].0 != "")
    && DistinctNames(c.params)
  }

  function Given(ps: seq<(string, string)>): map<string, Value> {
    if ps == [] then map[] else Given(ps[1..])[ps[0].0 := Str(ps[0].1)]
  }

  function Sent(calls: seq<Call>): seq<Parsed> {
    seq(|calls|, i requires 0 <= i < |calls| => Parsed(calls[i].name, Given(calls[i].params)))
  }

  /** There are parameters, only one of them if the parser takes the tool for a read tool, and
      every value is plain. */
  predicate Faithful(e: Engine, c: Call) {
    && c.params != []
    && (ReadTool(c.name) ==> |c.params| == 1)
    && forall i :: 0 <= i < |c.params| ==> PlainValue(e, c.params[i].1)
  }

  /** Iterating over a map that is not empty starts at one of its entries. */
  ghost predicate FirstIsEntry(e: Engine) {
    forall m :: m != map[] ==> e.first(m) in m
  }

  lemma {:induction false} GivenAt(ps: seq<(string, string)>)
    requires DistinctNames(ps)
    ensures forall k :: k in Given(ps) <==> exists i :: 0 <= i < |ps| && ps[i].0 == k
    ensures forall i :: 0 <= i < |ps| ==> ps[i].0 in Given(ps) && Given(ps)[ps[i].0] == Str(ps[i].1)
  {
    if ps != [] {
      GivenAt(ps[1..]);
      forall i | 0 <= i < |ps| ensures ps[i].0 in Given(ps) && Given(ps)[ps[i].0] == Str(ps[i].1) {
        if i > 0 {
          assert ps[i] == ps[1..][i - 1];
        }
      }
      forall k ensures k in Given(ps) <==> exists i :: 0 <= i < |ps| && ps[i].0 == k {
        if k in Given(ps) && k != ps[0].0 {
          var i :| 0 <= i < |ps[1..]| && ps[1..][i].0 == k;
          assert ps[i + 1].0 == k;
        }
      }
    }
  }

  /** Parameters with different names are gathered one by one. */
  lemma {:induction false} CollectedAt(e: Engine, ps: seq<(string, string)>, acc: map<string, Value>)
    requires DistinctNames(ps)
    requires forall i :: 0 <= i < |ps| ==> TrimSpace(ps[i].0) == ps[i].0 && ps[i].0 !in acc
    ensures var out := Collected(e, ps, acc);
      && (forall k :: k in out <==> k in acc || exists i :: 0 <= i < |ps| && ps[i].0 == k)
      && (forall k :: k in acc ==> out[k] == acc[k])
      && (forall i :: 0 <= i < |ps| ==> out[ps[i].0] == ParseValue(e, RenderText(ps[i].1)))
    decreases |ps|
  {
    hide ParseValue, RenderText, TrimSpace;
    if ps != [] {
      var v := ParseValue(e, RenderText(ps[0].1));
      var acc' := acc[ps[0].0 := v];
      assert acc' == Append(acc, TrimSpace(ps[0].0), v);
      var rest := ps[1..];
      assert forall i :: 0 <= i < |rest| ==> rest[i] == ps[i + 1];
      CollectedAt(e, rest, acc');
      var out := Collected(e, ps, acc);
      forall i | 0 <= i < |ps| ensures out[ps[i].0] == ParseValue(e, RenderText(ps[i].1)) {
        if i > 0 {
          assert ps[i] == rest[i - 1];
        } else {
          assert ps[0].0 in acc';
        }
      }
      forall k ensures k in out <==> k in acc || exists i :: 0 <= i < |ps| && ps[i].0 == k {
        if k in out && k !in acc && k != ps[0].0 {
          var i :| 0 <= i < |rest| && rest[i].0 == k;
          assert ps[i + 1].0 == k;
        }
      }
    }
  }

  ghost predicate KeyedBy(m: map<string, Value>, ps: seq<(string, string)>) {
    && (forall k :: k in m ==> exists i :: 0 <= i < |ps| && ps[i].0 == k)
    && (forall i :: 0 <= i < |ps| ==> ps[i].0 in m)
  }

  lemma SameEntries(m: map<string, Value>, n: map<string, Value>, ps: seq<(string, string)>)
    requires KeyedBy(m, ps) && KeyedBy(n, ps)
    requires forall i :: 0 <= i < |ps| ==> m[ps[i].0] == n[ps[i].0]
    ensures m == n
  {
    forall k | k in m ensures k in n && m[k] == n[k] {
      var i :| 0 <= i < |ps| && ps[i].0 == k;
    }
    forall k | k in n ensures k in m {
      var i :| 0 <= i < |ps| && ps[i].0 == k;
    }
  }

  /** What is gathered is what was given, exactly if every value is plain. */
  lemma GatheredIsGivenIff(e: Engine, ps: seq<(string, string)>)
    requires DistinctNames(ps) && forall i :: 0 <= i < |ps| ==> TrimSpace(ps[i].0) == ps[i].0
    ensures Collected(e, ps, map[]) == Given(ps) <==> forall i :: 0 <= i < |ps| ==> PlainValue(e, ps[i].1)
  {
    hide ParseValue, RenderText, TrimSpace, PlainValue, Collected, Given, DistinctNames, KeyedBy;
    var out, given := Collected(e, ps, map[]), Given(ps);
    BothKeyed(e, ps);
    forall i | 0 <= i < |ps| ensures PlainValue(e, ps[i].1) <==> out[ps[i].0] == given[ps[i].0] {
      ValueSurvivesIff(e, ps[i].1);
    }
    if forall i :: 0 <= i < |ps| ==> PlainValue(e, ps[i].1) {
      SameEntries(out, given, ps);
    }
  }

  lemma {:induction false} BothKeyed(e: Engine, ps: seq<(string, string)>)
    requires DistinctNames(ps) && forall i :: 0 <= i < |ps| ==> TrimSpace(ps[i].0) == ps[i].0
    ensures var out, given := Collected(e, ps, map[]), Given(ps);
      && KeyedBy(out, ps) && KeyedBy(given, ps)
      && forall i :: 0 <= i < |ps| ==>
           && ps[i].0 in out && out[ps[i].0] == ParseValue(e, RenderText(ps[i].1))
           && ps[i].0 in given && given[ps[i].0] == Str(ps[i].1)
  {
    hide ParseValue, RenderText, TrimSpace, Collected, Given, DistinctNames;
    CollectedAt(e, ps, map[]);
    GivenAt(ps);
  }

  lemma CallSurvivesIff(e: Engine, json: string, c: Call)
    requires WellNamed(c) && TrimSpace(json) != "" && FirstIsEntry(e)
    ensures ReadCall(e, json, c) == Parsed(c.name, Given(c.params)) <==> Faithful(e, c)
  {
    hide ParseValue, RenderText, TrimSpace, PlainValue, Collected, Given, Simplify, ReadTool, Renderable;
    var ps := Shown(json, c);
    var input := Collected(e, ps, map[]);
    CollectedKeeps(e, ps, map[]);
    if c.params == [] {
      assert TrimSpace(ps[0].0) in input;
      var k := SimplifyShape(e, c.name, input);
      NothingGiven();
      assert k in map[k := input[k]];
    } else {
      assert ps == c.params by {
        assert Renderable(c.params) by {
          NamesAreThere(c);
        }
      }
      ParametersSurviveIff(e, c);
    }
  }

  lemma NamesAreThere(c: Call)
    requires WellNamed(c)
    ensures Renderable(c.params)
  {
    hide TrimSpace, DistinctNames;
  }

  lemma ParametersSurviveIff(e: Engine, c: Call)
    requires WellNamed(c) && c.params != [] && FirstIsEntry(e)
    ensures Simplify(e, c.name, Collected(e, c.params, map[])) == Given(c.params) <==> Faithful(e, c)
  {
    hide ParseValue, RenderText, TrimSpace, PlainValue, Collected, Given, Simplify, ReadTool, KeyedBy;
    var ps := c.params;
    var input := Collected(e, ps, map[]);
    BothKeyed(e, ps);
    assert ps[0].0 in input;
    var k := SimplifyShape(e, c.name, input);
    GatheredIsGivenIff(e, ps);
    if ReadTool(c.name) {
      if |ps| == 1 {
        OneEntry(e, ps, k);
      } else {
        assert ps[0].0 in Given(ps) && ps[1].0 in Given(ps) && ps[0].0 != ps[1].0;
        assert map[k := input[k]].Keys == {k};
      }
    }
  }

  lemma NothingGiven()
    ensures Given([]) == map[]
  {
  }

  lemma OneEntry(e: Engine, ps: seq<(string, string)>, k: string)
    requires |ps| == 1 && TrimSpace(ps[0].0) == ps[0].0 && k in Collected(e, ps, map[])
    ensures var input := Collected(e, ps, map[]); input == map[k := input[k]]
  {
    hide ParseValue, RenderText, TrimSpace;
    assert Collected(e, ps, map[]) == map[ps[0].0 := ParseValue(e, RenderText(ps[0].1))] by {
      assert Collected(e, ps, map[]) == Collected(e, ps[1..], map[ps[0].0 := ParseValue(e, RenderText(ps[0].1))]);
    }
  }

  lemma {:induction false} AllAreRead(e: Engine, json: seq<(string, string)> -> string, calls: seq<Call>)
    requires forall i :: 0 <= i < |calls| ==> TrimSpace(calls[i].name) != ""
    ensures var out := ReadCalls(e, json, calls);
      |out| == |calls| && forall i :: 0 <= i < |calls| ==> out[i] == ReadCall(e, json(calls[i].params), calls[i])
    decreases |calls|
  {
    hide TrimSpace, ReadCall;
    if calls != [] {
      AllAreRead(e, json, calls[1..]);
    }
  }

  lemma {:induction false} NamedCallsAreRendered(json: seq<(string, string)> -> string, calls: seq<Call>)
    requires calls != [] && TrimSpace(calls[0].name) != ""
    ensures Format(json, calls) != ""
  {
    hide TrimSpace, Join, Invoke;
    RenderedCall(json(calls[0].params), calls[0]);
  }

  /** Parsing what was rendered gives back the calls themselves exactly if each of them is
      faithful: it has parameters, just one if its name looks like a read tool's, and no value
      holds a section closer or reads as true, false, null or a number. */
  lemma {:induction false} RoundTripIff(e: Engine, json: seq<(string, string)> -> string, calls: seq<Call>)
    requires calls != [] && FirstIsEntry(e)
    requires forall i :: 0 <= i < |calls| ==> WellNamed(calls[i]) && TrimSpace(json(calls[i].params)) != ""
    ensures Parse(e, Format(json, calls)) == Sent(calls) <==> forall i :: 0 <= i < |calls| ==> Faithful(e, calls[i])
  {
    hide TrimSpace, Parse, Format, ReadCalls, ReadCall, Faithful, Given;
    NamedCallsAreRendered(json, calls);
    RenderedCallsReadBack(e, json, calls);
    AllAreRead(e, json, calls);
    var out, sent := ReadCalls(e, json, calls), Sent(calls);
    forall i | 0 <= i < |calls| ensures out[i] == sent[i] <==> Faithful(e, calls[i]) {
      CallSurvivesIff(e, json(calls[i].params), calls[i]);
    }
  }
}
