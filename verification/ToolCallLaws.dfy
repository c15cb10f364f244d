/** What the parser makes of calls: their values, their arguments as a whole, and where they stand. */
module ToolCallLaws {
  import opened Options
  import opened Text
  import opened TextLaws
  import opened Markup
  import opened MarkupScan
  import opened ToolCallText
  import opened ToolCallNames
  import opened MarkupInert
  import opened ToolCallRoundTrip

  // Arguments.

  /** Blanks around a value do not matter. */
  lemma BlanksAroundValue(e: Engine, a: string, raw: string, b: string)
    requires All(a, SPACES) && All(b, SPACES)
    ensures ParseValue(e, a + raw + b) == ParseValue(e, raw)
  {
    hide CdataValue, ExtractCdata, TrimSpace, SPACES;
    TrimPast(a, raw, b);
  }

  /** The values given under one key, in order. */
  function ValuesOf(e: Engine, blocks: seq<Block>, key: string): seq<Value> {
    if blocks == [] then []
    else
      (if NameOf(blocks[0].attrs) == key then [ParseValue(e, blocks[0].body)] else [])
      + ValuesOf(e, blocks[1..], key)
  }

  /** One value stands for itself, several are listed in order; to a list that comes first the others
      are added. */
  function Collect(vs: seq<Value>): Value
    requires vs != []
  {
    if |vs| == 1 then vs[0] else if vs[0].Many? then Many(vs[0].values + vs[1..]) else Many(vs)
  }

  predicate Follows(before: Option<Value>, vs: seq<Value>, after: Option<Value>) {
    match before
    case None => if vs == [] then after == None else after == Some(Collect(vs))
    case Some(v) => after == Some(Collect([v] + vs))
  }

  function Entry(m: map<string, Value>, key: string): Option<Value> {
    if key in m then Some(m[key]) else None
  }

  lemma CollectMore(v: Value, w: Value, vs: seq<Value>)
    ensures Collect([Collect([v, w])] + vs) == Collect([v] + ([w] + vs))
  {
    assert ([v] + ([w] + vs))[1..] == [w] + vs && [v, w][1..] == [w];
    assert ([Collect([v, w])] + vs)[1..] == vs;
    if v.Many? {
      assert v.values + [w] + vs == v.values + ([w] + vs);
    } else {
      assert [v, w] + vs == [v] + ([w] + vs);
    }
  }

  lemma Appended(m: map<string, Value>, key: string, v: Value)
    ensures Append(m, key, v)[key] == if key in m then Collect([m[key], v]) else v
    ensures forall k :: k != key ==> Entry(Append(m, key, v), k) == Entry(m, k)
    ensures key in Append(m, key, v)
  {
    if key in m {
      assert [m[key], v][1..] == [v];
    }
  }

  /** The arguments of a call are what was given under each name, nothing lost and nothing else; what
      has no name is dropped. */
  lemma {:induction false} ArgumentsCollect(e: Engine, blocks: seq<Block>, input: map<string, Value>, key: string)
    ensures var out := Gather(e, blocks, input);
      if key == "" then Entry(out, key) == Entry(input, key)
      else Follows(Entry(input, key), ValuesOf(e, blocks, key), Entry(out, key))
    decreases |blocks|
  {
    hide NameOf, ParseValue, Append, Collect;
    if blocks == [] {
      CollectOne(input, key);
    } else {
      var name, v := NameOf(blocks[0].attrs), ParseValue(e, blocks[0].body);
      var next := if name == "" then input else Append(input, name, v);
      Appended(input, name, v);
      ArgumentsCollect(e, blocks[1..], next, key);
      var rest := ValuesOf(e, blocks[1..], key);
      if name == key {
        if key in input {
          CollectMore(input[key], v, rest);
        }
      } else {
        assert ValuesOf(e, blocks, key) == rest;
      }
    }
  }

  lemma CollectOne(m: map<string, Value>, key: string)
    ensures key in m ==> Collect([m[key]] + []) == m[key]
  {
  }

  predicate EndsInRead(t: string, a: string, b: string) {
    t == a + "read" + b && (b == "" || b[0] == '_')
  }

  /** A read tool is one whose name ends in "read" or holds "read_", in any letter case. */
  lemma ReadToolIff(name: string)
    ensures ReadTool(name) <==> exists a, b :: EndsInRead(LowerText(name), a, b)
  {
    var t := LowerText(name);
    if ReadTool(name) {
      var i := ReadAt(name);
      assert t == t[..i] + "read" + t[i + 4..];
      assert EndsInRead(t, t[..i], t[i + 4..]);
    }
    if a, b :| EndsInRead(t, a, b) {
      ReadFrom(name, a, b);
    }
  }

  lemma ReadAt(name: string) returns (i: nat)
    requires ReadTool(name)
    ensures var t := LowerText(name);
      i + 4 <= |t| && t[i..i + 4] == "read" && (i + 4 < |t| ==> t[i + 4] == '_')
  {
    if SameWord(name, "read") {
      i := 0;
      LowerOf(name, 0, "read");
    } else if |name| >= 4 && At(name, |name| - 4, "read") {
      i := |name| - 4;
      LowerOf(name, i, "read");
    } else {
      i := IndexFrom(name, "read_", 0);
      LowerOf(name, i, "read_");
      assert LowerText(name)[i + 4] == LowerText(name)[i..i + 5][4];
      assert LowerText(name)[i..i + 4] == LowerText(name)[i..i + 5][..4];
    }
  }

  lemma LowerOf(s: string, i: nat, p: string)
    requires i + |p| <= |s|
    ensures At(s, i, p) <==> LowerText(s)[i..i + |p|] == p
  {
    var t := LowerText(s)[i..i + |p|];
    forall k | 0 <= k < |p| ensures t[k] == LowerChar(s[i + k]) {
    }
    if At(s, i, p) {
      forall k | 0 <= k < |p| ensures t[k] == p[k] {
        AtChar(s, i, p, k);
      }
    }
    if t == p {
      forall k | 0 <= k < |p| ensures LowerChar(s[i + k]) == p[k] {
        assert t[k] == p[k];
      }
    }
  }

  lemma ReadFrom(name: string, a: string, b: string)
    requires LowerText(name) == a + "read" + b && (b == "" || b[0] == '_')
    ensures ReadTool(name)
  {
    hide IndexFrom;
    var t := LowerText(name);
    assert t[|a|..|a| + 4] == "read";
    LowerOf(name, |a|, "read");
    if b != "" {
      assert t[|a|..|a| + 5] == "read_" by {
        assert t[|a| + 4] == b[0];
      }
      LowerOf(name, |a|, "read_");
    }
  }

  /** What names a file, the best first. */
  const PATH_KEYS := ["file_path", "path", "file", "filepath"]

  /** A read tool keeps the first of these that it is given, and that alone. */
  lemma ReadKeepsFirst(e: Engine, name: string, input: map<string, Value>, k: nat)
    requires ReadTool(name) && k < 4 && PATH_KEYS[k] in input && forall j :: 0 <= j < k ==> PATH_KEYS[j] !in input
    ensures Simplify(e, name, input) == map[PATH_KEYS[k] := input[PATH_KEYS[k]]]
  {
    hide ReadTool;
    assert k > 0 ==> PATH_KEYS[0] !in input;
    assert k > 1 ==> PATH_KEYS[1] !in input;
    assert k > 2 ==> PATH_KEYS[2] !in input;
  }

  // Calls.

  predicate Blank(s: string) {
    All(s, SPACES)
  }

  /** What one call is read as: a name and either a JSON object, between blanks, or nothing. */
  ghost predicate Says(e: Engine, name: string, body: string, call: Parsed) {
    && TrimSpace(name) == call.name != ""
    && (if Blank(body) then call.input == map[]
        else exists a, json, b, m :: IsObject(e, body, a, json, b, m) && call.input == Simplify(e, call.name, m))
  }

  ghost predicate IsObject(e: Engine, body: string, a: string, json: string, b: string, m: map<string, Value>) {
    && body == a + json + b && Blank(a) && Blank(b)
    && json != "" && json[0] == '{' && json[|json| - 1] !in SPACES && e.jsonInput(json) == Some(m)
  }

  lemma SaidIsRead(e: Engine, name: string, body: string, start: nat, end: nat, call: Parsed)
    requires Says(e, name, body, call)
    ensures ParseCall(e, Block(NameAttr(Escape(name)), body, start, end)) == Some(call)
  {
    hide TrimSpace, SPACES, Simplify, Gather, NameOf, Escape, NameAttr, All;
    NameReadsBack(name);
    TrimsToNothing(body);
    if Blank(body) {
      NothingInside();
      assert Gather(e, [], map[]) == map[] by { NothingGathered(e); }
      NothingToSimplify(e, call.name);
    } else {
      var a, json, b, m :| IsObject(e, body, a, json, b, m) && call.input == Simplify(e, call.name, m);
      BraceIsNoBlank();
      TrimPadded(a, json, b);
      assert "{" <= json;
    }
  }

  /** A call without a name is dropped, and one with text in it but neither parameters nor an object. */
  lemma StrayTextIsDropped(e: Engine, name: string, body: string, start: nat, end: nat)
    requires
      || Blank(name)
      || (!Blank(body) && !("{" <= TrimSpace(body)) && Blocks(TrimSpace(body), "parameter", 0) == [])
    ensures ParseCall(e, Block(NameAttr(Escape(name)), body, start, end)) == None
  {
    hide TrimSpace, SPACES, Gather, NameOf, Escape, NameAttr, All, Blocks;
    NameReadsBack(name);
    TrimsToNothing(name);
    TrimsToNothing(body);
    NothingGathered(e);
    NothingToSimplify(e, TrimSpace(name));
  }

  lemma NothingInside()
    ensures Blocks("", "parameter", 0) == []
  {
  }

  lemma NothingGathered(e: Engine)
    ensures Gather(e, [], map[]) == map[]
  {
  }

  lemma NothingToSimplify(e: Engine, name: string)
    ensures Simplify(e, name, map[]) == map[]
  {
  }

  lemma BraceIsNoBlank()
    ensures '{' !in SPACES
  {
  }

  /** A body that is passed over whichever tag is looked for. */
  ghost predicate Harmless(body: string) {
    Inert("invoke", body) && Inert("tool_calls", body)
  }

  lemma InvokeIsNext(e: Engine, text: string, i: nat, name: string, body: string, call: Parsed)
    requires Says(e, name, body, call) && Harmless(body) && Sub(text, i, Element("invoke", name, body))
    ensures var j := i + |Element("invoke", name, body)|;
      && j <= |text|
      && Blocks(text, "invoke", i) == [Block(NameAttr(Escape(name)), body, i, j)] + Blocks(text, "invoke", j)
      && ParseCall(e, Block(NameAttr(Escape(name)), body, i, j)) == Some(call)
      && Inert("tool_calls", Element("invoke", name, body))
  {
    hide Blocks, ParseCall, Says, Inert, Sub, Element, NameAttr, Escape;
    SaidIsRead(e, name, body, i, i + |Element("invoke", name, body)|, call);
    ElementIsBlock(text, "invoke", i, name, body);
    InertElement("tool_calls", "invoke", name, body);
  }

  /** A call outside of any wrapper is read. */
  lemma BareCallIsRead(e: Engine, name: string, body: string, call: Parsed)
    requires Says(e, name, body, call) && Harmless(body)
    requires var text := Element("invoke", name, body); e.repair(text) == text
    ensures Parse(e, Element("invoke", name, body)) == [call]
  {
    hide Blocks, ParseCall, Says, Inert, Sub, Element, Harmless;
    var text := Element("invoke", name, body);
    SubWhole(text);
    InvokeIsNext(e, text, 0, name, body, call);
    Nothing(text, "tool_calls");
    NothingLeft(text, "invoke", |text|);
    OnlyBare(e, text, Block(NameAttr(Escape(name)), body, 0, |text|), call);
  }

  lemma Nothing(text: string, tag: string)
    requires Inert(tag, text)
    ensures Blocks(text, tag, 0) == []
  {
    hide Blocks, Passes, Sub;
    SubWhole(text);
    PassBlocks(text, tag, 0, |text|);
    NothingLeft(text, tag, |text|);
  }

  lemma OnlyBare(e: Engine, text: string, b: Block, call: Parsed)
    requires Blocks(text, "tool_calls", 0) == [] && Blocks(text, "invoke", 0) == [b] + []
    requires e.repair(text) == text && ParseCall(e, b) == Some(call)
    ensures Parse(e, text) == [call]
  {
    hide Blocks, ParseCall;
    assert [b][1..] == [] && [b] + [] == [b];
    assert Bare([b], []) == [b];
    ParseAllOne(e, b, []);
  }

  /** A call in a wrapper and one behind it are both read, each once. */
  lemma MixedCallsAreRead(e: Engine, name: string, body: string, call: Parsed,
                          name2: string, body2: string, call2: Parsed)
    requires Says(e, name, body, call) && Harmless(body) && Says(e, name2, body2, call2) && Harmless(body2)
    ensures Parse(e, "<tool_calls>" + Element("invoke", name, body) + "</tool_calls>" + Element("invoke", name2, body2))
         == [call, call2]
  {
    hide Blocks, ParseCall, Says, Inert, Sub, Element, Harmless, Parse;
    var first, second := Element("invoke", name, body), Element("invoke", name2, body2);
    var text := "<tool_calls>" + first + "</tool_calls>" + second;
    var i, j, k := 12, 12 + |first|, 12 + |first| + 13;
    SubWhole(text);
    SubSplit(text, 0, "<tool_calls>" + first + "</tool_calls>", second);
    SubSplit(text, 0, "<tool_calls>" + first, "</tool_calls>");
    SubSplit(text, 0, "<tool_calls>", first);
    InvokeIsNext(e, text, i, name, body, call);
    InvokeIsNext(e, text, k, name2, body2, call2);
    TagsPassed(text, j);
    assert j + 13 == k;
    NothingLeft(text, "invoke", |text|);
    WrapperFound(text, first, second);
    var b, b2 := Block(NameAttr(Escape(name)), body, i, j), Block(NameAttr(Escape(name2)), body2, k, |text|);
    assert Blocks(text, "invoke", 0) == [b, b2];
    SubWhole(first);
    InvokeIsNext(e, first, 0, name, body, call);
    NothingLeft(first, "invoke", |first|);
    BothRead(e, text, Block("", first, 0, k), b, b2, Block(NameAttr(Escape(name)), body, 0, |first|), call, call2);
  }

  /** The tags of a wrapper are passed over when calls are looked for. */
  lemma TagsPassed(text: string, j: nat)
    requires Sub(text, 0, "<tool_calls>") && Sub(text, j, "</tool_calls>")
    ensures Blocks(text, "invoke", 0) == Blocks(text, "invoke", 12)
    ensures Blocks(text, "invoke", j) == Blocks(text, "invoke", j + 13)
  {
    hide Blocks, Sub, Passes;
    assert NoAngle(">");
    InertTags("invoke", "tool_calls", ">");
    assert "<" + "tool_calls" + ">" == "<tool_calls>" && "</" + "tool_calls" + ">" == "</tool_calls>";
    PassBlocks(text, "invoke", 0, 12);
    PassBlocks(text, "invoke", j, j + 13);
  }

  lemma WrapperFound(text: string, first: string, second: string)
    requires text == "<tool_calls>" + first + "</tool_calls>" + second
    requires Inert("tool_calls", first) && Inert("tool_calls", second)
    ensures Blocks(text, "tool_calls", 0) == [Block("", first, 0, |first| + 25)]
  {
    hide Blocks, TagEnd, Passes, FindStart, FindEnd, Sub;
    var tag := "tool_calls";
    SubWhole(text);
    SubSplit(text, 0, "<tool_calls>" + first + "</tool_calls>", second);
    assert "<" + tag + "" + ">" + first + "</" + tag + ">" == "<tool_calls>" + first + "</tool_calls>";
    ElementParts(text, tag, 0, "", first);
    assert "" + ">" == ">";
    SubChar(text, |tag| + 1, ">", 0);
    EndsHere(text, |tag| + 1);
    ElementFound(text, tag, 0, "", |first|);
    BlockFromParts(text, tag, 0, "", first);
    PassBlocks(text, tag, |first| + 25, |text|);
    NothingLeft(text, tag, |text|);
  }

  lemma BothRead(e: Engine, text: string, w: Block, b: Block, b2: Block, b1: Block, call: Parsed, call2: Parsed)
    requires Blocks(text, "tool_calls", 0) == [w] && Blocks(text, "invoke", 0) == [b, b2]
    requires Blocks(w.body, "invoke", 0) == [b1] + []
    requires w.start <= b.start && b.end <= w.end < b2.end
    requires ParseCall(e, b1) == Some(call) && ParseCall(e, b2) == Some(call2)
    ensures Parse(e, text) == [call, call2]
  {
    hide Blocks, ParseCall;
    assert [w][1..] == [] && [b1] + [] == [b1] && [b, b2][1..] == [b2] && [b2][1..] == [];
    assert InsideAny(b, [w]) by { assert [w][0] == w; }
    assert !InsideAny(b2, [w]);
    assert Bare([b2], [w]) == [b2] + Bare([], [w]) == [b2];
    assert Bare([b, b2], [w]) == [] + Bare([b2], [w]) == [b2];
    ParseAllOne(e, b1, []);
    ParseAllOne(e, b2, []);
    assert [b2] + [] == [b2];
    assert ParseAll(e, [b2]) == [call2] && ParseAll(e, [b1]) == [call];
    assert InWrappers(e, [w]) == [call] + InWrappers(e, []) == [call];
    assert Parse(e, text) == [call] + [call2] == [call, call2];
  }

  /** If nothing is found in a text, what its repair restores is read in its place. */
  lemma RepairIsRead(e: Engine, text: string, name: string, body: string, call: Parsed)
    requires Says(e, name, body, call) && Harmless(body)
    requires Blocks(text, "tool_calls", 0) == [] && Blocks(text, "invoke", 0) == []
    requires e.repair(text) == "<tool_calls>" + Element("invoke", name, body) + "</tool_calls>"
    ensures Parse(e, text) == [call]
  {
    hide Blocks, ParseCall, Says, Inert, Sub, Element, Harmless;
    var inner := Element("invoke", name, body);
    SubWhole(inner);
    InvokeIsNext(e, inner, 0, name, body, call);
    NothingLeft(inner, "invoke", |inner|);
    var whole := "<tool_calls>" + inner + "</tool_calls>";
    assert whole == "<" + "tool_calls" + ">" + inner + "</" + "tool_calls" + ">";
    WrapperIsBlock(whole, "tool_calls", inner);
    var w, b := Block("", inner, 0, |whole|), Block(NameAttr(Escape(name)), body, 0, |inner|);
    assert [w][1..] == [] && [b] + [] == [b];
    ParseAllOne(e, b, []);
    assert InWrappers(e, [w]) == [call] + [];
  }
}
