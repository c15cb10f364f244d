/** Tool calls as text: the renderer of the prompt history (internal/prompt/tool_calls.go) and the
    parser that reads calls out of a reply (internal/toolcall/toolcalls_parse_markup.go). */
module ToolCallText {
  import opened Options
  import opened Text
  import opened Markup
  import opened MarkupScan

  // Rendering.

  function EscapeChar(c: char): string {
    if c == '&' then "&amp;"
    else if c == '"' then "&quot;"
    else if c == '<' then "&lt;"
    else if c == '>' then "&gt;"
    else [c]
  }

  function Escape(s: string): string {
    if s == "" then "" else EscapeChar(s[0]) + Escape(s[1..])
  }

  const SECTION_OPEN := "<![CDATA["
  const SECTION_SPLIT := "]]]]><![CDATA[>"

  function SplitCloses(v: string): string
    decreases |v|
  {
    var i := IndexFrom(v, CDATA_CLOSE, 0);
    if i < 0 then v else v[..i] + SECTION_SPLIT + SplitCloses(v[i + 3..])
  }

  function RenderText(v: string): string {
    if v == "" then "" else SECTION_OPEN + SplitCloses(v) + CDATA_CLOSE
  }

  /** A call with string parameters, in the order the renderer writes them. */
  datatype Call = Call(name: string, params: seq<(string, string)>)

  const PARAM_INDENT := "    "

  /** An element whose only attribute is its name. */
  function Element(tag: string, name: string, body: string): string {
    "<" + tag + NameAttr(Escape(name)) + ">" + body + "</" + tag + ">"
  }

  function RenderParam(p: (string, string)): string {
    PARAM_INDENT + Element("parameter", TrimSpace(p.0), RenderText(p.1))
  }

  function Join(lines: seq<string>): string {
    if lines == [] then "" else if |lines| == 1 then lines[0] else lines[0] + "\n" + Join(lines[1..])
  }

  function RenderParams(ps: seq<(string, string)>): seq<string> {
    if ps == [] then [] else [RenderParam(ps[0])] + RenderParams(ps[1..])
  }

  predicate Renderable(ps: seq<(string, string)>) {
    forall i :: 0 <= i < |ps| ==> TrimSpace(ps[i].0) != ""
  }

  /** `json` is the JSON text of the arguments, used when they cannot be rendered as parameters. */
  function RenderArguments(json: string, ps: seq<(string, string)>): string {
    if Renderable(ps) && TrimSpace(Join(RenderParams(ps))) != "" then Join(RenderParams(ps))
    else if TrimSpace(json) == "" then ""
    else RenderParam(("content", json))
  }

  const CALL_INDENT := "  "

  function RenderCall(json: string, c: Call): string {
    if TrimSpace(c.name) == "" then ""
    else
      var arguments := RenderArguments(json, c.params);
      var body := if arguments == "" then "" else "\n" + arguments + "\n" + CALL_INDENT;
      CALL_INDENT + Element("invoke", TrimSpace(c.name), body)
  }

  function RenderCalls(json: seq<(string, string)> -> string, calls: seq<Call>): seq<string> {
    if calls == [] then []
    else
      var block := RenderCall(json(calls[0].params), calls[0]);
      (if block == "" then [] else [block]) + RenderCalls(json, calls[1..])
  }

  /** `FormatToolCallsForPrompt`. */
  function Format(json: seq<(string, string)> -> string, calls: seq<Call>): string {
    var blocks := RenderCalls(json, calls);
    if blocks == [] then "" else "<tool_calls>\n" + Join(blocks) + "\n</tool_calls>"
  }

  // Parsing.

  datatype Value =
    | Str(text: string)
    | Bool(flag: bool)
    | Null
    | Number(digits: string)
    | Other(raw: string)
    | Many(values: seq<Value>)

  datatype Parsed = Parsed(name: string, input: map<string, Value>)

  /** The library functions the parser relies on: which digit strings JSON reads as a number, the
      value of a body that is no CDATA section, the input object of a JSON body, the regular
      expression that restores a missing wrapper opener, the repair of broken markup, and which entry
      of a map comes first. */
  datatype Engine = Engine(
    number: string -> bool,
    other: string -> Value,
    jsonInput: string -> Option<map<string, Value>>,
    repair: string -> string,
    mend: string -> Option<string>,
    first: map<string, Value> -> string)

  function Unescape(s: string): string {
    if s == "" then ""
    else if "&amp;" <= s then "&" + Unescape(s[5..])
    else if "&quot;" <= s then "\"" + Unescape(s[6..])
    else if "&lt;" <= s then "<" + Unescape(s[4..])
    else if "&gt;" <= s then ">" + Unescape(s[4..])
    else [s[0]] + Unescape(s[1..])
  }

  predicate NameChar(c: char) {
    'a' <= LowerChar(c) <= 'z' || '0' <= c <= '9' || c == '_' || c == ':' || c == '-'
  }

  predicate WordAt(s: string, i: int) {
    0 <= i < |s| && ('a' <= LowerChar(s[i]) <= 'z' || '0' <= s[i] <= '9' || s[i] == '_')
  }

  function SkipNames(s: string, i: nat): (r: nat)
    ensures i <= r
    decreases |s| - i
  {
    if i < |s| && NameChar(s[i]) then SkipNames(s, i + 1) else i
  }

  function SkipBlanks(s: string, i: nat): (r: nat)
    ensures i <= r
    decreases |s| - i
  {
    if i < |s| && s[i] in " \t\n\r\U{C}" then SkipBlanks(s, i + 1) else i
  }

  datatype Attr = Attr(key: string, value: string, end: nat)

  /** One name="value" pair that starts at a word boundary at `i`. */
  function AttrAt(s: string, i: nat): (r: Option<Attr>)
    ensures r.Some? ==> i < r.value.end
  {
    var n := SkipNames(s, i);
    if n == i || WordAt(s, i - 1) == WordAt(s, i) then None
    else
      var e := SkipBlanks(s, n);
      if e >= |s| || s[e] != '=' || n > |s| then None
      else
        var q := SkipBlanks(s, e + 1);
        if q >= |s| || (s[q] != '"' && s[q] != '\'') then None
        else
          var c := IndexFrom(s, [s[q]], q + 1);
          if c < 0 then None else Some(Attr(s[i..n], s[q + 1..c], c + 1))
  }

  function Attrs(s: string, i: nat, acc: map<string, string>): map<string, string>
    decreases |s| - i
  {
    if i >= |s| then acc
    else match AttrAt(s, i)
      case None => Attrs(s, i + 1, acc)
      case Some(a) => Attrs(s, a.end, acc[LowerText(a.key) := a.value])
  }

  /** The `name` attribute of a tag, or the empty string. */
  function NameOf(attrs: string): string {
    var m := Attrs(attrs, 0, map[]);
    TrimSpace(Unescape(if "name" in m then m["name"] else ""))
  }

  function ExtractCdata(s: string): Option<string> {
    if |s| >= 12 && At(s, 0, CDATA_OPEN) && At(s, |s| - 3, CDATA_CLOSE) then Some(s[9..|s| - 3]) else None
  }

  predicate PureNumber(s: string) {
    && s != "" && s != "-"
    && (forall i :: 0 <= i < |s| ==> '0' <= s[i] <= '9' || s[i] == '.' || (i == 0 && s[i] == '-'))
    && (forall i, j :: 0 <= i < j < |s| ==> !(s[i] == '.' && s[j] == '.'))
  }

  function CdataValue(e: Engine, v: string): Value {
    var clean := TrimSpace(v);
    if SameWord(clean, "true") then Bool(true)
    else if SameWord(clean, "false") then Bool(false)
    else if SameWord(clean, "null") then Null
    else if PureNumber(clean) && e.number(clean) then Number(clean)
    else Str(v)
  }

  /** `parseParameterValuePreserveXML`. */
  function ParseValue(e: Engine, raw: string): Value {
    var trimmed := TrimSpace(raw);
    if trimmed == "" then Str("")
    else match ExtractCdata(trimmed)
      case Some(v) => CdataValue(e, v)
      case None => e.other(trimmed)
  }

  function Append(input: map<string, Value>, key: string, v: Value): map<string, Value> {
    if key !in input then input[key := v]
    else
      input[key := match input[key]
                   case Many(vs) => Many(vs + [v])
                   case one => Many([one, v])]
  }

  function Gather(e: Engine, blocks: seq<Block>, input: map<string, Value>): map<string, Value>
    decreases blocks
  {
    if blocks == [] then input
    else
      var key := NameOf(blocks[0].attrs);
      Gather(e, blocks[1..], if key == "" then input else Append(input, key, ParseValue(e, blocks[0].body)))
  }

  predicate ReadTool(name: string) {
    SameWord(name, "read") || (|name| >= 4 && At(name, |name| - 4, "read")) || IndexFrom(name, "read_", 0) >= 0
  }

  /** A read tool keeps one parameter: a path if it has one, otherwise any. */
  function Simplify(e: Engine, name: string, input: map<string, Value>): map<string, Value> {
    if !ReadTool(name) || input == map[] then input
    else if "file_path" in input then map["file_path" := input["file_path"]]
    else if "path" in input then map["path" := input["path"]]
    else if "file" in input then map["file" := input["file"]]
    else if "filepath" in input then map["filepath" := input["filepath"]]
    else if e.first(input) in input then map[e.first(input) := input[e.first(input)]]
    else input
  }

  function ParseCall(e: Engine, b: Block): Option<Parsed> {
    var name := NameOf(b.attrs);
    var inner := TrimSpace(b.body);
    if name == "" then None
    else if "{" <= inner && e.jsonInput(inner).Some? then
      Some(Parsed(name, Simplify(e, name, e.jsonInput(inner).value)))
    else
      var input := Simplify(e, name, Gather(e, Blocks(inner, "parameter", 0), map[]));
      if input == map[] && inner != "" then None else Some(Parsed(name, input))
  }

  function ParseAll(e: Engine, bs: seq<Block>): seq<Parsed> {
    if bs == [] then []
    else (match ParseCall(e, bs[0]) case None => [] case Some(p) => [p]) + ParseAll(e, bs[1..])
  }

  function InWrappers(e: Engine, ws: seq<Block>): seq<Parsed> {
    if ws == [] then [] else ParseAll(e, Blocks(ws[0].body, "invoke", 0)) + InWrappers(e, ws[1..])
  }

  predicate InsideAny(b: Block, ws: seq<Block>) {
    exists i :: 0 <= i < |ws| && ws[i].start <= b.start && b.end <= ws[i].end
  }

  function Bare(bs: seq<Block>, ws: seq<Block>): seq<Block> {
    if bs == [] then [] else (if InsideAny(bs[0], ws) then [] else [bs[0]]) + Bare(bs[1..], ws)
  }

  /** `parseXMLToolCalls`. */
  function Parse(e: Engine, text: string): seq<Parsed> {
    var found := Blocks(text, "tool_calls", 0);
    var ws := if found == [] && e.repair(text) != text then Blocks(e.repair(text), "tool_calls", 0) else found;
    InWrappers(e, ws) + ParseAll(e, Bare(Blocks(text, "invoke", 0), ws))
  }
}
