/** Renderer and parser together: what the parser of a reply, with its fences and repeated reads,
    makes of rendered tool calls. */
module RenderedCalls {
  import opened Text
  import opened FencedText
  import opened FencedLines
  import opened FenceCuts
  import opened FencedCalls
  import opened ToolCallText
  import opened ToolCallNames
  import opened ToolCallRoundTrip
  import opened ToolCallReply

  lemma FormatTrims(json: seq<(string, string)> -> string, calls: seq<Call>)
    requires RenderCalls(json, calls) != []
    ensures var t := Format(json, calls); t != "" && TrimSpace(t) == t
  {
    hide TrimSpace, Join, RenderCalls;
    var t := Format(json, calls);
    var lines := Join(RenderCalls(json, calls));
    assert t == "<tool_calls>\n" + lines + "\n</tool_calls>";
    assert t[0] == '<' && t[|t| - 1] == '>';
    TrimPadded("", t, "");
    assert "" + t + "" == t;
  }

  lemma {:induction false} SomeRead(e: Engine, json: seq<(string, string)> -> string, calls: seq<Call>)
    ensures ReadCalls(e, json, calls) == [] ==> RenderCalls(json, calls) == []
    ensures forall i :: 0 <= i < |ReadCalls(e, json, calls)| ==> ReadCalls(e, json, calls)[i].name != ""
    decreases |calls|
  {
    hide TrimSpace, RenderCall, Simplify, Shown;
    if calls != [] {
      SomeRead(e, json, calls[1..]);
      if TrimSpace(calls[0].name) == "" {
        NamelessIsDropped(json(calls[0].params), calls[0]);
      }
    }
  }

  /** A rendering in which no fence opens is read as the calls it shows, repeated reads dropped. */
  lemma {:induction false} ReplyReadsBack(e: Engine, json: seq<(string, string)> -> string, calls: seq<Call>)
    requires RenderCalls(json, calls) != [] && QuietCalls(json, calls)
    ensures ParseReply(e, Format(json, calls)) == WithoutRepeats(e, ReadCalls(e, json, calls)) != []
  {
    hide Format, RenderCalls, QuietCalls, ReadCalls, TrimSpace, Parse, WithoutRepeats, StripFences;
    FormatTrims(json, calls);
    StripLeavesCallsIff(json, calls);
    RenderedCallsReadBack(e, json, calls);
    SomeRead(e, json, calls);
    FirstStays(e, ReadCalls(e, json, calls));
  }

  /** All calls a quiet rendering shows are read exactly if no two of them read one path. */
  lemma {:induction false} AllAreReadIff(e: Engine, json: seq<(string, string)> -> string, calls: seq<Call>)
    requires RenderCalls(json, calls) != [] && QuietCalls(json, calls)
    ensures var read := ReadCalls(e, json, calls); ParseReply(e, Format(json, calls)) == read <==> NoRepeats(e, read)
  {
    hide Format, RenderCalls, QuietCalls, ReadCalls, ParseReply, WithoutRepeats, NoRepeats;
    ReplyReadsBack(e, json, calls);
    SomeRead(e, json, calls);
    NothingDroppedIff(e, ReadCalls(e, json, calls));
  }

  /** A quiet rendering is read as the calls themselves exactly if each of them is faithful and no
      two of them read one path. */
  lemma {:induction false} ReplyRoundTripIff(e: Engine, json: seq<(string, string)> -> string, calls: seq<Call>)
    requires calls != [] && FirstIsEntry(e) && QuietCalls(json, calls)
    requires forall i :: 0 <= i < |calls| ==> WellNamed(calls[i]) && TrimSpace(json(calls[i].params)) != ""
    ensures ParseReply(e, Format(json, calls)) == Sent(calls) <==>
      (forall i :: 0 <= i < |calls| ==> Faithful(e, calls[i])) && NoRepeats(e, Sent(calls))
  {
    hide Format, RenderCalls, QuietCalls, ReadCalls, ReadCall, ParseReply, WithoutRepeats, NoRepeats, Faithful;
    hide Parse, TrimSpace;
    var read, sent := ReadCalls(e, json, calls), Sent(calls);
    NamedCallsAreRendered(json, calls);
    assert RenderCalls(json, calls) != [] by { FormatOfNone(json, calls); }
    ReplyReadsBack(e, json, calls);
    SomeRead(e, json, calls);
    NothingDroppedIff(e, read);
    AllAreRead(e, json, calls);
    RenderedCallsReadBack(e, json, calls);
    RoundTripIff(e, json, calls);
    assert |sent| == |calls| == |read|;
  }

  lemma FormatOfNone(json: seq<(string, string)> -> string, calls: seq<Call>)
    ensures RenderCalls(json, calls) == [] ==> Format(json, calls) == ""
  {
    hide RenderCalls, Join;
  }

  // Two renderings that are not read as what they show.

  const JSON := (ps: seq<(string, string)>) => "{}"

  /** Two reads of one file. */
  const READ := Call("Read", [("path", "/a")])

  /** A parameter whose name holds a fence marker, so that the scan does not see its section start,
      and whose value holds a fence. */
  const KEY := "k```"
  const FENCED := "x\n```\ny\n```\nz"
  const UNFENCED := "x\nz"

  lemma JsonIsThere()
    ensures TrimSpace("{}") == "{}"
  {
    assert "" + "{}" + "" == "{}";
    TrimPadded("", "{}", "");
  }

  lemma Trimmed(s: string)
    requires s != "" && s[0] !in SPACES && s[|s| - 1] !in SPACES
    ensures TrimSpace(s) == s
  {
    assert "" + s + "" == s;
    TrimPadded("", s, "");
  }

  lemma PlainName(n: string)
    requires forall i :: 0 <= i < |n| ==> n[i] !in "`~\n"
    ensures QuietLines(n) && !HasMarker(LastLine(n))
  {
    assert n + "" == n;
    QuietSkip(n, "");
    NoLines0();
    OnlyLine(n);
    MarkSkip(n, "");
  }

  lemma PlainValueHere(e: Engine, v: string)
    requires TrimSpace(v) == v != "" && v[0] !in "-.0123456789" && LowerChar(v[0]) !in "tfn"
    requires forall i :: 0 <= i < |v| ==> v[i] != ']'
    ensures PlainValue(e, v)
  {
    hide TrimSpace;
    forall i | 0 <= i <= |v| ensures !At(v, i, CDATA_CLOSE) {
      if At(v, i, CDATA_CLOSE) {
        AtChar(v, i, CDATA_CLOSE, 0);
      }
    }
    assert !PureNumber(v);
    NotWord(v, "true");
    NotWord(v, "false");
    NotWord(v, "null");
  }

  lemma NotWord(v: string, word: string)
    requires v != "" && word != "" && LowerChar(v[0]) != word[0]
    ensures !SameWord(v, word)
  {
    hide At;
    AtFirst(v, word);
  }

  lemma ReadIsFaithful(e: Engine)
    ensures WellNamed(READ) && Faithful(e, READ) && QuietCall("{}", READ) && TrimSpace("Read") == "Read"
  {
    hide TrimSpace, PlainValue, ReadTool, QuietLines, HasMarker, LastLine, QuietOutside, AfterLine;
    Trimmed("Read");
    Trimmed("path");
    PlainPath(e);
    PlainName("Read");
    PlainName("path");
    assert Shown("{}", READ) == [("path", "/a")];
  }

  lemma PlainPath(e: Engine)
    ensures PlainValue(e, "/a")
  {
    hide TrimSpace, PlainValue;
    Trimmed("/a");
    PlainValueHere(e, "/a");
  }

  lemma OneGiven(k: string, v: string)
    ensures Given([(k, v)]) == map[k := Str(v)]
  {
    assert [(k, v)][1..] == [];
  }

  /** Of two rendered reads of one file only the first is read. */
  lemma {:induction false} RepeatedReadIsDropped(e: Engine)
    requires FirstIsEntry(e)
    ensures var read := Parsed("Read", map["path" := Str("/a")]);
      && ReadCalls(e, JSON, [READ, READ]) == [read, read]
      && Format(JSON, [READ, READ]) != "" && ParseReply(e, Format(JSON, [READ, READ])) == [read]
  {
    hide TrimSpace, Faithful, QuietCall, ReadCall, ParseReply, Format, RenderCalls, WellNamed, Given;
    var calls := [READ, READ];
    var read := Parsed("Read", map["path" := Str("/a")]);
    ReadIsFaithful(e);
    JsonIsThere();
    CallSurvivesIff(e, "{}", READ);
    OneGiven("path", "/a");
    AllAreRead(e, JSON, calls);
    assert ReadCalls(e, JSON, calls) == [read, read];
    NamedCallsAreRendered(JSON, calls);
    FormatOfNone(JSON, calls);
    ReplyReadsBack(e, JSON, calls);
    ReadTwice(e, read);
  }

  lemma ReadTwice(e: Engine, c: Parsed)
    requires c == Parsed("Read", map["path" := Str("/a")])
    ensures WithoutRepeats(e, [c, c]) == [c]
  {
    hide ReadKey, ReadBefore;
    ReadsPath(e, c);
    assert [c, c][..1] == [c] && [c][..0] == [];
    BeforeOne(e, c);
    assert WithoutRepeats(e, [c]) == [c];
  }

  lemma ReadsPath(e: Engine, c: Parsed)
    requires c == Parsed("Read", map["path" := Str("/a")])
    ensures ReadKey(e, c) == "/a"
  {
    assert ReadTool("Read") by {
      assert LowerChar('R') == 'r';
      assert SameWord("Read", "read");
    }
  }

  lemma BeforeOne(e: Engine, c: Parsed)
    requires ReadKey(e, c) != "" && c.name != ""
    ensures ReadBefore(e, [c], c) && !ReadBefore(e, [], c)
  {
    hide ReadKey;
    assert SameRead(e, [c][0], c);
  }

  // The fence.

  /** A small fence between lines without any is cut out. */
  lemma {:induction false} SmallFenceIsCut(a: string, b: string)
    requires a != "" && Closed(a) && Quiet(false, a) && !Left(false, a) && Quiet(false, b)
    ensures StripFences(a + ("```\n" + ("y\n" + ("```\n" + b)))) == a + b
  {
    hide StripFences, Quiet, Left, SectionFirst, Opens, Closes, NeverCloses, Sections;
    SmallFence();
    FenceIsCut(a, "```\n", "y\n", "```\n", b, "", "\n", "", "\n", '`', 3, 3);
    assert "" + b == b;
    QuietJoin(false, a, b);
    StripLeavesIff(a + b);
  }

  lemma SmallFence()
    ensures Opens("```\n", "", '`', 3, "\n") && Closes("```\n", "", '`', 3, "\n")
    ensures !SectionFirst("```\n") && Closed("y\n") && !Left(false, "y\n")
    ensures NeverCloses(false, '`', 3, "y\n") && Sections(false, "y\n") == ""
  {
    hide SectionFirst;
    NoSection("```\n");
    NoSection("y\n");
    assert Run('`', 3) == "```";
    assert Line("y\n") == "y\n" && "y\n"[2..] == "";
    forall a, k: nat, b | k >= 3 ensures !Closes("y\n", a, '`', k, b) {
      CloserHasMark("y\n", a, '`', k, b);
    }
  }

  /** The rendering of one call with one parameter. */
  lemma OneCallText(name: string, key: string, v: string)
    requires TrimSpace(name) == name != "" && TrimSpace(key) == key != "" && v != ""
    requires Escape(name) == name && Escape(key) == key && forall i :: 0 <= i < |v| ==> v[i] != ']'
    ensures var calls := [Call(name, [(key, v)])];
      && RenderCalls(JSON, calls) != []
      && Format(JSON, calls) ==
           ("<tool_calls>\n" + (INVOKE_HEAD + (name + "\">") + "" + "\n") + (PARAM_HEAD + (key + "\">")))
           + SECTION_OPEN + v + (VALUE_END + INVOKE_END + "</tool_calls>")
  {
    hide TrimSpace, Escape, RenderCalls, Format, SplitCloses, Join, Invoke, ParamLine, CallLine, Lines, RenderCall;
    var c := Call(name, [(key, v)]);
    var calls := [c];
    assert Shown("{}", c) == c.params;
    NamedCallsAreRendered(JSON, calls);
    FormatOfNone(JSON, calls);
    RenderedLines(JSON, calls);
    JoinedLines(RenderCalls(JSON, calls));
    RestIsLines(JSON, calls);
    FormatIs(JSON, calls);
    CallParts("{}", c);
    ParamParts((key, v));
    SplitPrefix(v, |v|);
    assert v[..|v|] == v && v[|v|..] == "";
    EmptySplit();
    assert SplitCloses(v) == v;
    assert calls[1..] == [] && CallLines(JSON, []) == "";
    assert CallLines(JSON, calls) == CallLine("{}", c) + "";
    assert c.params[1..] == [] && ParamLines(c.params) == ParamLine((key, v)) + ParamLines([]);
    assert ParamLines([]) == "";
    TextParts(INVOKE_HEAD + (name + "\">") + "" + "\n", PARAM_HEAD + (key + "\">"), v);
  }

  lemma FormatIs(json: seq<(string, string)> -> string, calls: seq<Call>)
    requires RenderCalls(json, calls) != []
    requires "\n" + Join(RenderCalls(json, calls)) + "\n" == "\n" + CallLines(json, calls)
    ensures Format(json, calls) == "<tool_calls>\n" + (CallLines(json, calls) + "</tool_calls>")
  {
    hide RenderCalls, Join, CallLines;
    FormatLines(Join(RenderCalls(json, calls)), CallLines(json, calls));
  }

  lemma TextParts(first: string, head: string, v: string)
    ensures var param := head + (SECTION_OPEN + (v + VALUE_END));
      "<tool_calls>\n" + ((first + (param + "" + INVOKE_END)) + "" + "</tool_calls>")
         == ("<tool_calls>\n" + first + head) + SECTION_OPEN + v + (VALUE_END + INVOKE_END + "</tool_calls>")
  {
  }

  lemma {:induction false} EscapeSame(s: string)
    requires forall i :: 0 <= i < |s| ==> s[i] !in "&\"<>"
    ensures Escape(s) == s
  {
    if s != "" {
      EscapeSame(s[1..]);
    }
  }

  lemma MarkedName()
    ensures TrimSpace(KEY) == KEY && TrimSpace("T") == "T" && Escape(KEY) == KEY && Escape("T") == "T"
    ensures QuietLines("T")
  {
    hide TrimSpace, Escape, LastLine, QuietLines, HasMarker;
    Trimmed(KEY);
    Trimmed("T");
    EscapeSame(KEY);
    EscapeSame("T");
    PlainName("T");
  }

  lemma MarkedHead()
    ensures HasMarker(PARAM_HEAD + (KEY + "\">"))
  {
    HeadsOpen();
    hide MarkerAt, Fenced, TagsOnly;
    var k := KEY + "\">";
    MarkSkip(PARAM_HEAD, k);
    assert k[1..] == "```\">";
    MarkerChars(k[1..]);
  }

  lemma MarkedIsFaithful(e: Engine, v: string)
    requires v == FENCED || v == UNFENCED
    ensures var c := Call("T", [(KEY, v)]); WellNamed(c) && Faithful(e, c)
  {
    hide TrimSpace, PlainValue, ReadTool;
    MarkedName();
    assert v[0] == 'x' && v[|v| - 1] == 'z';
    Trimmed(v);
    NoBrackets(v);
    PlainValueHere(e, v);
  }

  lemma NoBrackets(v: string)
    requires v == FENCED || v == UNFENCED
    ensures forall i :: 0 <= i < |v| ==> v[i] != ']'
  {
  }

  lemma OneRead(e: Engine, v: string)
    requires FirstIsEntry(e) && (v == FENCED || v == UNFENCED)
    ensures var c := Call("T", [(KEY, v)]);
      RenderCalls(JSON, [c]) != [] && ReadCalls(e, JSON, [c]) == [Parsed("T", map[KEY := Str(v)])]
  {
    hide TrimSpace, Faithful, ReadCall, Format, RenderCalls, WellNamed, Given, Escape;
    var c := Call("T", [(KEY, v)]);
    MarkedName();
    MarkedIsFaithful(e, v);
    JsonIsThere();
    CallSurvivesIff(e, "{}", c);
    OneGiven(KEY, v);
    AllAreRead(e, JSON, [c]);
    NamedCallsAreRendered(JSON, [c]);
    FormatOfNone(JSON, [c]);
  }

  const TEXT_START := "<tool_calls>\n" + (INVOKE_HEAD + ("T" + "\">") + "" + "\n")
  const PARAM_START := PARAM_HEAD + (KEY + "\">")
  const TEXT_END := INVOKE_END + "</tool_calls>"

  lemma StartIsQuiet()
    ensures var a := TEXT_START + (PARAM_START + (SECTION_OPEN + "x\n"));
      a != "" && Closed(a) && Quiet(false, a) && !Left(false, a)
  {
    hide Quiet, Left, HasMarker, Fenced, OpensSooner, Escape, QuietLines, Opening, TrimSpace;
    MarkedName();
    MarkedHead();
    HeadsOpen();
    InvokeEnds();
    EndTags();
    QuietElementIff(INVOKE_HEAD, "T", "");
    var call := INVOKE_HEAD + ("T" + "\">") + "" + "\n";
    QuietJoin(false, "<tool_calls>\n", call);
    var l := PARAM_START + (SECTION_OPEN + "x\n");
    QuietJoin(false, TEXT_START, l);
    OpenerHere(SECTION_OPEN + "x\n");
    HeadTags(PARAM_HEAD, KEY);
    SoonerBehind(PARAM_START, SECTION_OPEN + "x\n");
    OpeningNotFenced(PARAM_HEAD, KEY + "\">" + (SECTION_OPEN + "x\n"));
    assert l == PARAM_HEAD + (KEY + "\">" + (SECTION_OPEN + "x\n"));
    OneBreak(PARAM_START + SECTION_OPEN + "x");
    assert l == PARAM_START + SECTION_OPEN + "x" + "\n";
    QuietOne(false, l);
    EndsClosed(TEXT_START, PARAM_START + SECTION_OPEN + "x");
  }

  lemma OneBreak(x: string)
    ensures var l := x + "\n"; l != "" && l[|l| - 1] == '\n' && l[..|l| - 1] == x
  {
  }

  lemma EndsClosed(x: string, y: string)
    ensures Closed(x + (y + "\n")) && x + (y + "\n") != ""
  {
  }

  lemma EndIsQuiet()
    ensures Quiet(false, "z" + VALUE_END + TEXT_END)
  {
    hide Quiet, Left, Fenced, SplitCloses, EntersSection;
    InvokeEnds();
    QuietJoin(false, INVOKE_END, "</tool_calls>");
    QuietOutsideIff("z");
    SplitPrefix("z", 1);
    EmptySplit();
    assert "z"[..1] == "z" && "z"[1..] == "";
    assert ValueTail("z") == "z" + VALUE_END;
    MarkerChars("z");
    OneLine("z");
    NothingOutside();
    assert !Fenced("z") by { assert "z" + "" == "z"; ZIsPlain(); }
    var v := "z" + VALUE_END;
    OneBreak("z" + "]]></parameter>");
    assert v == "z" + "]]></parameter>" + "\n";
    QuietJoin(false, v, TEXT_END);
  }

  lemma ZIsPlain()
    ensures !Fenced("z")
  {
    MarkerChars("z");
  }

  lemma FencedParts(h: string, e: string)
    ensures h + SECTION_OPEN + FENCED + e
         == h + (SECTION_OPEN + "x\n") + ("```\n" + ("y\n" + ("```\n" + ("z" + e))))
    ensures h + SECTION_OPEN + UNFENCED + e == h + (SECTION_OPEN + "x\n") + ("z" + e)
  {
    assert FENCED == "x\n" + ("```\n" + ("y\n" + ("```\n" + "z")));
    assert UNFENCED == "x\n" + "z";
  }

  lemma {:induction false} MarkedIsStripped()
    ensures StripFences(Format(JSON, [Call("T", [(KEY, FENCED)])])) == Format(JSON, [Call("T", [(KEY, UNFENCED)])])
  {
    hide StripFences, Format, Quiet, Left, TrimSpace, Escape, HasMarker, QuietLines, RenderCalls;
    MarkedName();
    NoBrackets(FENCED);
    NoBrackets(UNFENCED);
    OneCallText("T", KEY, FENCED);
    OneCallText("T", KEY, UNFENCED);
    var h, e := TEXT_START + PARAM_START, VALUE_END + TEXT_END;
    FencedParts(h, e);
    StartIsQuiet();
    EndIsQuiet();
    var a, b := TEXT_START + (PARAM_START + (SECTION_OPEN + "x\n")), "z" + VALUE_END + TEXT_END;
    assert a == h + (SECTION_OPEN + "x\n") && b == "z" + e;
    SmallFenceIsCut(a, b);
    assert e == VALUE_END + INVOKE_END + "</tool_calls>";
  }

  /** A fence in a value behind a name with a fence marker is cut out of the value. */
  lemma {:induction false} ExposedFenceIsCut(e: Engine)
    requires FirstIsEntry(e)
    ensures var calls := [Call("T", [(KEY, FENCED)])];
      && ReadCalls(e, JSON, calls) == [Parsed("T", map[KEY := Str(FENCED)])]
      && ParseReply(e, Format(JSON, calls)) == [Parsed("T", map[KEY := Str(UNFENCED)])]
      && FENCED != UNFENCED
  {
    hide TrimSpace, StripFences, Format, Parse, ReadCalls, RenderCalls, ReadKey;
    var calls, cut := [Call("T", [(KEY, FENCED)])], [Call("T", [(KEY, UNFENCED)])];
    OneRead(e, FENCED);
    OneRead(e, UNFENCED);
    FormatTrims(JSON, calls);
    FormatTrims(JSON, cut);
    MarkedIsStripped();
    RenderedCallsReadBack(e, JSON, cut);
    var read := Parsed("T", map[KEY := Str(UNFENCED)]);
    assert [read][..0] == [];
    assert WithoutRepeats(e, [read]) == [read];
  }
}
