/** Names and values of rendered tool calls, read back. */
module ToolCallNames {
  import opened Options
  import opened Text
  import opened MarkupScan
  import opened ToolCallText
  import opened MarkupInert

  /** Unescaping undoes escaping, for every text. */
  lemma {:induction false} UnescapeEscape(s: string)
    ensures Unescape(Escape(s)) == s
  {
    if s != "" {
      var rest := Escape(s[1..]);
      UnescapeEscape(s[1..]);
      UnescapeFirst(s[0], rest);
      assert [s[0]] + s[1..] == s;
    }
  }

  lemma UnescapeFirst(c: char, rest: string)
    ensures Unescape(EscapeChar(c) + rest) == [c] + Unescape(rest)
  {
    var t := EscapeChar(c) + rest;
    if c == '&' {
      assert "&amp;" <= t && t[5..] == rest;
    } else if c == '"' {
      assert t[1] == 'q';
      assert "&quot;" <= t && t[6..] == rest;
    } else if c == '<' {
      assert t[1] == 'l';
      assert "&lt;" <= t && t[4..] == rest;
    } else if c == '>' {
      assert t[1] == 'g';
      assert "&gt;" <= t && t[4..] == rest;
    } else {
      assert t[0] == c && t[1..] == rest;
    }
  }

  /** The one attribute of a rendered tag is found by the attribute pattern. */
  lemma NameAttrFound(v: string)
    requires '"' !in v
    ensures AttrAt(NameAttr(v), 0) == None
    ensures AttrAt(NameAttr(v), 1) == Some(Attr("name", v, |NameAttr(v)|))
  {
    hide IndexFrom;
    var s := NameAttr(v);
    NameAttrChars(v);
    assert SkipNames(s, 0) == 0;
    assert SkipNames(s, 5) == 5 && SkipNames(s, 4) == 5 && SkipNames(s, 3) == 5;
    assert SkipNames(s, 2) == 5 && SkipNames(s, 1) == 5;
    assert SkipBlanks(s, 5) == 5 && SkipBlanks(s, 6) == 6;
    assert !WordAt(s, 0) && WordAt(s, 1);
    assert s[1..5] == "name";
    assert s[7..7 + |v|] == v;
    assert [s[6]] == "\"";
    ClosingQuote(s, v);
  }

  lemma NameAttrChars(v: string)
    ensures var s := NameAttr(v);
      && |s| == |v| + 8 && s[7..7 + |v|] == v && s[|v| + 7] == '"'
      && s[0] == ' ' && s[1] == 'n' && s[2] == 'a' && s[3] == 'm' && s[4] == 'e' && s[5] == '=' && s[6] == '"'
  {
  }

  lemma ClosingQuote(s: string, v: string)
    requires |s| == |v| + 8 && s[7..7 + |v|] == v && s[|v| + 7] == '"' && '"' !in v
    ensures IndexFrom(s, "\"", 7) == 7 + |v|
  {
    hide IndexFrom;
    assert At(s, 7 + |v|, "\"");
    forall j | 7 <= j < 7 + |v| ensures !At(s, j, "\"") {
      assert s[j] == v[j - 7];
      assert s[j] in v;
      if At(s, j, "\"") {
        AtChar(s, j, "\"", 0);
      }
    }
  }

  lemma AttrsOfName(v: string)
    requires '"' !in v
    ensures Attrs(NameAttr(v), 0, map[]) == map["name" := v]
  {
    hide AttrAt, NameAttr;
    var s := NameAttr(v);
    NameAttrFound(v);
    NameAttrChars(v);
    assert LowerText("name") == "name";
    assert Attrs(s, 1, map[]) == Attrs(s, |s|, map["name" := v]);
    assert Attrs(s, |s|, map["name" := v]) == map["name" := v];
  }

  /** Any name written into a tag is read out of it, up to surrounding blanks. */
  lemma NameReadsBack(n: string)
    ensures NameOf(NameAttr(Escape(n))) == TrimSpace(n)
  {
    hide Attrs, Escape, Unescape, NameAttr;
    EscapedIsSafe(n);
    AttrsOfName(Escape(n));
    UnescapeEscape(n);
  }

  // Values.

  predicate HoldsCloser(v: string) {
    IndexFrom(v, CDATA_CLOSE, 0) >= 0
  }

  /** The parser reads these texts as booleans, null and numbers. */
  predicate Literal(e: Engine, v: string) {
    var clean := TrimSpace(v);
    || SameWord(clean, "true") || SameWord(clean, "false") || SameWord(clean, "null")
    || (PureNumber(clean) && e.number(clean))
  }

  predicate PlainValue(e: Engine, v: string) {
    !HoldsCloser(v) && !Literal(e, v)
  }

  lemma {:induction false} SplitGrows(v: string)
    ensures |SplitCloses(v)| >= |v| && (HoldsCloser(v) ==> |SplitCloses(v)| > |v|)
    ensures !HoldsCloser(v) ==> SplitCloses(v) == v
    decreases |v|
  {
    hide IndexFrom;
    var i := IndexFrom(v, CDATA_CLOSE, 0);
    if i >= 0 {
      AtInside(v, i, CDATA_CLOSE);
      SplitGrows(v[i + 3..]);
    }
  }

  lemma RenderedEnds(v: string)
    requires v != ""
    ensures var s := RenderText(v);
      && |s| == |SplitCloses(v)| + 12 && s[9..|s| - 3] == SplitCloses(v)
      && s[0] == '<' && s[|s| - 1] == '>' && Sub(s, 0, SECTION_OPEN) && Sub(s, |s| - 3, CDATA_CLOSE)
  {
    hide SplitCloses;
    var x := SplitCloses(v);
    var s := RenderText(v);
    assert s == SECTION_OPEN + x + CDATA_CLOSE;
    assert s[..9] == SECTION_OPEN && s[0..9] == SECTION_OPEN;
    assert s[|s| - 3..] == CDATA_CLOSE && s[|s| - 3..|s|] == CDATA_CLOSE;
  }

  /** A rendered value is read as the content of one section, closers still split. */
  lemma ValueRead(e: Engine, v: string)
    ensures ParseValue(e, RenderText(v)) == if v == "" then Str("") else CdataValue(e, SplitCloses(v))
  {
    hide SplitCloses, TrimSpace, CdataValue, ExtractCdata, RenderText;
    if v == "" {
      assert ParseValue(e, RenderText(v)) == Str("") by {
        NothingRead(e);
      }
    } else {
      SectionRead(v);
    }
  }

  lemma NothingRead(e: Engine)
    ensures ParseValue(e, RenderText("")) == Str("")
  {
  }

  lemma SectionRead(v: string)
    requires v != ""
    ensures var s := RenderText(v); TrimSpace(s) == s != "" && ExtractCdata(s) == Some(SplitCloses(v))
  {
    hide SplitCloses, TrimSpace, At, RenderText, Sub;
    var s := RenderText(v);
    RenderedEnds(v);
    assert All("", SPACES);
    TrimPadded("", s, "");
    assert "" + s + "" == s;
    SectionOpens(s, 0);
    SubAt(s, |s| - 3, CDATA_CLOSE);
  }

  /** A string value survives rendering and parsing exactly if it holds no section closer and
      reads as no literal. */
  lemma {:induction false} ValueSurvivesIff(e: Engine, v: string)
    ensures ParseValue(e, RenderText(v)) == Str(v) <==> PlainValue(e, v)
  {
    hide SplitCloses, ParseValue, RenderText, IndexFrom, PureNumber, TrimSpace;
    ValueRead(e, v);
    SplitGrows(v);
    if v == "" {
      EmptyIsPlain(e);
    }
  }

  lemma EmptyIsPlain(e: Engine)
    ensures PlainValue(e, "")
  {
  }
}
