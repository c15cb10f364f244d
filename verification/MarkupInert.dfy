/** Rendered text the markup scanner passes over: it stands between, or inside, the elements the
    scanner is looking for. */
module MarkupInert {
  import opened Text
  import opened Markup
  import opened MarkupScan
  import opened ToolCallText

  /** Wherever `x` stands, the scanner passes over it without seeing a tag of this name. */
  ghost predicate Inert(tag: string, x: string) {
    forall text: string, i: nat :: Sub(text, i, x) ==> Passes(text, tag, i, i + |x|)
  }

  lemma InertJoin(tag: string, x: string, y: string)
    requires Inert(tag, x) && Inert(tag, y)
    ensures Inert(tag, x + y)
  {
    hide Sub, Passes;
    forall text: string, i: nat | Sub(text, i, x + y) ensures Passes(text, tag, i, i + |x + y|) {
      SubSplit(text, i, x, y);
      PassJoin(text, tag, i, i + |x|, i + |x| + |y|);
    }
  }

  predicate NoAngle(x: string) {
    forall k :: 0 <= k < |x| ==> x[k] != '<'
  }

  lemma InertPlain(tag: string, x: string)
    requires NoAngle(x)
    ensures Inert(tag, x)
  {
    hide Passes;
    forall text: string, i: nat | Sub(text, i, x) ensures Passes(text, tag, i, i + |x|) {
      forall k | i <= k < i + |x| ensures text[k] != '<' {
        SubChar(text, i, x, k - i);
      }
      PassPlain(text, tag, i, i + |x|);
    }
  }

  /** A start or end tag of another name is passed over. */
  lemma InertForeign(tag: string, x: string)
    requires tag != "" && tag[0] != '/'
    requires |x| > 2 && x[0] == '<' && x[1] != '!' && NoAngle(x[1..])
    requires LowerChar(if x[1] == '/' then x[2] else x[1]) != tag[0]
    ensures Inert(tag, x)
  {
    hide Passes, Look;
    forall text: string, i: nat | Sub(text, i, x) ensures Passes(text, tag, i, i + |x|) {
      SubSplit(text, i, x[..1], x[1..]);
      assert x == x[..1] + x[1..];
      SubChar(text, i, x, 0);
      SubChar(text, i, x, 1);
      SubChar(text, i, x, 2);
      if At(text, i, "<" + tag) {
        AtChar(text, i, "<" + tag, 1);
      }
      if At(text, i, "</" + tag) {
        AtChar(text, i, "</" + tag, 1);
        AtChar(text, i, "</" + tag, 2);
      }
      PassForeign(text, tag, i);
      InertPlain(tag, x[1..]);
      PassJoin(text, tag, i, i + 1, i + |x|);
    }
  }

  lemma SectionOpens(text: string, i: nat)
    requires Sub(text, i, SECTION_OPEN)
    ensures At(text, i, CDATA_OPEN)
  {
    forall k | 0 <= k < 9 ensures LowerChar(text[i + k]) == CDATA_OPEN[k] {
      SubChar(text, i, SECTION_OPEN, k);
      assert LowerChar(SECTION_OPEN[k]) == CDATA_OPEN[k];
    }
  }

  /** Text without a section closer, followed by the closer, has the closer at that place first. */
  lemma {:induction false} CloserComesFirst(text: string, i: nat, x: string)
    requires Sub(text, i, x + CDATA_CLOSE) && IndexFrom(x, CDATA_CLOSE, 0) < 0
    ensures IndexFrom(text, CDATA_CLOSE, i) == i + |x|
  {
    hide At, Sub;
    SubSplit(text, i, x, CDATA_CLOSE);
    SubAt(text, i + |x|, CDATA_CLOSE);
    forall j | i <= j < i + |x| ensures !At(text, j, CDATA_CLOSE) {
      NoEarlierCloser(text, i, x, j);
    }
  }

  lemma {:induction false} NoEarlierCloser(text: string, i: nat, x: string, j: nat)
    requires Sub(text, i, x) && Sub(text, i + |x|, CDATA_CLOSE) && IndexFrom(x, CDATA_CLOSE, 0) < 0
    requires i <= j < i + |x|
    ensures !At(text, j, CDATA_CLOSE)
  {
    hide IndexFrom, At, Sub;
    if j + 3 <= i + |x| {
      SubText(text, i, x);
      AtSlice(text, i, i + |x|, CDATA_CLOSE, j);
      assert !At(x, j - i, CDATA_CLOSE);
    } else {
      Straddles(text, i + |x|, j);
    }
  }

  /** The closer does not overlap itself. */
  lemma Straddles(text: string, e: nat, j: nat)
    requires Sub(text, e, CDATA_CLOSE) && e - 3 < j < e
    ensures !At(text, j, CDATA_CLOSE)
  {
    hide At, Sub;
    SubText(text, e, CDATA_CLOSE);
    SubChar(text, e, CDATA_CLOSE, j + 2 - e);
    assert text[j + 2] == ']';
    if At(text, j, CDATA_CLOSE) {
      AtChar(text, j, CDATA_CLOSE, 2);
    }
  }

  lemma InertSection(tag: string, x: string)
    requires IndexFrom(x, CDATA_CLOSE, 0) < 0
    ensures Inert(tag, SECTION_OPEN + x + CDATA_CLOSE)
  {
    hide IndexFrom, Passes;
    var s := SECTION_OPEN + x + CDATA_CLOSE;
    forall text: string, i: nat | Sub(text, i, s) ensures Passes(text, tag, i, i + |s|) {
      assert s == SECTION_OPEN + (x + CDATA_CLOSE);
      SubSplit(text, i, SECTION_OPEN, x + CDATA_CLOSE);
      SectionOpens(text, i);
      CloserComesFirst(text, i + 9, x);
      PassSection(text, tag, i, i + |s|);
    }
  }

  lemma IndexCons(c: char, y: string)
    requires c != ']'
    ensures var i := IndexFrom(y, CDATA_CLOSE, 0);
      IndexFrom([c] + y, CDATA_CLOSE, 0) == if i < 0 then -1 else i + 1
  {
    hide At;
    var v := [c] + y;
    NotFirst(v);
    var i := IndexFrom(y, CDATA_CLOSE, 0);
    var k := IndexFrom(v, CDATA_CLOSE, 0);
    if k >= 0 {
      AtShift([c], y, k - 1, CDATA_CLOSE);
    }
    if i >= 0 {
      AtShift([c], y, i, CDATA_CLOSE);
    }
  }

  lemma NotFirst(v: string)
    requires v != "" && v[0] != ']'
    ensures !At(v, 0, CDATA_CLOSE)
  {
    if At(v, 0, CDATA_CLOSE) {
      AtChar(v, 0, CDATA_CLOSE, 0);
    }
  }

  lemma {:induction false} SplitUnfolds(v: string)
    ensures var i := IndexFrom(v, CDATA_CLOSE, 0);
      if i < 0 then SplitCloses(v) == v
      else i + 3 <= |v| && SplitCloses(v) == v[..i] + SECTION_SPLIT + SplitCloses(v[i + 3..])
  {
    hide IndexFrom, At;
    var i := IndexFrom(v, CDATA_CLOSE, 0);
    if i >= 0 {
      AtInside(v, i, CDATA_CLOSE);
    }
  }

  /** Splitting a value after a letter that starts no closer splits the rest. */
  lemma SplitCons(c: char, y: string)
    requires c != ']'
    ensures SplitCloses([c] + y) == [c] + SplitCloses(y)
  {
    hide IndexFrom, At, SplitCloses;
    IndexCons(c, y);
    SplitUnfolds(y);
    SplitUnfolds([c] + y);
    var i := IndexFrom(y, CDATA_CLOSE, 0);
    if i >= 0 {
      assert ([c] + y)[..i + 1] == [c] + y[..i];
      assert ([c] + y)[i + 1 + 3..] == y[i + 3..];
      Associate([c], y[..i], SECTION_SPLIT, SplitCloses(y[i + 3..]));
    }
  }

  lemma Associate(c: string, p: string, s: string, q: string)
    ensures (c + p) + s + q == c + (p + s + q)
  {
  }

  /** A value split at its section closers is rendered as one section after another. */
  lemma {:induction false} SplitStep(v: string)
    requires IndexFrom(v, CDATA_CLOSE, 0) >= 0
    ensures var i := IndexFrom(v, CDATA_CLOSE, 0);
      && i + 3 <= |v| && IndexFrom(v[..i + 2], CDATA_CLOSE, 0) < 0
      && RenderText(v) == (SECTION_OPEN + v[..i + 2] + CDATA_CLOSE) + RenderText(">" + v[i + 3..])
  {
    hide IndexFrom, At, RenderText, SplitCloses;
    var i := IndexFrom(v, CDATA_CLOSE, 0);
    AtInside(v, i, CDATA_CLOSE);
    var y := v[i + 3..];
    NoneBefore(v, i);
    SplitCons('>', y);
    SplitAt(v, i);
    RenderedAs(v);
    RenderedAs(">" + y);
    Regroup(SECTION_OPEN, v[..i], "]]", CDATA_CLOSE, ">", SplitCloses(y));
  }

  lemma RenderedAs(v: string)
    requires v != ""
    ensures RenderText(v) == SECTION_OPEN + SplitCloses(v) + CDATA_CLOSE
  {
  }

  lemma {:induction false} SplitAt(v: string, i: nat)
    requires IndexFrom(v, CDATA_CLOSE, 0) == i && i + 3 <= |v|
    ensures SplitCloses(v) == v[..i] + ("]]" + CDATA_CLOSE + SECTION_OPEN + ">") + SplitCloses(v[i + 3..])
    ensures v[..i + 2] == v[..i] + "]]"
  {
    hide IndexFrom, At;
    CloserChars(v, i);
    assert SECTION_SPLIT == "]]" + CDATA_CLOSE + SECTION_OPEN + ">";
  }

  lemma Regroup(o: string, p: string, b: string, c: string, g: string, q: string)
    ensures o + (p + (b + c + o + g) + q) + c == (o + (p + b) + c) + (o + (g + q) + c)
  {
  }

  lemma NoneBefore(v: string, i: nat)
    requires IndexFrom(v, CDATA_CLOSE, 0) == i && i + 3 <= |v|
    ensures IndexFrom(v[..i + 2], CDATA_CLOSE, 0) < 0
  {
    hide At;
    var j := IndexFrom(v[..i + 2], CDATA_CLOSE, 0);
    if j >= 0 {
      AtInside(v[..i + 2], j, CDATA_CLOSE);
      assert v[0..i + 2] == v[..i + 2];
      AtSlice(v, 0, i + 2, CDATA_CLOSE, j);
    }
  }

  lemma CloserChars(v: string, i: nat)
    requires At(v, i, CDATA_CLOSE)
    ensures v[i] == ']' && v[i + 1] == ']'
  {
    AtChar(v, i, CDATA_CLOSE, 0);
    AtChar(v, i, CDATA_CLOSE, 1);
  }

  /** No rendered value, whatever it holds, shows the scanner a tag. */
  lemma {:induction false} RenderedValueIsInert(tag: string, v: string)
    ensures Inert(tag, RenderText(v))
    decreases |v|
  {
    hide Inert, IndexFrom;
    if v == "" {
      InertPlain(tag, "");
    } else {
      var i := IndexFrom(v, CDATA_CLOSE, 0);
      if i < 0 {
        InertSection(tag, v);
      } else {
        SplitStep(v);
        InertSection(tag, v[..i + 2]);
        RenderedValueIsInert(tag, ">" + v[i + 3..]);
        InertJoin(tag, SECTION_OPEN + v[..i + 2] + CDATA_CLOSE, RenderText(">" + v[i + 3..]));
      }
    }
  }

  /** Names are escaped so that they hold no tag syntax. */
  lemma {:induction false} EscapedIsSafe(s: string)
    ensures '"' !in Escape(s) && NoAngle(Escape(s))
  {
    if s != "" {
      EscapedIsSafe(s[1..]);
      assert forall k :: 0 <= k < |EscapeChar(s[0])| ==> EscapeChar(s[0])[k] !in "<\"";
    }
  }

  predicate LowerLetters(tag: string) {
    tag != "" && forall k :: 0 <= k < |tag| ==> 'a' <= tag[k] <= 'z' || tag[k] == '_'
  }

  lemma LettersAreNames(tag: string)
    requires LowerLetters(tag)
    ensures ElementName(tag) && forall k :: 0 <= k < |tag| ==> !('A' <= tag[k] <= 'Z')
  {
  }

  lemma InertTags(tag: string, other: string, rest: string)
    requires LowerLetters(tag) && LowerLetters(other) && other[0] != tag[0] && rest != "" && NoAngle(rest)
    ensures Inert(tag, "<" + other + rest) && Inert(tag, "</" + other + rest)
  {
    hide Inert;
    var x := "<" + other + rest;
    assert x[1..] == other + rest && x[1] == other[0];
    InertForeign(tag, x);
    var y := "</" + other + rest;
    assert y[1..] == "/" + other + rest && y[2] == other[0];
    InertForeign(tag, y);
  }

  /** An element of another name is passed over if its body is. */
  lemma InertElement(tag: string, other: string, name: string, body: string)
    requires LowerLetters(tag) && LowerLetters(other) && other[0] != tag[0]
    requires Inert(tag, body)
    ensures Inert(tag, Element(other, name, body))
  {
    hide Inert, LowerLetters, Escape;
    var rest := NameAttr(Escape(name)) + ">";
    EscapedIsSafe(name);
    InertTags(tag, other, rest);
    InertTags(tag, other, ">");
    InertJoin(tag, "<" + other + rest, body);
    InertJoin(tag, "<" + other + rest + body, "</" + other + ">");
    assert Element(other, name, body) == ("<" + other + rest + body) + ("</" + other + ">");
  }

  /** Where the parts of an element stand. */
  lemma ElementParts(text: string, tag: string, i: nat, attrs: string, body: string)
    requires Sub(text, i, "<" + tag + attrs + ">" + body + "</" + tag + ">")
    ensures var b := i + |tag| + |attrs| + 2;
      && Sub(text, i, "<" + tag + attrs + ">") && Sub(text, i + |tag| + 1, attrs + ">")
      && Sub(text, i + |tag| + 1, attrs) && Sub(text, b, body)
      && Sub(text, b + |body|, "</" + tag + ">") && b + |body| + |tag| + 3 <= |text|
  {
    hide Sub;
    var head := "<" + tag + attrs + ">";
    var tail := "</" + tag + ">";
    assert "<" + tag + attrs + ">" + body + "</" + tag + ">" == head + body + tail;
    SubSplit(text, i, head + body, tail);
    SubSplit(text, i, head, body);
    SubText(text, i + |head + body|, tail);
    assert head == ("<" + tag) + (attrs + ">");
    SubSplit(text, i, "<" + tag, attrs + ">");
    SubSplit(text, i + |tag| + 1, attrs, ">");
  }

  lemma {:induction false} BlockFromParts(text: string, tag: string, i: nat, attrs: string, body: string)
    requires var b := i + |tag| + |attrs| + 2;
      && Sub(text, i + |tag| + 1, attrs) && Sub(text, b, body)
      && FindStart(text, tag, i) == Tag(i, b - 1) && FindEnd(text, tag, b, 1) == Tag(b + |body|, b + |body| + |tag| + 2)
    ensures var j := i + |tag| + |attrs| + |body| + |tag| + 5;
      Blocks(text, tag, i) == [Block(attrs, body, i, j)] + Blocks(text, tag, j)
  {
    hide FindStart, FindEnd, Sub;
    var b := i + |tag| + |attrs| + 2;
    SubText(text, i + |tag| + 1, attrs);
    SubText(text, b, body);
  }

  /** A rendered element whose body is passed over is the next block. */
  lemma {:induction false} ElementIsBlock(text: string, tag: string, i: nat, name: string, body: string)
    requires LowerLetters(tag) && Sub(text, i, Element(tag, name, body)) && Inert(tag, body)
    ensures var j := i + |Element(tag, name, body)|;
      j <= |text| && Blocks(text, tag, i) == [Block(NameAttr(Escape(name)), body, i, j)] + Blocks(text, tag, j)
  {
    hide TagEnd, Passes, FindStart, FindEnd, Escape, LowerLetters, Sub, NameAttr, Blocks;
    var attrs := NameAttr(Escape(name));
    ElementParts(text, tag, i, attrs, body);
    EscapedIsSafe(name);
    NameAttrEnds(text, i + |tag| + 1, Escape(name));
    LettersAreNames(tag);
    NameAttrStarts(Escape(name));
    ElementFound(text, tag, i, attrs, |body|);
    BlockFromParts(text, tag, i, attrs, body);
  }

  lemma NameAttrStarts(v: string)
    ensures NameAttr(v)[0] == ' '
  {
  }

  lemma SubText(text: string, i: nat, x: string)
    requires Sub(text, i, x)
    ensures i + |x| <= |text| && text[i..i + |x|] == x
  {
  }

  lemma EndsHere(text: string, i: nat)
    requires i < |text| && text[i] == '>'
    ensures TagEnd(text, i, '\0') == i
  {
  }

  /** A wrapper without attributes, likewise. */
  lemma {:induction false} WrapperIsBlock(text: string, tag: string, body: string)
    requires LowerLetters(tag) && text == "<" + tag + ">" + body + "</" + tag + ">" && Inert(tag, body)
    ensures Blocks(text, tag, 0) == [Block("", body, 0, |text|)]
  {
    hide TagEnd, Passes, FindStart, FindEnd, LowerLetters, Sub, Blocks;
    assert text[0..|text|] == text;
    assert Sub(text, 0, text) by {
      SubWhole(text);
    }
    assert text == "<" + tag + "" + ">" + body + "</" + tag + ">";
    ElementParts(text, tag, 0, "", body);
    EndsHere(text, |tag| + 1);
    LettersAreNames(tag);
    ElementFound(text, tag, 0, "", |body|);
    BlockFromParts(text, tag, 0, "", body);
    assert Blocks(text, tag, |text|) == [] by {
      NothingLeft(text, tag, |text|);
    }
  }

  lemma SubWhole(text: string)
    ensures Sub(text, 0, text)
  {
    assert text[0..|text|] == text;
  }
}
