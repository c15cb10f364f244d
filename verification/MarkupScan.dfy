/** How the markup scanner moves over text that is known piece by piece. */
module MarkupScan {
  import opened Text
  import opened Markup

  /** `x` stands in the text at position `i`, letter for letter. */
  predicate Sub(text: string, i: nat, x: string) {
    i + |x| <= |text| && text[i..i + |x|] == x
  }

  lemma SubChar(text: string, i: nat, x: string, k: nat)
    requires Sub(text, i, x) && k < |x|
    ensures text[i + k] == x[k]
  {
    assert text[i..i + |x|][k] == x[k];
  }

  lemma SubSplit(text: string, i: nat, x: string, y: string)
    ensures Sub(text, i, x + y) <==> Sub(text, i, x) && Sub(text, i + |x|, y)
  {
    if i + |x| + |y| <= |text| {
      assert text[i..i + |x| + |y|] == text[i..i + |x|] + text[i + |x|..i + |x| + |y|];
      if Sub(text, i, x + y) {
        assert (x + y)[..|x|] == x && (x + y)[|x|..] == y;
      }
    }
  }

  /** An exact occurrence of a lower-case pattern is an occurrence. */
  lemma SubAt(text: string, i: nat, x: string)
    requires Sub(text, i, x) && forall k :: 0 <= k < |x| ==> !('A' <= x[k] <= 'Z')
    ensures At(text, i, x)
  {
    forall k | 0 <= k < |x| ensures LowerChar(text[i + k]) == x[k] {
      SubChar(text, i, x, k);
    }
  }

  /** From `i` the scanner reaches `j` without seeing a tag of this name. */
  predicate Passes(text: string, tag: string, i: nat, j: nat)
    decreases j - i
  {
    i == j ||
    (i < j <= |text| &&
     match Look(text, tag, i)
     case Hidden(next) => next <= j && Passes(text, tag, next, j)
     case Plain => Passes(text, tag, i + 1, j)
     case _ => false)
  }

  lemma {:induction false} PassJoin(text: string, tag: string, i: nat, j: nat, k: nat)
    requires Passes(text, tag, i, j) && Passes(text, tag, j, k) && i <= j <= k
    ensures Passes(text, tag, i, k)
    decreases j - i
  {
    hide Look;
    if i < j {
      match Look(text, tag, i)
      case Hidden(next) => PassJoin(text, tag, next, j, k);
      case Plain => PassJoin(text, tag, i + 1, j, k);
      case _ =>
    }
  }

  lemma {:induction false} PassFind(text: string, tag: string, i: nat, j: nat, depth: nat)
    requires Passes(text, tag, i, j)
    ensures FindStart(text, tag, i) == FindStart(text, tag, j)
    ensures FindEnd(text, tag, i, depth) == FindEnd(text, tag, j, depth)
    decreases j - i
  {
    hide Look, TagEnd;
    if i < j {
      match Look(text, tag, i)
      case Hidden(next) => PassFind(text, tag, next, j, depth);
      case Plain => PassFind(text, tag, i + 1, j, depth);
      case _ =>
    }
  }

  lemma {:induction false} PassBlocks(text: string, tag: string, i: nat, j: nat)
    requires Passes(text, tag, i, j) && i <= j
    ensures Blocks(text, tag, i) == Blocks(text, tag, j)
  {
    hide FindStart, FindEnd, Passes;
    PassFind(text, tag, i, j, 1);
    PassInside(text, tag, i, j);
    NothingAtEnd(text, tag);
  }

  lemma NothingAtEnd(text: string, tag: string)
    ensures FindStart(text, tag, |text|) == Missing
  {
  }

  lemma PassInside(text: string, tag: string, i: nat, j: nat)
    requires Passes(text, tag, i, j)
    ensures i == j || i < j <= |text|
  {
  }

  /** Text without '<' is passed over. */
  lemma {:induction false} PassPlain(text: string, tag: string, i: nat, j: nat)
    requires i <= j <= |text| && forall k :: i <= k < j ==> text[k] != '<'
    ensures Passes(text, tag, i, j)
    decreases j - i
  {
    if i < j {
      PlainHere(text, tag, i);
      PassPlain(text, tag, i + 1, j);
    }
  }

  lemma PlainHere(text: string, tag: string, i: nat)
    requires i < |text| && text[i] != '<'
    ensures Look(text, tag, i) == Plain
  {
    NotHere(text, i, CDATA_OPEN);
    NotHere(text, i, COMMENT_OPEN);
    NotHere(text, i, "<" + tag);
    NotHere(text, i, "</" + tag);
  }

  lemma NotHere(text: string, i: nat, p: string)
    requires i < |text| && text[i] != '<' && p != "" && p[0] == '<'
    ensures !At(text, i, p)
  {
  }

  /** The '<' of another tag is passed over. */
  lemma PassForeign(text: string, tag: string, i: nat)
    requires i + 1 < |text| && text[i] == '<' && text[i + 1] != '!'
    requires !At(text, i, "<" + tag) && !At(text, i, "</" + tag)
    ensures Passes(text, tag, i, i + 1)
  {
    NoBang(text, i, CDATA_OPEN);
    NoBang(text, i, COMMENT_OPEN);
    assert Look(text, tag, i) == Plain;
    assert Passes(text, tag, i + 1, i + 1);
  }

  lemma NoBang(text: string, i: nat, p: string)
    requires i + 1 < |text| && text[i + 1] != '!' && |p| > 1 && p[1] == '!'
    ensures !At(text, i, p)
  {
  }

  /** A CDATA section is passed over. */
  lemma PassSection(text: string, tag: string, i: nat, j: nat)
    requires At(text, i, CDATA_OPEN) && IndexFrom(text, CDATA_CLOSE, i + |CDATA_OPEN|) == j - 3 && j >= 3
    ensures i < j <= |text| && Passes(text, tag, i, j)
  {
    hide IndexFrom;
    AtInside(text, j - 3, CDATA_CLOSE);
    assert Look(text, tag, i) == Hidden(j);
    assert Passes(text, tag, j, j);
  }

  lemma {:induction false} QuotedPart(text: string, i: nat, j: nat)
    requires i <= j <= |text| && forall k :: i <= k < j ==> text[k] != '"'
    ensures TagEnd(text, i, '"') == TagEnd(text, j, '"')
    decreases j - i
  {
    if i < j {
      QuotedPart(text, i + 1, j);
    }
  }

  const NAME_OPEN := " name=\""

  /** The attribute text of a rendered tag. */
  function NameAttr(v: string): string {
    NAME_OPEN + v + "\""
  }

  lemma NameAttrEnds(text: string, i: nat, v: string)
    requires Sub(text, i, NameAttr(v) + ">") && '"' !in v
    ensures TagEnd(text, i, '\0') == i + |NameAttr(v)|
  {
    hide TagEnd;
    SubSplit(text, i, NameAttr(v), ">");
    SubSplit(text, i, NAME_OPEN + v, "\"");
    SubSplit(text, i, NAME_OPEN, v);
    var j := i + |NAME_OPEN|;
    OpensQuote(text, i);
    forall k | j <= k < j + |v| ensures text[k] != '"' {
      SubChar(text, j, v, k - j);
      assert v[k - j] in v;
    }
    QuotedPart(text, j, j + |v|);
    SubChar(text, j + |v|, "\"", 0);
    SubChar(text, j + |v| + 1, ">", 0);
    ClosesQuote(text, j + |v|);
  }

  lemma OpensQuote(text: string, i: nat)
    requires Sub(text, i, NAME_OPEN)
    ensures TagEnd(text, i, '\0') == TagEnd(text, i + |NAME_OPEN|, '"')
  {
    SubChar(text, i, NAME_OPEN, 0);
    SubChar(text, i, NAME_OPEN, 1);
    SubChar(text, i, NAME_OPEN, 2);
    SubChar(text, i, NAME_OPEN, 3);
    SubChar(text, i, NAME_OPEN, 4);
    SubChar(text, i, NAME_OPEN, 5);
    SubChar(text, i, NAME_OPEN, 6);
    assert TagEnd(text, i, '\0') == TagEnd(text, i + 1, '\0');
    assert TagEnd(text, i + 1, '\0') == TagEnd(text, i + 2, '\0');
    assert TagEnd(text, i + 2, '\0') == TagEnd(text, i + 3, '\0');
    assert TagEnd(text, i + 3, '\0') == TagEnd(text, i + 4, '\0');
    assert TagEnd(text, i + 4, '\0') == TagEnd(text, i + 5, '\0');
    assert TagEnd(text, i + 5, '\0') == TagEnd(text, i + 6, '\0');
  }

  lemma ClosesQuote(text: string, i: nat)
    requires i + 1 < |text| && text[i] == '"' && text[i + 1] == '>'
    ensures TagEnd(text, i, '"') == i + 1
  {
    assert TagEnd(text, i, '"') == TagEnd(text, i + 1, '\0');
  }

  /** An element written as a start tag, a body that is passed over, and an end tag is found. */
  lemma ElementFound(text: string, tag: string, i: nat, attrs: string, bodyLength: nat)
    requires ElementName(tag) && forall k :: 0 <= k < |tag| ==> !('A' <= tag[k] <= 'Z')
    requires Sub(text, i, "<" + tag + attrs + ">")
    requires attrs == "" || attrs[0] == ' '
    requires TagEnd(text, i + |tag| + 1, '\0') == i + |tag| + 1 + |attrs|
    requires var b := i + |tag| + |attrs| + 2;
      Passes(text, tag, b, b + bodyLength) && Sub(text, b + bodyLength, "</" + tag + ">")
    ensures var b := i + |tag| + |attrs| + 2;
      && FindStart(text, tag, i) == Tag(i, b - 1)
      && FindEnd(text, tag, b, 1) == Tag(b + bodyLength, b + bodyLength + |tag| + 2)
      && b + bodyLength + |tag| + 3 <= |text|
  {
    hide TagEnd, Passes, FindStart, FindEnd, Sub, Look;
    var b := i + |tag| + |attrs| + 2;
    SubSplit(text, i, "<" + tag + attrs, ">");
    SubSplit(text, i, "<" + tag, attrs);
    OpenerSeen(text, tag, i, attrs);
    StartHere(text, tag, i);
    PassFind(text, tag, b, b + bodyLength, 1);
    CloserSeen(text, tag, b + bodyLength);
  }

  lemma StartHere(text: string, tag: string, i: nat)
    requires Look(text, tag, i).Opens? && TagEnd(text, i + |tag| + 1, '\0') >= 0
    ensures FindStart(text, tag, i) == Tag(i, TagEnd(text, i + |tag| + 1, '\0'))
  {
    hide TagEnd, SkipIgnored;
  }

  lemma OpenerSeen(text: string, tag: string, i: nat, attrs: string)
    requires ElementName(tag) && forall k :: 0 <= k < |tag| ==> !('A' <= tag[k] <= 'Z')
    requires Sub(text, i, "<" + tag) && Sub(text, i + |tag| + 1, attrs) && Sub(text, i + |tag| + 1 + |attrs|, ">")
    requires attrs == "" || attrs[0] in " /"
    ensures Look(text, tag, i) == Opens
  {
    hide IndexFrom, At;
    SubAt(text, i, "<" + tag);
    OpensNotCloses(text, tag, i);
    SubChar(text, i, "<" + tag, 1);
    NoBang(text, i, CDATA_OPEN);
    NoBang(text, i, COMMENT_OPEN);
    if attrs == "" {
      SubChar(text, i + |tag| + 1, ">", 0);
    } else {
      SubChar(text, i + |tag| + 1, attrs, 0);
    }
  }

  lemma CloserSeen(text: string, tag: string, i: nat)
    requires ElementName(tag) && forall k :: 0 <= k < |tag| ==> !('A' <= tag[k] <= 'Z')
    requires Sub(text, i, "</" + tag + ">")
    ensures FindEnd(text, tag, i, 1) == Tag(i, i + |tag| + 2)
  {
    hide IndexFrom, At;
    SubSplit(text, i, "</" + tag, ">");
    SubAt(text, i, "</" + tag);
    SubChar(text, i, "</" + tag, 1);
    SubChar(text, i + |tag| + 2, ">", 0);
    NoBang(text, i, CDATA_OPEN);
    NoBang(text, i, COMMENT_OPEN);
    assert Look(text, tag, i) == Closes;
    assert TagEnd(text, i + |tag| + 2, '\0') == i + |tag| + 2;
  }
}
