/** What the markup scanner makes of quotes and of elements inside elements. */
module MarkupLaws {
  import opened Text
  import opened Markup
  import opened MarkupScan
  import opened MarkupInert

  /** Text outside quotes without '>', and whole quoted strings. */
  ghost predicate WholeQuotes(t: string)
    decreases |t|
  {
    t == "" ||
    if t[0] in "\"'" then exists k :: QuotedTo(t, k) && WholeQuotes(t[k + 1..])
    else t[0] != '>' && WholeQuotes(t[1..])
  }

  /** The text starts with a string in quotes, up to position `k`. */
  predicate QuotedTo(t: string, k: int) {
    0 < k < |t| && t[k] == t[0] && t[0] !in t[1..k]
  }

  lemma {:induction false} UpToQuote(text: string, i: nat, q: char) returns (k: nat)
    requires q != '\0' && TagEnd(text, i, q) >= 0
    ensures i <= k < |text| && text[k] == q && q !in text[i..k]
    ensures TagEnd(text, i, q) == TagEnd(text, k + 1, '\0')
    decreases |text| - i
  {
    if text[i] == q {
      k := i;
    } else {
      k := UpToQuote(text, i + 1, q);
      assert text[i..k] == [text[i]] + text[i + 1..k];
    }
  }

  lemma {:induction false} OverQuote(text: string, i: nat, q: char, k: nat)
    requires q != '\0' && i <= k < |text| && text[k] == q && q !in text[i..k]
    ensures TagEnd(text, i, q) == TagEnd(text, k + 1, '\0')
    decreases k - i
  {
    if i < k {
      assert text[i] == text[i..k][0];
      assert text[i + 1..k] == text[i..k][1..];
      OverQuote(text, i + 1, q, k);
    }
  }

  lemma EndStep(text: string, i: nat)
    requires i < |text|
    ensures TagEnd(text, i, '\0') ==
      if text[i] in "\"'" then TagEnd(text, i + 1, text[i])
      else if text[i] == '>' then i else TagEnd(text, i + 1, '\0')
  {
  }

  /** A tag ends at the first '>' with no quote open: what stands before it is plain text and whole
      quoted strings, in quotes of either kind. */
  lemma {:induction false} TagEndIff(text: string, i: nat, r: nat)
    requires i <= r < |text|
    ensures TagEnd(text, i, '\0') == r <==> text[r] == '>' && WholeQuotes(text[i..r])
    decreases r - i
  {
    hide TagEnd, WholeQuotes;
    EndStep(text, i);
    var t := text[i..r];
    if i == r {
      NothingQuoted();
      QuoteEndsLater(text, i);
    } else if text[i] in "\"'" {
      QuotedFirst(text, i, r);
    } else {
      PlainFirst(t);
      assert t[1..] == text[i + 1..r];
      if text[i] != '>' {
        TagEndIff(text, i + 1, r);
      }
    }
  }

  lemma NothingQuoted()
    ensures WholeQuotes("")
  {
  }

  lemma QuoteEndsLater(text: string, i: nat)
    requires i < |text|
    ensures text[i] != '>' ==> TagEnd(text, i, '\0') != i
  {
  }

  lemma PlainFirst(t: string)
    requires t != "" && t[0] !in "\"'"
    ensures WholeQuotes(t) <==> t[0] != '>' && WholeQuotes(t[1..])
  {
  }

  lemma QuoteFirst(t: string)
    requires t != "" && t[0] in "\"'"
    ensures WholeQuotes(t) <==> exists k :: QuotedTo(t, k) && WholeQuotes(t[k + 1..])
  {
  }

  lemma SliceOfSlice(text: string, i: nat, r: nat, a: nat, b: nat)
    requires i <= a <= b <= r <= |text|
    ensures text[i..r][a - i..b - i] == text[a..b]
  {
    var t, x, y := text[i..r], text[i..r][a - i..b - i], text[a..b];
    forall j | 0 <= j < b - a ensures x[j] == y[j] {
      assert x[j] == t[a - i + j] && t[a - i + j] == text[i + (a - i + j)];
    }
  }

  lemma SlicesShift(text: string, i: nat, r: nat, m: nat)
    requires i < m < r <= |text|
    ensures text[i..r][1..m - i] == text[i + 1..m] && text[i..r][m - i + 1..] == text[m + 1..r]
    ensures text[i..r][m - i] == text[m]
  {
    SliceOfSlice(text, i, r, i + 1, m);
    SliceOfSlice(text, i, r, m + 1, r);
    var t := text[i..r];
    assert t[m - i + 1..] == t[m - i + 1..r - i];
  }

  lemma {:induction false} QuotedFirst(text: string, i: nat, r: nat)
    requires i < r < |text| && text[i] in "\"'"
    ensures TagEnd(text, i, '\0') == r <==> text[r] == '>' && WholeQuotes(text[i..r])
    decreases r - i, 0
  {
    hide TagEnd, WholeQuotes;
    EndStep(text, i);
    var t, q := text[i..r], text[i];
    QuoteFirst(t);
    if TagEnd(text, i, '\0') == r {
      var k := UpToQuote(text, i + 1, q);
      if k < r {
        TagEndIff(text, k + 1, r);
        assert QuotedTo(t, k - i) by { assert t[1..k - i] == text[i + 1..k]; }
        assert t[k - i + 1..] == text[k + 1..r];
      }
    }
    if WholeQuotes(t) && text[r] == '>' {
      var k :| QuotedTo(t, k) && WholeQuotes(t[k + 1..]);
      var m: nat := i + k;
      SlicesShift(text, i, r, m);
      OverQuote(text, i + 1, q, m);
      TagEndIff(text, m + 1, r);
    }
  }

  // Elements inside elements of the same name.

  lemma EndOpens(text: string, tag: string, i: nat, depth: nat)
    requires i < |text| && Look(text, tag, i).Opens? && TagEnd(text, i + |tag| + 1, '\0') >= 0
    ensures var e := TagEnd(text, i + |tag| + 1, '\0');
      FindEnd(text, tag, i, depth) == FindEnd(text, tag, e + 1, if SelfClosing(text[..e]) then depth else depth + 1)
  {
    hide TagEnd, Look, SelfClosing;
  }

  /** The scanner meets a start tag at `i`. */
  lemma StartMet(text: string, tag: string, i: nat, attrs: string, depth: nat)
    requires LowerLetters(tag) && Sub(text, i, "<" + tag + attrs + ">") && WholeQuotes(attrs)
    requires attrs == "" || attrs[0] in " /"
    ensures var e := i + |tag| + |attrs| + 1;
      && e < |text| && text[..e] == text[..i] + "<" + tag + attrs
      && FindEnd(text, tag, i, depth) == FindEnd(text, tag, e + 1, if SelfClosing(text[..e]) then depth else depth + 1)
  {
    hide TagEnd, WholeQuotes, SelfClosing, SkipIgnored, FindEnd, Look, Sub, LowerLetters;
    LettersAreNames(tag);
    var e := i + |tag| + |attrs| + 1;
    SubSplit(text, i, "<" + tag + attrs, ">");
    SubSplit(text, i, "<" + tag, attrs);
    OpenerSeen(text, tag, i, attrs);
    SubChar(text, e, ">", 0);
    SliceOfSub(text, i + |tag| + 1, attrs);
    SliceOfSub(text, e, ">");
    TagEndIff(text, i + |tag| + 1, e);
    EndOpens(text, tag, i, depth);
    SliceOfSub(text, i, "<" + tag + attrs);
    assert text[..e] == text[..i] + text[i..e];
  }

  lemma SliceOfSub(text: string, i: nat, x: string)
    requires Sub(text, i, x)
    ensures i + |x| <= |text| && text[i..i + |x|] == x
  {
  }

  lemma SelfClosingIff(s: string)
    requires s != "" && s[|s| - 1] !in SPACES
    ensures SelfClosing(s) <==> s[|s| - 1] == '/'
  {
    hide TrimSpace, SPACES, All;
    var a, b := Around(s);
    LastStays(s, a, TrimSpace(s), b);
  }

  lemma LastStays(s: string, a: string, t: string, b: string)
    requires s == a + t + b && All(a, SPACES) && All(b, SPACES) && s != "" && s[|s| - 1] !in SPACES
    ensures t != "" && t[|t| - 1] == s[|s| - 1]
  {
    hide SPACES;
    LastIs(a, t, b);
    AllLast(a);
    AllLast(b);
  }

  lemma LastIs(a: string, t: string, b: string)
    ensures var s := a + t + b;
      && (b != "" ==> s[|s| - 1] == b[|b| - 1]) && (b == "" && t != "" ==> s[|s| - 1] == t[|t| - 1])
      && (b == "" && t == "" ==> s == a)
  {
  }

  lemma AllLast(x: string)
    requires All(x, SPACES)
    ensures x != "" ==> x[|x| - 1] in SPACES
  {
  }

  /** A tag that ends in a slash is stepped over. */
  lemma SelfClosedSkips(text: string, tag: string, i: nat, attrs: string, depth: nat)
    requires LowerLetters(tag) && Sub(text, i, "<" + tag + attrs + "/" + ">") && WholeQuotes(attrs + "/")
    requires attrs == "" || attrs[0] == ' '
    ensures FindEnd(text, tag, i, depth) == FindEnd(text, tag, i + |"<" + tag + attrs + "/>"|, depth)
  {
    hide FindEnd, SelfClosing, WholeQuotes, Sub;
    assert "<" + tag + attrs + "/" + ">" == "<" + tag + (attrs + "/") + ">";
    StartMet(text, tag, i, attrs + "/", depth);
    SelfClosingIff(text[..i + |tag| + |attrs + "/"| + 1]);
  }

  /** An element inside an element of its name is stepped over, whatever its own depth. */
  lemma NestedSkips(text: string, tag: string, i: nat, attrs: string, bodyLength: nat, depth: nat)
    requires LowerLetters(tag) && Sub(text, i, "<" + tag + attrs + ">") && WholeQuotes(attrs) && depth >= 1
    requires attrs == "" || (attrs[0] == ' ' && attrs[|attrs| - 1] !in SPACES && attrs[|attrs| - 1] != '/')
    requires var b := i + |tag| + |attrs| + 2;
      Passes(text, tag, b, b + bodyLength) && Sub(text, b + bodyLength, "</" + tag + ">")
    ensures var e := i + |tag| + |attrs| + 2 + bodyLength + |tag| + 3;
      e <= |text| && FindEnd(text, tag, i, depth) == FindEnd(text, tag, e, depth)
  {
    hide FindEnd, SelfClosing, WholeQuotes, Passes, Sub, SPACES, LowerLetters;
    var b := i + |tag| + |attrs| + 2;
    StartMet(text, tag, i, attrs, depth);
    NotSelfClosed(text[..i], tag, attrs);
    PassFind(text, tag, b, b + bodyLength, depth + 1);
    EndMet(text, tag, b + bodyLength, depth);
  }

  lemma NotSelfClosed(before: string, tag: string, attrs: string)
    requires LowerLetters(tag)
    requires attrs == "" || (attrs[|attrs| - 1] !in SPACES && attrs[|attrs| - 1] != '/')
    ensures !SelfClosing(before + "<" + tag + attrs)
  {
    hide SelfClosing, SPACES;
    LetterIsNoBlank(tag);
    var s := before + "<" + tag + attrs;
    assert s[|s| - 1] == (if attrs == "" then tag[|tag| - 1] else attrs[|attrs| - 1]);
    SelfClosingIff(s);
  }

  lemma LetterIsNoBlank(tag: string)
    requires LowerLetters(tag)
    ensures tag != "" && tag[|tag| - 1] !in SPACES && tag[|tag| - 1] != '/'
  {
  }

  lemma EndMet(text: string, tag: string, i: nat, depth: nat)
    requires LowerLetters(tag) && Sub(text, i, "</" + tag + ">") && depth >= 1
    ensures i + |tag| + 3 <= |text| && FindEnd(text, tag, i, depth + 1) == FindEnd(text, tag, i + |tag| + 3, depth)
  {
    hide IndexFrom, At;
    LettersAreNames(tag);
    SubSplit(text, i, "</" + tag, ">");
    SubAt(text, i, "</" + tag);
    SubChar(text, i, "</" + tag, 1);
    SubChar(text, i + |tag| + 2, ">", 0);
    NoBang(text, i, CDATA_OPEN);
    NoBang(text, i, COMMENT_OPEN);
    assert Look(text, tag, i) == Closes;
    assert TagEnd(text, i + |tag| + 2, '\0') == i + |tag| + 2;
  }
}
