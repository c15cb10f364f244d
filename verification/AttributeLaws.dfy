/** Attributes as they may be written, and what is read out of them. */
module AttributeLaws {
  import opened Options
  import opened Text
  import opened MarkupScan
  import opened ToolCallText

  predicate KeyChar(c: char) {
    'a' <= c <= 'z' || 'A' <= c <= 'Z' || '0' <= c <= '9' || c == '_' || c == ':' || c == '-'
  }

  predicate KeyChars(s: string) {
    forall i :: 0 <= i < |s| ==> KeyChar(s[i])
  }

  predicate WordChar(c: char) {
    KeyChar(c) && c != ':' && c != '-'
  }

  predicate NoWordChars(s: string) {
    forall i :: 0 <= i < |s| ==> !WordChar(s[i])
  }

  const GAPS := " \t\n\r\U{C}"

  /** Anything without letters, a key, an equals sign between blanks, and a value in quotes of either
      kind. */
  datatype Written = Written(lead: string, key: string, before: string, after: string, quote: char, value: string)

  predicate Proper(a: Written) {
    && NoWordChars(a.lead) && All(a.before, GAPS) && All(a.after, GAPS)
    && a.key != "" && KeyChars(a.key) && WordChar(a.key[0])
    && a.quote in "\"'" && a.quote !in a.value
  }

  function KeyAndValue(a: Written): string {
    a.key + (a.before + ("=" + (a.after + ([a.quote] + (a.value + [a.quote])))))
  }

  function Write(xs: seq<Written>): string {
    if xs == [] then "" else (xs[0].lead + KeyAndValue(xs[0])) + Write(xs[1..])
  }

  /** The last value written under each key, whatever the letter case. */
  function Meant(xs: seq<Written>, given: map<string, string>): map<string, string> {
    if xs == [] then given else Meant(xs[1..], given[LowerText(xs[0].key) := xs[0].value])
  }

  lemma NameCharIff(c: char)
    ensures NameChar(c) <==> KeyChar(c)
  {
  }

  lemma {:induction false} NamesOver(s: string, i: nat, key: string)
    requires Sub(s, i, key) && KeyChars(key)
    requires i + |key| < |s| ==> !KeyChar(s[i + |key|])
    ensures SkipNames(s, i) == i + |key|
    decreases |key|
  {
    hide NameChar, KeyChar;
    if key != "" {
      NameCharIff(s[i]);
      SubChar(s, i, key, 0);
      assert key == [key[0]] + key[1..];
      SubSplit(s, i, [key[0]], key[1..]);
      NamesOver(s, i + 1, key[1..]);
    } else if i < |s| {
      NameCharIff(s[i]);
    }
  }

  lemma {:induction false} GapsOver(s: string, i: nat, gap: string)
    requires Sub(s, i, gap) && All(gap, GAPS)
    requires i + |gap| < |s| ==> s[i + |gap|] !in GAPS
    ensures SkipBlanks(s, i) == i + |gap|
    decreases |gap|
  {
    if gap != "" {
      SubChar(s, i, gap, 0);
      assert gap == [gap[0]] + gap[1..];
      SubSplit(s, i, [gap[0]], gap[1..]);
      GapsOver(s, i + 1, gap[1..]);
    }
  }

  lemma QuoteOver(s: string, i: nat, q: char, v: string)
    requires Sub(s, i, v) && Sub(s, i + |v|, [q]) && q !in v && q in "\"'"
    ensures IndexFrom(s, [q], i) == i + |v|
  {
    hide IndexFrom;
    SubChar(s, i + |v|, [q], 0);
    assert At(s, i + |v|, [q]);
    forall j | i <= j < i + |v| ensures !At(s, j, [q]) {
      SubChar(s, i, v, j - i);
      NotThere(s, j, q, v[j - i]);
    }
  }

  lemma NotThere(s: string, j: nat, q: char, c: char)
    requires j < |s| && s[j] == c && q in "\"'" && q != c
    ensures !At(s, j, [q])
  {
    if At(s, j, [q]) {
      AtChar(s, j, [q], 0);
    }
  }

  lemma Parts(s: string, i: nat, a: Written)
    requires Sub(s, i, KeyAndValue(a))
    ensures var e := i + |a.key| + |a.before|; var q := e + 1 + |a.after|;
      && Sub(s, i, a.key) && Sub(s, i + |a.key|, a.before) && Sub(s, e, "=") && Sub(s, e + 1, a.after)
      && Sub(s, q, [a.quote]) && Sub(s, q + 1, a.value) && Sub(s, q + 1 + |a.value|, [a.quote])
      && q + 2 + |a.value| == i + |KeyAndValue(a)|
  {
    hide Sub;
    var e := i + |a.key| + |a.before|;
    var q := e + 1 + |a.after|;
    SubSplit(s, i, a.key, a.before + ("=" + (a.after + ([a.quote] + (a.value + [a.quote])))));
    SubSplit(s, i + |a.key|, a.before, "=" + (a.after + ([a.quote] + (a.value + [a.quote]))));
    SubSplit(s, e, "=", a.after + ([a.quote] + (a.value + [a.quote])));
    SubSplit(s, e + 1, a.after, [a.quote] + (a.value + [a.quote]));
    SubSplit(s, q, [a.quote], a.value + [a.quote]);
    SubSplit(s, q + 1, a.value, [a.quote]);
  }

  lemma WordIff(s: string, i: int)
    ensures WordAt(s, i) <==> 0 <= i < |s| && WordChar(s[i])
  {
  }

  lemma KeyStarts(s: string, i: nat, a: Written)
    requires Proper(a) && Sub(s, i, a.key) && (i > 0 ==> i <= |s| && !WordChar(s[i - 1]))
    ensures i < |s| && !WordAt(s, i - 1) && WordAt(s, i)
  {
    SubChar(s, i, a.key, 0);
    hide WordChar, KeyChar;
    WordIff(s, i - 1);
    WordIff(s, i);
  }

  lemma Apart(c: char)
    ensures c in GAPS || c == '=' ==> !KeyChar(c)
    ensures c == '=' || c in "\"'" ==> c !in GAPS
  {
  }

  /** One attribute is found where its key starts. */
  lemma AttributeFound(s: string, i: nat, a: Written)
    requires Proper(a) && Sub(s, i, KeyAndValue(a)) && (i > 0 ==> i <= |s| && !WordChar(s[i - 1]))
    ensures AttrAt(s, i) == Some(Attr(a.key, a.value, i + |KeyAndValue(a)|))
    ensures i + |KeyAndValue(a)| <= |s| && s[i + |KeyAndValue(a)| - 1] == a.quote
  {
    hide Sub, SkipNames, SkipBlanks, IndexFrom, KeyChar, GAPS, WordAt, KeyAndValue;
    Parts(s, i, a);
    KeyStarts(s, i, a);
    var n := i + |a.key|;
    var e := n + |a.before|;
    var q := e + 1 + |a.after|;
    CharsOf(s, n, e, q, a);
    NamesOver(s, i, a.key);
    GapsOver(s, n, a.before);
    GapsOver(s, e + 1, a.after);
    QuoteOver(s, q + 1, a.quote, a.value);
    Slice(s, i, a.key);
    Slice(s, q + 1, a.value);
    assert [s[q]] == [a.quote];
  }

  lemma Slice(s: string, i: nat, x: string)
    requires Sub(s, i, x)
    ensures i + |x| <= |s| && s[i..i + |x|] == x
  {
  }

  lemma CharsOf(s: string, n: nat, e: nat, q: nat, a: Written)
    requires Proper(a) && n <= e && e == n + |a.before| && q == e + 1 + |a.after|
    requires Sub(s, n, a.before) && Sub(s, e, "=") && Sub(s, e + 1, a.after) && Sub(s, q, [a.quote])
    requires Sub(s, q + 1, a.value) && Sub(s, q + 1 + |a.value|, [a.quote])
    ensures q + 1 + |a.value| < |s| && s[e] == '=' && s[q] == a.quote && s[q + 1 + |a.value|] == a.quote
    ensures !KeyChar(s[n]) && s[e] !in GAPS && s[q] !in GAPS
  {
    SubChar(s, e, "=", 0);
    SubChar(s, q, [a.quote], 0);
    SubChar(s, q + 1 + |a.value|, [a.quote], 0);
    if a.before != "" {
      SubChar(s, n, a.before, 0);
    }
    Apart(s[n]);
    Apart(s[e]);
    Apart(s[q]);
  }

  lemma {:induction false} NoAttribute(s: string, i: nat, gap: string, acc: map<string, string>)
    requires Sub(s, i, gap) && NoWordChars(gap) && (i > 0 ==> i <= |s| && !WordChar(s[i - 1]))
    ensures Attrs(s, i, acc) == Attrs(s, i + |gap|, acc)
    ensures i + |gap| <= |s| && (i + |gap| > 0 ==> !WordChar(s[i + |gap| - 1]))
    decreases |gap|
  {
    hide WordChar, Sub, Attrs;
    Slice(s, i, gap);
    if gap != "" {
      SubChar(s, i, gap, 0);
      NotAnAttribute(s, i, acc);
      assert gap == [gap[0]] + gap[1..];
      SubSplit(s, i, [gap[0]], gap[1..]);
      NoAttribute(s, i + 1, gap[1..], acc);
    }
  }

  lemma NotAnAttribute(s: string, i: nat, acc: map<string, string>)
    requires i < |s| && !WordChar(s[i]) && (i > 0 ==> !WordChar(s[i - 1]))
    ensures Attrs(s, i, acc) == Attrs(s, i + 1, acc)
  {
    hide WordChar, WordAt;
    WordIff(s, i - 1);
    WordIff(s, i);
  }

  /** The first attribute of a text. */
  lemma FirstAttribute(s: string, i: nat, a: Written, rest: string, acc: map<string, string>)
    requires Proper(a) && i <= |s| && s[i..] == a.lead + (KeyAndValue(a) + rest) && (i > 0 ==> !WordChar(s[i - 1]))
    ensures var end := i + |a.lead| + |KeyAndValue(a)|;
      && 0 < end <= |s| && s[end..] == rest && !WordChar(s[end - 1])
      && Attrs(s, i, acc) == Attrs(s, end, acc[LowerText(a.key) := a.value])
  {
    hide WordChar, AttrAt, KeyAndValue, Sub, LowerText;
    SubOf(s, i, a.lead + (KeyAndValue(a) + rest));
    SubSplit(s, i, a.lead, KeyAndValue(a) + rest);
    var k := i + |a.lead|;
    SubSplit(s, k, KeyAndValue(a), rest);
    NoAttribute(s, i, a.lead, acc);
    AttributeFound(s, k, a);
    var end := k + |KeyAndValue(a)|;
    Slice(s, end, rest);
    assert s[end..] == s[end..end + |rest|];
    QuoteIsNoWord(a.quote);
  }

  /** Attributes, written one after the other in any of these ways, are read as what they mean. */
  lemma {:induction false} AttributesRead(s: string, i: nat, xs: seq<Written>, tail: string, acc: map<string, string>)
    requires forall k :: 0 <= k < |xs| ==> Proper(xs[k])
    requires i <= |s| && s[i..] == Write(xs) + tail && NoWordChars(tail) && (i > 0 ==> !WordChar(s[i - 1]))
    ensures Attrs(s, i, acc) == Meant(xs, acc)
    decreases |xs|
  {
    hide WordChar, Attrs, KeyAndValue, Sub, LowerText;
    if xs == [] {
      assert Write(xs) + tail == tail;
      SubOf(s, i, tail);
      NoAttribute(s, i, tail, acc);
      NoneLeft(s, acc);
    } else {
      var a, rest := xs[0], Write(xs[1..]) + tail;
      assert Write(xs) + tail == a.lead + (KeyAndValue(a) + rest);
      FirstAttribute(s, i, a, rest, acc);
      AttributesRead(s, i + |a.lead| + |KeyAndValue(a)|, xs[1..], tail, acc[LowerText(a.key) := a.value]);
    }
  }

  lemma NoneLeft(s: string, acc: map<string, string>)
    ensures Attrs(s, |s|, acc) == acc
  {
  }

  lemma QuoteIsNoWord(q: char)
    requires q in "\"'"
    ensures !WordChar(q)
  {
  }

  lemma SubOf(s: string, i: nat, x: string)
    requires i <= |s| && s[i..] == x
    ensures Sub(s, i, x) && i + |x| == |s|
  {
  }

  lemma {:induction false} MeantLast(xs: seq<Written>, k: nat, acc: map<string, string>)
    requires k < |xs| && forall j :: k < j < |xs| ==> LowerText(xs[j].key) != LowerText(xs[k].key)
    ensures var m := Meant(xs, acc); LowerText(xs[k].key) in m && m[LowerText(xs[k].key)] == xs[k].value
    decreases |xs|
  {
    hide LowerText;
    var next := acc[LowerText(xs[0].key) := xs[0].value];
    if k > 0 {
      MeantLast(xs[1..], k - 1, next);
    } else {
      MeantKeeps(xs[1..], LowerText(xs[0].key), next);
    }
  }

  lemma {:induction false} MeantKeeps(xs: seq<Written>, key: string, acc: map<string, string>)
    requires key in acc && forall j :: 0 <= j < |xs| ==> LowerText(xs[j].key) != key
    ensures var m := Meant(xs, acc); key in m && m[key] == acc[key]
    decreases |xs|
  {
    hide LowerText;
    if xs != [] {
      MeantKeeps(xs[1..], key, acc[LowerText(xs[0].key) := xs[0].value]);
    }
  }

  /** The name of a tag is the value of its last attribute of that name, in any letter case, between
      quotes of either kind. */
  lemma NameIsLast(xs: seq<Written>, tail: string, k: nat)
    requires forall j :: 0 <= j < |xs| ==> Proper(xs[j])
    requires NoWordChars(tail)
    requires k < |xs| && SameWord(xs[k].key, "name") && forall j :: k < j < |xs| ==> !SameWord(xs[j].key, "name")
    ensures NameOf(Write(xs) + tail) == TrimSpace(Unescape(xs[k].value))
  {
    hide Proper, Attrs, Write, TrimSpace, Unescape, KeyChar;
    AttributesRead(Write(xs) + tail, 0, xs, tail, map[]);
    forall j | 0 <= j < |xs| ensures LowerText(xs[j].key) == "name" <==> SameWord(xs[j].key, "name") {
      LowerIs(xs[j].key);
    }
    MeantLast(xs, k, map[]);
  }

  lemma LowerIs(key: string)
    ensures LowerText(key) == "name" <==> SameWord(key, "name")
  {
    if LowerText(key) == "name" {
      assert forall j :: 0 <= j < 4 ==> LowerText(key)[j] == LowerChar(key[j]);
    }
  }
}
