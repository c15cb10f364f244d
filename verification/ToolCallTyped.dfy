/** Typed arguments: which texts of a section are read as booleans, null, numbers and strings. */
module ToolCallTyped {
  import opened Text
  import opened ToolCallText
  import opened ToolCallNames
  import opened ToolCallRoundTrip

  predicate Digits(s: string) {
    forall i :: 0 <= i < |s| ==> '0' <= s[i] <= '9'
  }

  /** An optional minus, digits, an optional point, digits; at least one letter besides the minus. */
  predicate Numeral(s: string, sign: string, whole: string, point: string, rest: string) {
    && s == sign + whole + point + rest && (sign == "" || sign == "-") && (point == "" || point == ".")
    && Digits(whole) && Digits(rest) && whole + point + rest != ""
  }

  lemma {:induction false} DigitsOrPoint(s: string) returns (whole: string, point: string, rest: string)
    requires forall i :: 0 <= i < |s| ==> '0' <= s[i] <= '9' || s[i] == '.'
    requires OnePoint(s)
    ensures s == whole + point + rest && (point == "" || point == ".") && Digits(whole) && Digits(rest)
  {
    if i :| 0 <= i < |s| && s[i] == '.' {
      whole, point, rest := s[..i], ".", s[i + 1..];
      forall k | 0 <= k < i ensures s[k] != '.' {
        assert s[i] == '.';
      }
      forall k | i < k < |s| ensures s[k] != '.' {
        assert s[i] == '.';
      }
    } else {
      whole, point, rest := s, "", "";
    }
  }

  predicate OnePoint(s: string) {
    forall i, j :: 0 <= i < j < |s| ==> !(s[i] == '.' && s[j] == '.')
  }

  lemma PointsBehind(s: string, n: nat)
    requires OnePoint(s) && n <= |s|
    ensures OnePoint(s[n..])
  {
    forall i, j | 0 <= i < j < |s[n..]| ensures !(s[n..][i] == '.' && s[n..][j] == '.') {
      assert s[n..][i] == s[n + i] && s[n..][j] == s[n + j];
    }
  }

  lemma DigitsBehind(s: string, n: nat)
    requires PureNumber(s) && n <= |s| && n == if s[0] == '-' then 1 else 0
    ensures OnePoint(s) && s[n..] != "" && forall i :: 0 <= i < |s[n..]| ==> '0' <= s[n..][i] <= '9' || s[n..][i] == '.'
  {
    forall i | 0 <= i < |s[n..]| ensures '0' <= s[n..][i] <= '9' || s[n..][i] == '.' {
      assert s[n..][i] == s[n + i];
    }
  }

  lemma PureIsNumeral(s: string) returns (sign: string, whole: string, point: string, rest: string)
    requires PureNumber(s)
    ensures Numeral(s, sign, whole, point, rest)
  {
    var n := if s[0] == '-' then 1 else 0;
    DigitsBehind(s, n);
    PointsBehind(s, n);
    hide PureNumber;
    sign := s[..n];
    whole, point, rest := DigitsOrPoint(s[n..]);
    assert s == s[..n] + s[n..];
  }

  /** The number texts are the numerals. */
  lemma {:induction false} PureNumberIff(s: string)
    ensures PureNumber(s) <==> exists sign, whole, point, rest :: Numeral(s, sign, whole, point, rest)
  {
    hide PureNumber, Numeral;
    if PureNumber(s) {
      var sign, whole, point, rest := PureIsNumeral(s);
    }
    if sign, whole, point, rest :| Numeral(s, sign, whole, point, rest) {
      NumeralIsPure(s, sign, whole, point, rest);
    }
  }

  lemma NumeralIsPure(s: string, sign: string, whole: string, point: string, rest: string)
    requires Numeral(s, sign, whole, point, rest)
    ensures PureNumber(s)
  {
    var a, b := |sign| + |whole|, |sign| + |whole| + |point|;
    forall i | 0 <= i < |s|
      ensures '0' <= s[i] <= '9' || s[i] == '.' || (i == 0 && s[i] == '-')
      ensures s[i] == '.' ==> a <= i < b
    {
      if |sign| <= i < a {
        assert s[i] == whole[i - |sign|];
      } else if b <= i {
        assert s[i] == rest[i - b];
      }
    }
    if |sign| < |s| {
      assert s[|sign|] != '-' by {
        if |sign| < a {
          assert s[|sign|] == whole[0];
        } else if a < b {
          assert s[|sign|] == '.';
        } else {
          assert s[|sign|] == rest[0];
        }
      }
    }
  }

  /** A text with blanks around it. */
  predicate Padded(text: string, a: string, x: string, b: string) {
    text == a + x + b && All(a, SPACES) && All(b, SPACES)
  }

  /** The text writes a word, in any letter case, with blanks around it. */
  ghost predicate WritesWord(text: string, word: string) {
    exists a, x, b :: Padded(text, a, x, b) && |x| == |word| && LowerText(x) == word
  }

  ghost predicate WritesNumber(e: Engine, text: string, d: string) {
    && e.number(d) && (exists sign, whole, point, rest :: Numeral(d, sign, whole, point, rest))
    && exists a, b :: Padded(text, a, d, b)
  }

  ghost predicate WritesLiteral(e: Engine, text: string, v: Value) {
    match v
    case Bool(flag) => WritesWord(text, if flag then "true" else "false")
    case Null => WritesWord(text, "null")
    case Number(d) => WritesNumber(e, text, d)
    case _ => false
  }

  /** The text writes this value: as a literal, or as the string itself if it writes no literal. */
  ghost predicate Writes(e: Engine, text: string, v: Value) {
    if v.Str? then v.text == text && forall u :: !WritesLiteral(e, text, u) else WritesLiteral(e, text, v)
  }

  lemma TrimsAway(text: string, a: string, x: string, b: string)
    requires Padded(text, a, x, b) && x != "" && x[0] !in SPACES && x[|x| - 1] !in SPACES
    ensures TrimSpace(text) == x
  {
    TrimPadded(a, x, b);
  }

  lemma WordIsLower(x: string, word: string)
    ensures SameWord(x, word) <==> |x| == |word| && LowerText(x) == word
  {
    if SameWord(x, word) {
      forall i | 0 <= i < |x| ensures LowerText(x)[i] == word[i] {
        assert LowerChar(x[0 + i]) == word[i];
      }
    }
    if |x| == |word| && LowerText(x) == word {
      forall k | 0 <= k < |word| ensures LowerChar(x[0 + k]) == word[k] {
        assert LowerText(x)[k] == word[k];
      }
    }
  }

  predicate Letters(word: string) {
    word != "" && forall i :: 0 <= i < |word| ==> 'a' <= word[i] <= 'z'
  }

  lemma LowerOfBlank(c: char)
    requires c in SPACES
    ensures !('a' <= LowerChar(c) <= 'z')
  {
  }

  lemma WritesWordIff(text: string, word: string)
    requires Letters(word)
    ensures WritesWord(text, word) <==> SameWord(TrimSpace(text), word)
  {
    hide SPACES, TrimSpace;
    var t := TrimSpace(text);
    WordIsLower(t, word);
    var a, b := Around(text);
    assert Padded(text, a, TrimSpace(text), b);
    if WritesWord(text, word) {
      var a1, x, b1 :| Padded(text, a1, x, b1) && |x| == |word| && LowerText(x) == word;
      var n := |x| - 1;
      assert LowerText(x)[0] == LowerChar(x[0]) && LowerText(x)[n] == LowerChar(x[n]);
      if x[0] in SPACES {
        LowerOfBlank(x[0]);
      }
      if x[n] in SPACES {
        LowerOfBlank(x[n]);
      }
      TrimsAway(text, a1, x, b1);
    }
  }

  lemma WritesNumberIff(e: Engine, text: string, d: string)
    ensures WritesNumber(e, text, d) <==> TrimSpace(text) == d && PureNumber(d) && e.number(d)
  {
    hide TrimSpace;
    PureNumberIff(d);
    var a, b := Around(text);
    assert Padded(text, a, TrimSpace(text), b);
    if WritesNumber(e, text, d) {
      var a1, b1 :| Padded(text, a1, d, b1);
      NumberEnds(d);
      TrimsAway(text, a1, d, b1);
    }
  }

  lemma NumberEnds(d: string)
    requires PureNumber(d)
    ensures d != "" && d[0] !in SPACES && d[|d| - 1] !in SPACES
  {
  }

  lemma WordsDiffer(t: string)
    ensures SameWord(t, "true") ==> !SameWord(t, "false") && !SameWord(t, "null") && !PureNumber(t)
    ensures SameWord(t, "false") ==> !SameWord(t, "null") && !PureNumber(t)
    ensures SameWord(t, "null") ==> !PureNumber(t)
  {
    if t != "" && PureNumber(t) {
      assert LowerChar(t[0]) == t[0];
    }
    if SameWord(t, "true") {
      AtChar(t, 0, "true", 0);
    }
    if SameWord(t, "false") {
      AtChar(t, 0, "false", 0);
    }
    if SameWord(t, "null") {
      AtChar(t, 0, "null", 0);
    }
  }

  /** The content of a section is read as the one value it writes. */
  lemma {:induction false} SectionWrites(e: Engine, text: string, v: Value)
    ensures CdataValue(e, text) == v <==> Writes(e, text, v)
  {
    hide TrimSpace, PureNumber, SameWord, WritesWord, WritesNumber;
    var t := TrimSpace(text);
    WritesWordIff(text, "true");
    WritesWordIff(text, "false");
    WritesWordIff(text, "null");
    WordsDiffer(t);
    WritesNumberIff(e, text, t);
    forall d ensures WritesNumber(e, text, d) <==> d == t && PureNumber(t) && e.number(t) {
      WritesNumberIff(e, text, d);
    }
    if v.Str? && Writes(e, text, v) {
      assert !WritesLiteral(e, text, Bool(true)) && !WritesLiteral(e, text, Bool(false));
      assert !WritesLiteral(e, text, Null) && !WritesLiteral(e, text, Number(t));
    }
  }

  /** A value without section closers is rendered and read back as the one value it writes; the empty
      one as the empty string. */
  lemma {:induction false} TypedValueRead(e: Engine, text: string, v: Value)
    requires !HoldsCloser(text)
    ensures ParseValue(e, RenderText(text)) == v <==> if text == "" then v == Str("") else Writes(e, text, v)
  {
    hide SplitCloses, ParseValue, RenderText, Writes, CdataValue, IndexFrom;
    ValueRead(e, text);
    SplitGrows(text);
    SectionWrites(e, text, v);
  }

  // Calls with typed arguments.

  function Typed(names: seq<string>, values: seq<Value>): map<string, Value>
    requires |names| == |values|
  {
    if names == [] then map[] else Typed(names[1..], values[1..])[names[0] := values[0]]
  }

  /** The call writes these arguments. */
  ghost predicate WritesCall(e: Engine, c: Call, values: seq<Value>) {
    && |values| == |c.params| > 0
    && forall i :: 0 <= i < |values| ==>
         && !HoldsCloser(c.params[i].1)
         && if c.params[i].1 == "" then values[i] == Str("") else Writes(e, c.params[i].1, values[i])
  }

  function NamesOfParams(ps: seq<(string, string)>): seq<string> {
    seq(|ps|, i requires 0 <= i < |ps| => ps[i].0)
  }

  lemma {:induction false} TypedAt(ps: seq<(string, string)>, values: seq<Value>)
    requires DistinctNames(ps) && |ps| == |values|
    ensures KeyedBy(Typed(NamesOfParams(ps), values), ps)
    ensures forall i :: 0 <= i < |ps| ==>
      var m := Typed(NamesOfParams(ps), values); ps[i].0 in m && m[ps[i].0] == values[i]
  {
    var m := Typed(NamesOfParams(ps), values);
    if ps != [] {
      TypedAt(ps[1..], values[1..]);
      assert NamesOfParams(ps)[1..] == NamesOfParams(ps[1..]);
      var rest := Typed(NamesOfParams(ps[1..]), values[1..]);
      assert m == rest[ps[0].0 := values[0]];
      forall i | 0 <= i < |ps| ensures ps[i].0 in m && m[ps[i].0] == values[i] {
        if i > 0 {
          assert ps[i] == ps[1..][i - 1] && values[i] == values[1..][i - 1];
        }
      }
      forall k | k in m ensures exists i :: 0 <= i < |ps| && ps[i].0 == k {
        if k != ps[0].0 {
          var i :| 0 <= i < |ps[1..]| && ps[1..][i].0 == k;
          assert ps[i + 1].0 == k;
        } else {
          assert ps[0].0 == k;
        }
      }
    }
  }

  /** A call that writes typed arguments is read with just these. */
  lemma {:induction false} TypedCallReads(e: Engine, json: string, c: Call, values: seq<Value>)
    requires WellNamed(c) && WritesCall(e, c, values) && FirstIsEntry(e) && (ReadTool(c.name) ==> |c.params| == 1)
    ensures ReadCall(e, json, c) == Parsed(c.name, Typed(NamesOfParams(c.params), values))
  {
    hide ParseValue, RenderText, TrimSpace, Collected, Simplify, ReadTool, Renderable, Writes, HoldsCloser;
    hide KeyedBy, Typed;
    var ps := c.params;
    var out, given := Collected(e, ps, map[]), Typed(NamesOfParams(ps), values);
    assert Renderable(ps) by { NamesAreThere(c); }
    assert Shown(json, c) == ps;
    BothKeyed(e, ps);
    TypedAt(ps, values);
    forall i | 0 <= i < |ps| ensures out[ps[i].0] == given[ps[i].0] {
      TypedValueRead(e, ps[i].1, values[i]);
    }
    SameEntries(out, given, ps);
    assert ps[0].0 in out;
    var k := SimplifyShape(e, c.name, out);
    if ReadTool(c.name) {
      OneEntry(out, ps, k);
    }
  }

  lemma OneEntry(m: map<string, Value>, ps: seq<(string, string)>, k: string)
    requires KeyedBy(m, ps) && |ps| == 1 && k in m
    ensures m == map[k := m[k]]
  {
  }

  /** Rendered and parsed, a call that writes typed arguments comes back as the call with them. */
  lemma {:induction false} TypedRoundTrip(e: Engine, json: seq<(string, string)> -> string, c: Call, values: seq<Value>)
    requires WellNamed(c) && WritesCall(e, c, values) && FirstIsEntry(e) && (ReadTool(c.name) ==> |c.params| == 1)
    ensures Parse(e, Format(json, [c])) == [Parsed(c.name, Typed(NamesOfParams(c.params), values))]
  {
    hide Parse, Format, ReadCall, TrimSpace, WritesCall, Typed, ReadTool;
    NamedCallsAreRendered(json, [c]);
    RenderedCallsReadBack(e, json, [c]);
    AllAreRead(e, json, [c]);
    TypedCallReads(e, json(c.params), c, values);
  }
}
