/** Byte-string searching as the streaming sieve and the markup parser do it: every search is
    made on a lower-cased copy of the text, so patterns are written in lower case. */
module Text {

  function LowerChar(c: char): char {
    if 'A' <= c <= 'Z' then (c as int + 32) as char else c
  }

  function LowerText(s: string): string {
    seq(|s|, i requires 0 <= i < |s| => LowerChar(s[i]))
  }

  const SPACES := " \t\n\r\U{B}\U{C}"

  function TrimLeft(s: string, cut: string): string {
    if s != "" && s[0] in cut then TrimLeft(s[1..], cut) else s
  }

  function TrimRight(s: string, cut: string): string {
    if s != "" && s[|s| - 1] in cut then TrimRight(s[..|s| - 1], cut) else s
  }

  function TrimSpace(s: string): string {
    TrimRight(TrimLeft(s, SPACES), SPACES)
  }

  predicate All(s: string, cut: string) {
    forall i :: 0 <= i < |s| ==> s[i] in cut
  }

  /** Trimming splits a text into the trimmed part and characters of the cut set. */
  lemma {:induction false} TrimLeftSplit(s: string, cut: string)
    ensures var n := |s| - |TrimLeft(s, cut)|;
      0 <= n && All(s[..n], cut) && s[n..] == TrimLeft(s, cut)
    ensures var t := TrimLeft(s, cut); t == "" || t[0] !in cut
  {
    if s != "" && s[0] in cut {
      TrimLeftSplit(s[1..], cut);
      var n := |s| - |TrimLeft(s, cut)|;
      assert s[..n] == [s[0]] + s[1..][..n - 1];
    }
  }

  lemma {:induction false} TrimRightSplit(s: string, cut: string)
    ensures var n := |TrimRight(s, cut)|;
      n <= |s| && All(s[n..], cut) && s[..n] == TrimRight(s, cut)
    ensures var t := TrimRight(s, cut); t == "" || t[|t| - 1] !in cut
  {
    if s != "" && s[|s| - 1] in cut {
      TrimRightSplit(s[..|s| - 1], cut);
      var n := |TrimRight(s, cut)|;
      assert s[n..] == s[..|s| - 1][n..] + [s[|s| - 1]];
    }
  }

  lemma {:induction false} TrimLeftPadded(a: string, x: string)
    requires All(a, SPACES) && (x == "" || x[0] !in SPACES)
    ensures TrimLeft(a + x, SPACES) == x
  {
    if a == "" {
      assert a + x == x;
    } else {
      assert (a + x)[1..] == a[1..] + x;
      TrimLeftPadded(a[1..], x);
    }
  }

  lemma {:induction false} TrimRightPadded(x: string, b: string)
    requires All(b, SPACES) && (x == "" || x[|x| - 1] !in SPACES)
    ensures TrimRight(x + b, SPACES) == x
  {
    if b == "" {
      assert x + b == x;
    } else {
      var s := x + b;
      assert s[..|s| - 1] == x + b[..|b| - 1];
      assert s[|s| - 1] == b[|b| - 1];
      TrimRightPadded(x, b[..|b| - 1]);
    }
  }

  /** Trimming takes away exactly the padding. */
  lemma TrimPadded(a: string, x: string, b: string)
    requires All(a, SPACES) && All(b, SPACES)
    requires x != "" && x[0] !in SPACES && x[|x| - 1] !in SPACES
    ensures TrimSpace(a + x + b) == x
  {
    hide All, TrimLeft, TrimRight;
    assert a + x + b == a + (x + b);
    TrimLeftPadded(a, x + b);
    TrimRightPadded(x, b);
  }

  lemma TrimEnds(s: string)
    requires TrimSpace(s) != ""
    ensures var t := TrimSpace(s); t[0] !in SPACES && t[|t| - 1] !in SPACES
  {
    TrimLeftSplit(s, SPACES);
    TrimRightSplit(TrimLeft(s, SPACES), SPACES);
  }

  lemma EmptyTrims()
    ensures TrimSpace("") == ""
  {
  }

  lemma TrimsToNothing(s: string)
    ensures TrimSpace(s) == "" <==> All(s, SPACES)
  {
    var t := TrimLeft(s, SPACES);
    TrimLeftSplit(s, SPACES);
    TrimRightSplit(t, SPACES);
    if All(s, SPACES) {
      TrimLeftPadded(s, "");
      assert s + "" == s;
    }
  }

  /** A text is what trimming leaves of it, between blanks. */
  lemma Around(x: string) returns (a: string, b: string)
    ensures x == a + TrimSpace(x) + b && All(a, SPACES) && All(b, SPACES)
  {
    hide SPACES;
    var u := TrimLeft(x, SPACES);
    TrimLeftSplit(x, SPACES);
    TrimRightSplit(u, SPACES);
    a, b := x[..|x| - |u|], u[|TrimSpace(x)|..];
    assert x == a + u && u == TrimSpace(x) + b;
  }

  lemma TrimTwice(s: string)
    ensures TrimSpace(TrimSpace(s)) == TrimSpace(s)
  {
    var t := TrimSpace(s);
    if t != "" {
      TrimEnds(s);
      TrimPadded("", t, "");
      assert "" + t + "" == t;
    }
  }

  /** The lower-cased text has `p` at position `i`. */
  predicate At(s: string, i: int, p: string) {
    0 <= i && i + |p| <= |s| && forall k :: 0 <= k < |p| ==> LowerChar(s[i + k]) == p[k]
  }

  /** Equal up to the case of ASCII letters; `word` is in lower case. */
  predicate SameWord(s: string, word: string) {
    |s| == |word| && At(s, 0, word)
  }

  /** The first position at or after `i` where `p` occurs, or -1. */
  function IndexFrom(s: string, p: string, i: nat): (r: int)
    ensures r == -1 || (i <= r && At(s, r, p))
    ensures forall j :: i <= j && (r < 0 || j < r) ==> !At(s, j, p)
    decreases |s| - i
  {
    if At(s, i, p) then i
    else if i < |s| then IndexFrom(s, p, i + 1)
    else -1
  }

  lemma AtChar(s: string, i: int, p: string, k: nat)
    requires At(s, i, p) && k < |p|
    ensures LowerChar(s[i + k]) == p[k]
  {
  }

  lemma AtInside(s: string, i: int, p: string)
    requires At(s, i, p)
    ensures 0 <= i && i + |p| <= |s|
  {
  }

  /** An occurrence inside a slice is the occurrence in the text. */
  lemma AtSlice(s: string, i: int, j: int, p: string, k: int)
    requires 0 <= i <= k && k + |p| <= j <= |s|
    ensures At(s[i..j], k - i, p) == At(s, k, p)
  {
    if At(s, k, p) {
      forall m | 0 <= m < |p| ensures LowerChar(s[i..j][k - i + m]) == p[m] {
        AtChar(s, k, p, m);
      }
    }
    if At(s[i..j], k - i, p) {
      forall m | 0 <= m < |p| ensures LowerChar(s[k + m]) == p[m] {
        AtChar(s[i..j], k - i, p, m);
      }
    }
  }

  lemma AtAppend(s: string, t: string, i: int, p: string)
    requires 0 <= i
    ensures At(s, i, p) ==> At(s + t, i, p)
    ensures i + |p| <= |s| ==> At(s, i, p) == At(s + t, i, p)
  {
  }

  lemma AtShift(s: string, t: string, i: nat, p: string)
    ensures At(s + t, |s| + i, p) == At(t, i, p)
  {
    if At(t, i, p) {
      forall k | 0 <= k < |p| ensures LowerChar((s + t)[|s| + i + k]) == p[k] {
        assert (s + t)[|s| + i + k] == t[i + k];
      }
    }
    if At(s + t, |s| + i, p) {
      forall k | 0 <= k < |p| ensures LowerChar(t[i + k]) == p[k] {
        assert (s + t)[|s| + i + k] == t[i + k];
      }
    }
  }

  /** A found index is not moved by text that arrives later. */
  lemma IndexAppend(s: string, t: string, p: string, i: nat)
    requires IndexFrom(s, p, i) >= 0
    ensures IndexFrom(s + t, p, i) == IndexFrom(s, p, i)
  {
    var r := IndexFrom(s, p, i);
    AtAppend(s, t, r, p);
    forall j | i <= j < r ensures !At(s + t, j, p) {
      AtAppend(s, t, j, p);
    }
  }

  const CDATA_OPEN := "<![cdata["
  const CDATA_CLOSE := "]]>"
  const COMMENT_OPEN := "<!--"
  const COMMENT_CLOSE := "-->"

  /** What a scanner does at a position: step over a CDATA section or a comment, give up because
      one of them never closes, or look at the position itself. */
  datatype Skip = Blocked | Advanced(next: nat) | Visible

  function SkipIgnored(s: string, i: nat): (r: Skip)
    ensures r.Advanced? ==> i < r.next <= |s|
  {
    if At(s, i, CDATA_OPEN) then
      var e := IndexFrom(s, CDATA_CLOSE, i + |CDATA_OPEN|);
      if e < 0 then Blocked else Advanced(e + |CDATA_CLOSE|)
    else if At(s, i, COMMENT_OPEN) then
      var e := IndexFrom(s, COMMENT_CLOSE, i + |COMMENT_OPEN|);
      if e < 0 then Blocked else Advanced(e + |COMMENT_CLOSE|)
    else Visible
  }

  lemma SkipAppend(s: string, t: string, i: nat)
    ensures SkipIgnored(s, i).Advanced? ==> SkipIgnored(s + t, i) == SkipIgnored(s, i)
    ensures SkipIgnored(s, i).Visible? && i + |CDATA_OPEN| <= |s| ==> SkipIgnored(s + t, i).Visible?
  {
    AtAppend(s, t, i, CDATA_OPEN);
    AtAppend(s, t, i, COMMENT_OPEN);
    if At(s, i, CDATA_OPEN) {
      if IndexFrom(s, CDATA_CLOSE, i + |CDATA_OPEN|) >= 0 {
        IndexAppend(s, t, CDATA_CLOSE, i + |CDATA_OPEN|);
      }
    } else if At(s, i, COMMENT_OPEN) {
      assert LowerChar(s[i + 2]) == COMMENT_OPEN[2] == '-' && (s + t)[i + 2] == s[i + 2];
      if IndexFrom(s, COMMENT_CLOSE, i + |COMMENT_OPEN|) >= 0 {
        assert !At(s + t, i, CDATA_OPEN) by {
          assert CDATA_OPEN[2] == '[' && LowerChar((s + t)[i + 2]) == '-';
        }
        IndexAppend(s, t, COMMENT_CLOSE, i + |COMMENT_OPEN|);
      }
    }
  }

  /** The first occurrence of `target` at or after `i` that no CDATA section or comment hides. */
  function FindVisible(s: string, target: string, i: nat): (r: int)
    ensures r == -1 || (i <= r && At(s, r, target))
    decreases |s| - i
  {
    if i >= |s| then -1
    else match SkipIgnored(s, i)
      case Blocked => -1
      case Advanced(next) => FindVisible(s, target, next)
      case Visible => if At(s, i, target) then i else FindVisible(s, target, i + 1)
  }

  /** `p` starts with '<', has no other '<', and is no CDATA or comment opener. */
  predicate TagLike(p: string) {
    |p| > 1 && p[0] == '<' && p[1] != '!' && forall k :: 0 < k < |p| ==> p[k] != '<'
  }

  /** Text whose remaining part holds no '<' holds no tag. */
  lemma {:induction false} NoneVisible(s: string, target: string, i: nat)
    requires TagLike(target)
    requires forall k :: i <= k < |s| ==> s[k] != '<'
    ensures FindVisible(s, target, i) == -1
    decreases |s| - i
  {
    if i < |s| {
      assert !At(s, i, target) && !At(s, i, CDATA_OPEN) && !At(s, i, COMMENT_OPEN) by {
        assert LowerChar(s[i + 0]) != '<' && target[0] == CDATA_OPEN[0] == COMMENT_OPEN[0] == '<';
      }
      NoneVisible(s, target, i + 1);
    }
  }

  /** A close position, once found, is stable under text that arrives later. */
  lemma {:induction false} FindVisibleAppend(s: string, t: string, target: string, i: nat)
    requires TagLike(target)
    requires FindVisible(s, target, i) >= 0
    ensures FindVisible(s + t, target, i) == FindVisible(s, target, i)
    decreases |s| - i
  {
    SkipAppend(s, t, i);
    AtAppend(s, t, i, target);
    match SkipIgnored(s, i)
    case Blocked =>
    case Advanced(next) =>
      FindVisibleAppend(s, t, target, next);
    case Visible =>
      if At(s, i, target) {
        assert LowerChar((s + t)[i + 1]) == target[1] && CDATA_OPEN[1] == COMMENT_OPEN[1] == '!';
      } else {
        FindVisibleAppend(s, t, target, i + 1);
        if !SkipIgnored(s + t, i).Visible? {
          HalfOpener(s, t, i);
          assert false;
        }
      }
  }

  /** An opener completed only by later text is the last thing in the text so far. */
  lemma HalfOpener(s: string, t: string, i: nat)
    requires i < |s| && SkipIgnored(s, i).Visible? && !SkipIgnored(s + t, i).Visible?
    ensures forall k :: i < k < |s| ==> s[k] != '<'
  {
    var p := if At(s + t, i, CDATA_OPEN) then CDATA_OPEN else COMMENT_OPEN;
    assert forall k :: 0 < k < |p| ==> p[k] != '<';
    assert At(s + t, i, p) && !At(s, i, p);
    AtAppend(s, t, i, p);
    forall k | i < k < |s| ensures s[k] != '<' {
      assert LowerChar((s + t)[i + (k - i)]) == p[k - i] != '<';
    }
  }

  /** A position found in a longer text is found in every prefix that contains it. */
  lemma {:induction false} FindVisibleInPrefix(s: string, t: string, target: string, i: nat)
    requires FindVisible(s + t, target, i) >= 0 && FindVisible(s + t, target, i) + |target| <= |s| && target != ""
    ensures FindVisible(s, target, i) == FindVisible(s + t, target, i)
    decreases |s| - i
  {
    var r := FindVisible(s + t, target, i);
    AtAppend(s, t, i, target);
    match SkipIgnored(s + t, i)
    case Blocked =>
    case Advanced(next) =>
      assert next <= r;
      SkipInPrefix(s, t, i);
      FindVisibleInPrefix(s, t, target, next);
    case Visible =>
      VisibleInPrefix(s, t, i);
      if !At(s + t, i, target) {
        FindVisibleInPrefix(s, t, target, i + 1);
      }
  }

  lemma VisibleInPrefix(s: string, t: string, i: nat)
    requires SkipIgnored(s + t, i).Visible?
    ensures SkipIgnored(s, i).Visible?
  {
    AtAppend(s, t, i, CDATA_OPEN);
    AtAppend(s, t, i, COMMENT_OPEN);
  }

  lemma SkipInPrefix(s: string, t: string, i: nat)
    requires SkipIgnored(s + t, i).Advanced? && SkipIgnored(s + t, i).next <= |s|
    ensures SkipIgnored(s, i) == SkipIgnored(s + t, i)
  {
    AtAppend(s, t, i, CDATA_OPEN);
    AtAppend(s, t, i, COMMENT_OPEN);
    if At(s + t, i, CDATA_OPEN) {
      IndexInPrefix(s, t, CDATA_CLOSE, i + |CDATA_OPEN|);
    } else {
      IndexInPrefix(s, t, COMMENT_CLOSE, i + |COMMENT_OPEN|);
    }
  }

  lemma IndexInPrefix(s: string, t: string, p: string, i: nat)
    requires IndexFrom(s + t, p, i) >= 0 && IndexFrom(s + t, p, i) + |p| <= |s|
    ensures IndexFrom(s, p, i) == IndexFrom(s + t, p, i)
  {
    var r := IndexFrom(s + t, p, i);
    AtAppend(s, t, r, p);
    forall j | i <= j < r ensures !At(s, j, p) {
      AtAppend(s, t, j, p);
    }
  }
}
