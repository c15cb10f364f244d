/** The hand-written markup scanner of the tool-call parser
    (internal/toolcall/toolcalls_parse_markup.go): elements of one name, nested, outside CDATA
    sections and comments. Element names are given in lower case. */
module Markup {
  import opened Text

  /** An element name: not empty, and no tag syntax in it. */
  predicate ElementName(tag: string) {
    tag != "" && forall k :: 0 <= k < |tag| ==> tag[k] !in "</!>\"' \t\n\r"
  }

  /** Where a tag ends: the first '>' outside quotes, or -1. */
  function TagEnd(text: string, i: nat, quote: char): (r: int)
    ensures r == -1 || (i <= r < |text| && text[r] == '>')
    decreases |text| - i
  {
    if i >= |text| then -1
    else if quote != '\0' then TagEnd(text, i + 1, if text[i] == quote then '\0' else quote)
    else if text[i] == '"' || text[i] == '\'' then TagEnd(text, i + 1, text[i])
    else if text[i] == '>' then i
    else TagEnd(text, i + 1, '\0')
  }

  predicate Boundary(text: string, i: nat) {
    i < |text| ==> text[i] in " \t\n\r>/"
  }

  predicate SelfClosing(startTag: string) {
    var t := TrimSpace(startTag);
    t != "" && t[|t| - 1] == '/'
  }

  /** What the scanner sees at a position. */
  datatype Sight = Stuck | Hidden(next: nat) | Opens | Closes | Plain

  function Look(text: string, tag: string, i: nat): (r: Sight)
    ensures r.Hidden? ==> i < r.next <= |text|
    ensures r.Opens? ==> At(text, i, "<" + tag)
    ensures r.Closes? ==> At(text, i, "</" + tag)
  {
    match SkipIgnored(text, i)
    case Blocked => Stuck
    case Advanced(next) => Hidden(next)
    case Visible =>
      if At(text, i, "</" + tag) && Boundary(text, i + |tag| + 2) then Closes
      else if At(text, i, "<" + tag) && Boundary(text, i + |tag| + 1) then Opens
      else Plain
  }

  datatype Found = Missing | Tag(start: nat, end: nat)

  /** The first start tag at or after `i`, up to its closing '>'. */
  function FindStart(text: string, tag: string, i: nat): (r: Found)
    ensures r.Tag? ==> i <= r.start && r.start + |tag| + 1 <= r.end < |text|
    decreases |text| - i
  {
    if i >= |text| then Missing
    else match Look(text, tag, i)
      case Stuck => Missing
      case Hidden(next) => FindStart(text, tag, next)
      case Opens =>
        var e := TagEnd(text, i + |tag| + 1, '\0');
        if e < 0 then Missing else Tag(i, e)
      case _ => FindStart(text, tag, i + 1)
  }

  /** The end tag that brings the nesting depth back to zero. */
  function FindEnd(text: string, tag: string, i: nat, depth: nat): (r: Found)
    ensures r.Tag? ==> i <= r.start < r.end < |text|
    decreases |text| - i
  {
    if i >= |text| then Missing
    else match Look(text, tag, i)
      case Stuck => Missing
      case Hidden(next) => FindEnd(text, tag, next, depth)
      case Closes =>
        var e := TagEnd(text, i + |tag| + 2, '\0');
        if e < 0 then Missing
        else if depth <= 1 then Tag(i, e)
        else FindEnd(text, tag, e + 1, depth - 1)
      case Opens =>
        var e := TagEnd(text, i + |tag| + 1, '\0');
        if e < 0 then Missing
        else FindEnd(text, tag, e + 1, if SelfClosing(text[..e]) then depth else depth + 1)
      case Plain => FindEnd(text, tag, i + 1, depth)
  }

  datatype Block = Block(attrs: string, body: string, start: nat, end: nat)

  /** All outermost elements from `i` on. */
  function Blocks(text: string, tag: string, i: nat): seq<Block>
    decreases |text| - i
  {
    if i >= |text| then []
    else match FindStart(text, tag, i)
      case Missing => []
      case Tag(s, e) =>
        match FindEnd(text, tag, e + 1, 1)
        case Missing => []
        case Tag(cs, ce) =>
          [Block(text[s + |tag| + 1..e], text[e + 1..cs], s, ce + 1)] + Blocks(text, tag, ce + 1)
  }

  // The scanners as the source runs them.

  method FindTagEnd(text: string, from: nat) returns (r: int)
    ensures r == TagEnd(text, from, '\0')
  {
    var quote := '\0';
    var i := from;
    while i < |text|
      invariant TagEnd(text, from, '\0') == TagEnd(text, i, quote)
    {
      var ch := text[i];
      if quote != '\0' {
        if ch == quote {
          quote := '\0';
        }
      } else if ch == '"' || ch == '\'' {
        quote := ch;
      } else if ch == '>' {
        return i;
      }
      i := i + 1;
    }
    r := -1;
  }

  lemma OpensNotCloses(text: string, tag: string, i: nat)
    requires ElementName(tag) && At(text, i, "<" + tag)
    ensures !At(text, i, "</" + tag)
  {
    AtChar(text, i, "<" + tag, 1);
    if At(text, i, "</" + tag) {
      AtChar(text, i, "</" + tag, 1);
    }
  }

  method FindStartTag(text: string, tag: string, from: nat) returns (r: Found)
    requires ElementName(tag)
    ensures r == FindStart(text, tag, from)
  {
    hide TagEnd, At, Boundary, SkipIgnored;
    var i := from;
    while i < |text|
      invariant FindStart(text, tag, from) == FindStart(text, tag, i)
      decreases |text| - i
    {
      match SkipIgnored(text, i) {
        case Blocked =>
          return Missing;
        case Advanced(next) =>
          i := next;
        case Visible =>
          if At(text, i, "<" + tag) && Boundary(text, i + |tag| + 1) {
            OpensNotCloses(text, tag, i);
            var end := FindTagEnd(text, i + |tag| + 1);
            if end < 0 {
              return Missing;
            }
            return Tag(i, end);
          }
          i := i + 1;
      }
    }
    r := Missing;
  }

  /** The depth-counting loop of `findMatchingXMLEndTagOutsideCDATA`. */
  method FindMatchingEndTag(text: string, tag: string, from: nat) returns (r: Found)
    ensures r == FindEnd(text, tag, from, 1)
  {
    hide TagEnd, At, Boundary, SkipIgnored, SelfClosing;
    var depth: nat := 1;
    var i := from;
    while i < |text|
      invariant depth >= 1
      invariant FindEnd(text, tag, from, 1) == FindEnd(text, tag, i, depth)
      decreases |text| - i
    {
      match SkipIgnored(text, i) {
        case Blocked =>
          return Missing;
        case Advanced(next) =>
          i := next;
        case Visible =>
          if At(text, i, "</" + tag) && Boundary(text, i + |tag| + 2) {
            var end := FindTagEnd(text, i + |tag| + 2);
            if end < 0 {
              return Missing;
            }
            depth := depth - 1;
            if depth == 0 {
              return Tag(i, end);
            }
            i := end + 1;
          } else if At(text, i, "<" + tag) && Boundary(text, i + |tag| + 1) {
            var end := FindTagEnd(text, i + |tag| + 1);
            if end < 0 {
              return Missing;
            }
            if !SelfClosing(text[..end]) {
              depth := depth + 1;
            }
            i := end + 1;
          } else {
            i := i + 1;
          }
      }
    }
    r := Missing;
  }

  /** One more block, or none from here on. */
  lemma {:induction false} NextBlock(text: string, tag: string, pos: nat)
    requires pos < |text|
    ensures var st := FindStart(text, tag, pos);
      && (st.Missing? ==> Blocks(text, tag, pos) == [])
      && (st.Tag? ==>
            var en := FindEnd(text, tag, st.end + 1, 1);
            && (en.Missing? ==> Blocks(text, tag, pos) == [])
            && (en.Tag? ==>
                  var b := Block(text[st.start + |tag| + 1..st.end], text[st.end + 1..en.start], st.start, en.end + 1);
                  Blocks(text, tag, pos) == [b] + Blocks(text, tag, en.end + 1)))
  {
    hide FindStart, FindEnd;
  }

  method FindElementBlocks(text: string, tag: string) returns (out: seq<Block>)
    requires ElementName(tag)
    ensures out == Blocks(text, tag, 0)
  {
    hide FindStart, FindEnd, Blocks;
    out := [];
    var pos := 0;
    while pos < |text|
      invariant Blocks(text, tag, 0) == out + Blocks(text, tag, pos)
      decreases |text| - pos
    {
      NextBlock(text, tag, pos);
      var start := FindStartTag(text, tag, pos);
      if start.Missing? {
        return;
      }
      var close := FindMatchingEndTag(text, tag, start.end + 1);
      if close.Missing? {
        return;
      }
      var attrs, body := text[start.start + |tag| + 1..start.end], text[start.end + 1..close.start];
      out := out + [Block(attrs, body, start.start, close.end + 1)];
      pos := close.end + 1;
    }
    NothingLeft(text, tag, pos);
  }

  lemma NothingLeft(text: string, tag: string, pos: nat)
    requires pos >= |text|
    ensures Blocks(text, tag, pos) == []
  {
  }

  // What the nesting loop finds, without running it: the tags in sight and their running depth.

  datatype TagSeen = TagSeen(start: nat, end: nat, weight: int)

  /** The tags of one name from `i` on, in order: +1 for an opener, 0 for a self-closing one, -1
      for a closer. The list ends where the scanner gets stuck. */
  function TagsFrom(text: string, tag: string, i: nat): (r: seq<TagSeen>)
    decreases |text| - i
  {
    if i >= |text| then []
    else match Look(text, tag, i)
      case Stuck => []
      case Hidden(next) => TagsFrom(text, tag, next)
      case Closes =>
        var e := TagEnd(text, i + |tag| + 2, '\0');
        if e < 0 then [] else [TagSeen(i, e, -1)] + TagsFrom(text, tag, e + 1)
      case Opens =>
        var e := TagEnd(text, i + |tag| + 1, '\0');
        if e < 0 then []
        else [TagSeen(i, e, if SelfClosing(text[..e]) then 0 else 1)] + TagsFrom(text, tag, e + 1)
      case Plain => TagsFrom(text, tag, i + 1)
  }

  function DepthAfter(tags: seq<TagSeen>, n: nat, depth: int): int
    requires n <= |tags|
  {
    if n == 0 then depth else DepthAfter(tags, n - 1, depth) + tags[n - 1].weight
  }

  predicate PositiveUpTo(tags: seq<TagSeen>, n: nat, depth: int)
    requires n <= |tags|
  {
    forall m :: 0 <= m <= n ==> DepthAfter(tags, m, depth) > 0
  }

  /** The depth returns to zero for the first time at the n-th tag. */
  predicate BalancesAt(tags: seq<TagSeen>, n: int, depth: int) {
    0 <= n < |tags| && DepthAfter(tags, n + 1, depth) == 0 && PositiveUpTo(tags, n, depth)
  }

  ghost predicate NeverBalances(tags: seq<TagSeen>, depth: int) {
    forall m :: !BalancesAt(tags, m, depth)
  }

  lemma {:induction false} DepthShift(t: TagSeen, tags: seq<TagSeen>, n: nat, depth: int)
    requires n <= |tags|
    ensures DepthAfter([t] + tags, n + 1, depth) == DepthAfter(tags, n, depth + t.weight)
  {
    if n > 0 {
      DepthShift(t, tags, n - 1, depth);
      assert ([t] + tags)[n] == tags[n - 1];
    } else {
      assert DepthAfter([t] + tags, 0, depth) == depth;
    }
  }

  /** Putting a tag in front shifts the balance by one, unless that tag balances at once. */
  lemma BalanceShift(t: TagSeen, tags: seq<TagSeen>, n: int, depth: int, d: int)
    requires depth > 0 && d == depth + t.weight && d > 0
    ensures BalancesAt([t] + tags, n + 1, depth) <==> BalancesAt(tags, n, d)
  {
    hide PositiveUpTo;
    if 0 <= n < |tags| {
      DepthShift(t, tags, n + 1, depth);
      BalanceShiftBefore(t, tags, n, depth, d);
    } else if n + 1 == 0 {
      DepthShift(t, tags, 0, depth);
    }
  }

  lemma BalanceShiftBefore(t: TagSeen, tags: seq<TagSeen>, n: nat, depth: int, d: int)
    requires depth > 0 && d == depth + t.weight && n < |tags|
    ensures PositiveUpTo([t] + tags, n + 1, depth) <==> PositiveUpTo(tags, n, d)
  {
    var all := [t] + tags;
    if PositiveUpTo(all, n + 1, depth) {
      forall m | 0 <= m <= n ensures DepthAfter(tags, m, d) > 0 {
        DepthShift(t, tags, m, depth);
        assert DepthAfter(all, m + 1, depth) > 0;
      }
    }
    if PositiveUpTo(tags, n, d) {
      forall m | 0 <= m <= n + 1 ensures DepthAfter(all, m, depth) > 0 {
        if m > 0 {
          DepthShift(t, tags, m - 1, depth);
          assert DepthAfter(tags, m - 1, d) > 0;
        }
      }
    }
  }

  /** The matching end tag is the tag at which the depth, counted over the visible tags of the same
      name, first returns to zero; there is none exactly when it never does. */
  lemma {:induction false} EndIsFirstBalance(text: string, tag: string, i: nat, depth: nat) returns (n: nat)
    requires depth > 0
    ensures var tags := TagsFrom(text, tag, i);
      var r := FindEnd(text, tag, i, depth);
      if r.Missing? then NeverBalances(tags, depth)
      else BalancesAt(tags, n, depth) && tags[n].weight == -1 && r == Tag(tags[n].start, tags[n].end)
    decreases |text| - i
  {
    hide Look, TagEnd, SelfClosing, BalancesAt;
    n := 0;
    var tags := TagsFrom(text, tag, i);
    if i >= |text| {
      NoBalance(tags, depth);
    } else {
      match Look(text, tag, i)
      case Stuck =>
        NoBalance(tags, depth);
      case Hidden(next) =>
        n := EndIsFirstBalance(text, tag, next, depth);
      case Plain =>
        n := EndIsFirstBalance(text, tag, i + 1, depth);
      case Closes =>
        var e := TagEnd(text, i + |tag| + 2, '\0');
        if e < 0 {
          NoBalance(tags, depth);
        } else if depth == 1 {
          ClosesAtOnce(tags);
        } else {
          n := EndIsFirstBalance(text, tag, e + 1, depth - 1);
          n := Later(TagSeen(i, e, -1), TagsFrom(text, tag, e + 1), n, depth, depth - 1);
        }
      case Opens =>
        var e := TagEnd(text, i + |tag| + 1, '\0');
        if e < 0 {
          NoBalance(tags, depth);
        } else {
          var w := if SelfClosing(text[..e]) then 0 else 1;
          n := EndIsFirstBalance(text, tag, e + 1, depth + w);
          n := Later(TagSeen(i, e, w), TagsFrom(text, tag, e + 1), n, depth, depth + w);
        }
    }
  }

  lemma NoBalance(tags: seq<TagSeen>, depth: nat)
    requires tags == []
    ensures NeverBalances(tags, depth)
  {
  }

  lemma ClosesAtOnce(tags: seq<TagSeen>)
    requires tags != [] && tags[0].weight == -1
    ensures BalancesAt(tags, 0, 1)
  {
    assert DepthAfter(tags, 1, 1) == DepthAfter(tags, 0, 1) - 1;
  }

  lemma Later(t: TagSeen, tags: seq<TagSeen>, n: nat, depth: nat, d: nat) returns (n': nat)
    requires depth > 0 && d == depth + t.weight && d > 0
    ensures n' == n + 1
    ensures BalancesAt(tags, n, d) ==> BalancesAt([t] + tags, n', depth) && n < |tags| && ([t] + tags)[n'] == tags[n]
    ensures NeverBalances(tags, d) ==> NeverBalances([t] + tags, depth)
  {
    n' := n + 1;
    BalanceShift(t, tags, n, depth, d);
    forall m: int ensures BalancesAt([t] + tags, m, depth) ==> BalancesAt(tags, m - 1, d) {
      BalanceShift(t, tags, m - 1, depth, d);
    }
  }

  /** Blocks are disjoint and increasing, and each is a start tag with its matching end tag. */
  lemma {:induction false} BlocksInOrder(text: string, tag: string, i: nat)
    ensures Ordered(text, tag, i, Blocks(text, tag, i))
    decreases |text| - i
  {
    hide FindStart, FindEnd, IsBlock;
    if i < |text| && FindStart(text, tag, i).Tag? {
      var st := FindStart(text, tag, i);
      var en := FindEnd(text, tag, st.end + 1, 1);
      if en.Tag? {
        BlocksInOrder(text, tag, en.end + 1);
        FirstBlock(text, tag, i);
        OrderedCons(text, tag, i, Blocks(text, tag, i)[0], Blocks(text, tag, en.end + 1));
      }
    }
  }

  ghost predicate Ordered(text: string, tag: string, i: nat, bs: seq<Block>) {
    && (forall k :: 0 <= k < |bs| ==> i <= bs[k].start < bs[k].end <= |text| && IsBlock(text, tag, bs[k]))
    && (forall j, k :: 0 <= j < k < |bs| ==> bs[j].end <= bs[k].start)
  }

  lemma OrderedCons(text: string, tag: string, i: nat, b: Block, rest: seq<Block>)
    requires i <= b.start < b.end <= |text| && IsBlock(text, tag, b) && Ordered(text, tag, b.end, rest)
    ensures Ordered(text, tag, i, [b] + rest)
  {
    hide IsBlock;
  }

  /** A block starts with a visible start tag that ends at `e`, and ends with the n-th tag after
      it, the first that balances it. */
  predicate BlockAt(text: string, tag: string, b: Block, e: nat, n: nat) {
    && b.start + |tag| + 1 <= e < |text|
    && Look(text, tag, b.start).Opens? && TagEnd(text, b.start + |tag| + 1, '\0') == e
    && b.attrs == text[b.start + |tag| + 1..e]
    && var tags := TagsFrom(text, tag, e + 1);
       && BalancesAt(tags, n, 1)
       && e + 1 <= tags[n].start < |text| && b.body == text[e + 1..tags[n].start] && b.end == tags[n].end + 1
  }

  ghost predicate IsBlock(text: string, tag: string, b: Block) {
    exists e, n :: BlockAt(text, tag, b, e, n)
  }

  lemma {:induction false} FirstBlock(text: string, tag: string, i: nat)
    requires i < |text| && FindStart(text, tag, i).Tag?
    requires FindEnd(text, tag, FindStart(text, tag, i).end + 1, 1).Tag?
    ensures Blocks(text, tag, i) != [] && IsBlock(text, tag, Blocks(text, tag, i)[0])
  {
    hide FindEnd, BalancesAt, TagsFrom, FindStart, Look;
    var st := FindStart(text, tag, i);
    StartIsVisible(text, tag, i);
    var n := EndIsFirstBalance(text, tag, st.end + 1, 1);
    var b := Blocks(text, tag, i)[0];
    assert BlockAt(text, tag, b, st.end, n);
  }

  lemma {:induction false} StartIsVisible(text: string, tag: string, i: nat)
    requires FindStart(text, tag, i).Tag?
    ensures var st := FindStart(text, tag, i);
      Look(text, tag, st.start).Opens? && TagEnd(text, st.start + |tag| + 1, '\0') == st.end
    decreases |text| - i
  {
    hide Look, TagEnd;
    match Look(text, tag, i)
    case Stuck =>
    case Hidden(next) => StartIsVisible(text, tag, next);
    case Opens =>
    case _ => StartIsVisible(text, tag, i + 1);
  }

  /** From `i` the scanner reaches `j` without passing an opener of this name. */
  predicate OpenerFree(text: string, tag: string, i: nat, j: nat)
    decreases j - i
  {
    i == j ||
    (i < j <= |text| &&
     match Look(text, tag, i)
     case Hidden(next) => next <= j && OpenerFree(text, tag, next, j)
     case Closes => OpenerFree(text, tag, i + 1, j)
     case Plain => OpenerFree(text, tag, i + 1, j)
     case _ => false)
  }

  /** A search returns an opener exactly when it can reach one that ends, and then the first. */
  lemma {:induction false} StartIsFirst(text: string, tag: string, i: nat, j: nat)
    requires OpenerFree(text, tag, i, j) && j < |text| && Look(text, tag, j).Opens?
    ensures var e := TagEnd(text, j + |tag| + 1, '\0');
      FindStart(text, tag, i) == if e < 0 then Missing else Tag(j, e)
    decreases j - i
  {
    hide Look, TagEnd;
    if i < j {
      match Look(text, tag, i)
      case Hidden(next) => StartIsFirst(text, tag, next, j);
      case Closes => StartIsFirst(text, tag, i + 1, j);
      case Plain => StartIsFirst(text, tag, i + 1, j);
      case _ =>
    }
  }
}
