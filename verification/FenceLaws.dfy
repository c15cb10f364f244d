/** When a code fence is open: the tracker's meaning in terms of lines. */
module FenceLaws {
  import opened CodeFence

  function Ticks(n: nat): string {
    seq(n, i requires 0 <= i < n => '`')
  }

  /** Nothing but blanks stands between a line break, or the beginning, and this place. */
  predicate LineBegins(t: string, i: nat)
    requires i <= |t|
  {
    i == 0 || t[i - 1] in "\n\r" || (t[i - 1] in " \t" && LineBegins(t, i - 1))
  }

  /** No line of the text starts with three back-ticks. */
  predicate FenceFree(t: string) {
    forall i :: 0 <= i && i + 3 <= |t| && t[i] == '`' && t[i + 1] == '`' && t[i + 2] == '`' ==> !LineBegins(t, i)
  }

  predicate WholeLines(t: string) {
    t != "" && t[|t| - 1] in "\n\r"
  }

  function Trailing(t: string): (n: nat)
    ensures n <= |t| && (forall i :: |t| - n <= i < |t| ==> t[i] == '`')
    ensures n < |t| ==> t[|t| - n - 1] != '`'
  {
    if t != "" && t[|t| - 1] == '`' then 1 + Trailing(t[..|t| - 1]) else 0
  }

  lemma {:induction false} LineBeginsPrefix(t: string, n: nat, i: nat)
    requires i <= n <= |t|
    ensures LineBegins(t[..n], i) == LineBegins(t, i)
  {
    if i > 0 {
      LineBeginsPrefix(t, n, i - 1);
    }
  }

  lemma FenceFreePrefix(t: string, n: nat)
    requires FenceFree(t) && n <= |t|
    ensures FenceFree(t[..n])
  {
    forall i | 0 <= i && i + 3 <= n && t[..n][i] == '`' && t[..n][i + 1] == '`' && t[..n][i + 2] == '`'
      ensures !LineBegins(t[..n], i)
    {
      LineBeginsPrefix(t, n, i);
    }
  }

  /** Reading lines that start no fence leaves the open fences as they are. */
  lemma {:induction false} FreeKeeps(g: Fence, t: string)
    requires g.ticks == 0 && g.lineStart && FenceFree(t)
    ensures var f := Feed(g, t);
      && f.stack == g.stack && f.ticks == Trailing(t) && f.lineStart == LineBegins(t, |t| - Trailing(t))
  {
    hide ApplyMarker;
    if t != "" {
      var n := |t| - 1;
      FenceFreePrefix(t, n);
      FreeKeeps(g, t[..n]);
      var k := Trailing(t[..n]);
      LineBeginsPrefix(t, n, n - k);
      if t[n] == '`' {
        assert Trailing(t) == k + 1;
      } else {
        assert Trailing(t) == 0;
        if k >= 3 {
          assert t[n - k] == t[..n][n - k] && t[n - k + 1] == t[..n][n - k + 1] && t[n - k + 2] == t[..n][n - k + 2];
        }
        if k > 0 {
          assert t[n - 1] == t[..n][n - 1] == '`';
        }
      }
    }
  }

  /** In the middle of a line nothing is a fence. */
  lemma {:induction false} RestOfLine(g: Fence, t: string)
    requires g.ticks == 0 && !g.lineStart && '\n' !in t && '\r' !in t
    ensures var f := Feed(g, t); f.stack == g.stack && f.ticks == Trailing(t) && !f.lineStart
  {
    hide ApplyMarker;
    if t != "" {
      var n := |t| - 1;
      assert t[n] in t;
      RestOfLine(g, t[..n]);
    }
  }

  lemma {:induction false} IndentKeeps(g: Fence, w: string)
    requires g.ticks == 0 && forall i :: 0 <= i < |w| ==> w[i] in " \t"
    ensures Feed(g, w) == g
  {
    if w != "" {
      var n := |w| - 1;
      IndentKeeps(g, w[..n]);
      assert w[n] in " \t";
    }
  }

  lemma {:induction false} TicksCount(g: Fence, n: nat)
    ensures Feed(g, Ticks(n)) == g.(ticks := g.ticks + n)
  {
    if n > 0 {
      assert Ticks(n)[..n - 1] == Ticks(n - 1);
      TicksCount(g, n - 1);
    }
  }

  /** A line of `m` back-ticks behind an indentation, and text behind them. */
  function FenceLine(w: string, m: nat, info: string): string {
    w + Ticks(m) + info + "\n"
  }

  predicate Indent(w: string) {
    forall i :: 0 <= i < |w| ==> w[i] in " \t"
  }

  predicate Info(s: string) {
    (s == "" || s[0] != '`') && '\n' !in s && '\r' !in s
  }

  /** What such a line does: with no open fence it opens one; behind an open fence of `n` back-ticks it
      ends that one if it has at least as many, and opens one inside it otherwise. */
  lemma {:induction false} FenceLineIs(g: Fence, w: string, m: nat, info: string)
    requires g.ticks == 0 && g.lineStart && Indent(w) && Info(info) && m >= 3
    ensures var f := Feed(g, FenceLine(w, m, info));
      && f.ticks == 0 && f.lineStart
      && (g.stack == [] ==> f.stack == [m])
      && (g.stack != [] && m >= g.stack[|g.stack| - 1] ==> f.stack == g.stack[..|g.stack| - 1])
      && (g.stack != [] && m < g.stack[|g.stack| - 1] ==> f.stack == g.stack + [m])
  {
    hide Step, Feed;
    var x := w + Ticks(m);
    IndentKeeps(g, w);
    TicksCount(g, m);
    FeedSplit(g, w, Ticks(m));
    var h := Feed(g, x);
    if info == "" {
      FeedSplit(g, x, "\n");
      assert x + info + "\n" == x + "\n";
      EndOfTicks(h, '\n');
    } else {
      var c, rest := info[0], info[1..];
      assert info == [c] + rest && c in info;
      FeedSplit(g, x, info);
      FeedSplit(h, [c], rest);
      EndOfTicks(h, c);
      assert forall i :: 0 <= i < |rest| ==> rest[i] == info[i + 1];
      RestOfLine(Feed(h, [c]), rest);
      FeedSplit(g, x + info, "\n");
      EndOfLine(Feed(g, x + info));
    }
  }

  lemma EndOfTicks(h: Fence, c: char)
    requires h.lineStart && h.ticks >= 3 && c != '`'
    ensures var f := Feed(h, [c]);
      && f.ticks == 0 && f.lineStart == (c in "\n\r")
      && (h.stack == [] ==> f.stack == [h.ticks])
      && (h.stack != [] && h.ticks >= h.stack[|h.stack| - 1] ==> f.stack == h.stack[..|h.stack| - 1])
      && (h.stack != [] && h.ticks < h.stack[|h.stack| - 1] ==> f.stack == h.stack + [h.ticks])
  {
    assert [c][..0] == "" && Feed(h, "") == h;
  }

  lemma EndOfLine(h: Fence)
    requires !h.lineStart
    ensures Feed(h, "\n") == Fence(h.stack, 0, true)
  {
    assert "\n"[..0] == "" && Feed(h, "") == h;
  }

  /** A fence of `n` back-ticks with lines that start no fence, and a closing line of at least as many:
      afterwards the same fences are open as before. */
  lemma {:induction false} ClosedFence(g: Fence, w: string, n: nat, info: string, body: string,
                                       v: string, m: nat, rest: string)
    requires g.ticks == 0 && g.lineStart && (g.stack == [] || n < g.stack[|g.stack| - 1])
    requires Indent(w) && Info(info) && n >= 3 && Indent(v) && Info(rest) && m >= n
    requires FenceFree(body) && (body == "" || WholeLines(body))
    ensures Feed(g, FenceLine(w, n, info) + body + FenceLine(v, m, rest)) == g
    ensures forall j :: 0 <= j <= |body| ==>
      Feed(g, FenceLine(w, n, info) + body[..j]).stack == g.stack + [n]
  {
    hide Feed, FenceLine, FenceFree;
    var opener, closer := FenceLine(w, n, info), FenceLine(v, m, rest);
    FenceLineIs(g, w, n, info);
    var f := Feed(g, opener);
    forall j | 0 <= j <= |body| ensures Feed(g, opener + body[..j]).stack == g.stack + [n] {
      FeedSplit(g, opener, body[..j]);
      FenceFreePrefix(body, j);
      FreeKeeps(f, body[..j]);
    }
    FreeKeeps(f, body);
    assert body != "" ==> Trailing(body) == 0 && LineBegins(body, |body|);
    assert Feed(f, body) == f;
    FeedSplit(g, opener, body);
    FeedSplit(g, opener + body, closer);
    FenceLineIs(f, v, m, rest);
  }

  /** The very first line of a reply does not count as the start of a line: a fence there is not
      seen. */
  lemma FirstLineIsMissed(w: string, m: nat, info: string)
    requires Indent(w) && Info(info)
    ensures Feed(INITIAL, FenceLine(w, m, info)) == Fence([], 0, true)
  {
    hide Feed;
    var line := w + Ticks(m) + info;
    RestOfLine(INITIAL, line);
    FeedSplit(INITIAL, line, "\n");
    EndOfLine(Feed(INITIAL, line));
  }
}
