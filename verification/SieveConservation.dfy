/** What the sieve keeps over whole runs, for every chunking, every parser and with code fences:
    no text is lost or invented, and exactly which recognised calls are delivered. */
module SieveConservation {
  import opened Text
  import opened SieveModel

  /** A stretch of the input: released as text, or removed as a recognised block together with the
      code fence wrapped around it. */
  datatype Piece = Kept(text: string) | Cut(open: string, block: string, close: string)

  function Whole(ps: seq<Piece>): string {
    if ps == [] then ""
    else (match ps[0] case Kept(t) => t case Cut(o, b, c) => o + b + c) + Whole(ps[1..])
  }

  function Keeps(ps: seq<Piece>): string {
    if ps == [] then "" else (if ps[0].Kept? then ps[0].text else "") + Keeps(ps[1..])
  }

  /** The calls a parser finds in a raw block; a bare invoke is given its missing opener. */
  function CallsIn(p: Parser, block: string): seq<ToolCall> {
    if At(block, 0, WRAPPER) then p.Recognise(block)
    else if |block| < |WRAPPER_CLOSE| then []
    else p.Recognise("<tool_calls>" + block[..|block| - |WRAPPER_CLOSE|] + "</tool_calls>")
  }

  function CutCalls(p: Parser, ps: seq<Piece>): seq<seq<ToolCall>> {
    if ps == [] then []
    else (if ps[0].Cut? then [CallsIn(p, ps[0].block)] else []) + CutCalls(p, ps[1..])
  }

  predicate OpeningFence(s: string) {
    At(s, 0, TICKS) && JsonHeader(TrimSpace(s[3..]))
  }

  predicate ClosingFence(s: string) {
    At(s, |s| - 3, TICKS) && All(s[..|s| - 3], LINE_SPACES)
  }

  /** Only a closed tool block that the parser recognises may be removed, and around it only a
      complete fence. */
  predicate Legit(p: Parser, piece: Piece) {
    piece.Cut? ==>
      && (At(piece.block, 0, WRAPPER) || At(piece.block, 0, INVOKE))
      && At(piece.block, |piece.block| - |WRAPPER_CLOSE|, WRAPPER_CLOSE)
      && CallsIn(p, piece.block) != []
      && ((piece.open == "" && piece.close == "") || (OpeningFence(piece.open) && ClosingFence(piece.close)))
  }

  predicate AllLegit(p: Parser, ps: seq<Piece>) {
    forall i :: 0 <= i < |ps| ==> Legit(p, ps[i])
  }

  lemma {:induction false} WholeAppend(a: seq<Piece>, b: seq<Piece>)
    ensures Whole(a + b) == Whole(a) + Whole(b)
  {
    if a == [] {
      assert a + b == b;
    } else {
      assert (a + b)[1..] == a[1..] + b;
      WholeAppend(a[1..], b);
    }
  }

  lemma {:induction false} KeepsAppend(a: seq<Piece>, b: seq<Piece>)
    ensures Keeps(a + b) == Keeps(a) + Keeps(b)
  {
    if a == [] {
      assert a + b == b;
    } else {
      assert (a + b)[1..] == a[1..] + b;
      KeepsAppend(a[1..], b);
    }
  }

  lemma {:induction false} CutCallsAppend(p: Parser, a: seq<Piece>, b: seq<Piece>)
    ensures CutCalls(p, a + b) == CutCalls(p, a) + CutCalls(p, b)
  {
    hide CallsIn;
    if a == [] {
      assert a + b == b;
    } else {
      assert (a + b)[1..] == a[1..] + b;
      CutCallsAppend(p, a[1..], b);
    }
  }

  lemma PiecesAppend(p: Parser, a: seq<Piece>, b: seq<Piece>)
    ensures Whole(a + b) == Whole(a) + Whole(b)
    ensures Keeps(a + b) == Keeps(a) + Keeps(b)
    ensures CutCalls(p, a + b) == CutCalls(p, a) + CutCalls(p, b)
    ensures AllLegit(p, a) && AllLegit(p, b) ==> AllLegit(p, a + b)
  {
    hide Whole, Keeps, CutCalls, Legit;
    WholeAppend(a, b);
    KeepsAppend(a, b);
    CutCallsAppend(p, a, b);
  }

  lemma {:induction false} TrimRightAppend(s: string, ws: string, cut: string)
    requires All(ws, cut)
    ensures TrimRight(s + ws, cut) == TrimRight(s, cut)
  {
    if ws == "" {
      assert s + ws == s;
    } else {
      assert (s + ws)[..|s + ws| - 1] == s + ws[..|ws| - 1];
      TrimRightAppend(s, ws[..|ws| - 1], cut);
    }
  }

  lemma {:induction false} TrimSpaceAppend(s: string, ws: string)
    requires All(ws, LINE_SPACES)
    ensures TrimSpace(s + ws) == TrimSpace(s)
  {
    assert forall i :: 0 <= i < |ws| ==> ws[i] in SPACES;
    if s == "" {
      assert s + ws == ws;
      TrimLeftSplit(ws, SPACES);
      TrimRightAppend("", TrimLeft(ws, SPACES), SPACES);
      assert "" + TrimLeft(ws, SPACES) == TrimLeft(ws, SPACES);
    } else if s[0] in SPACES {
      assert (s + ws)[1..] == s[1..] + ws;
      TrimSpaceAppend(s[1..], ws);
    } else {
      TrimRightAppend(s, ws, SPACES);
    }
  }

  lemma OpenSplits(before: string) returns (open: string)
    ensures var t := TrimRight(before, LINE_SPACES); var k := LastIndexOf(t, TICKS);
      k >= 0 ==> before == t[..k] + open && (JsonHeader(TrimSpace(t[k + 3..])) ==> OpeningFence(open))
  {
    hide JsonHeader, TrimSpace;
    var t := TrimRight(before, LINE_SPACES);
    var k := LastIndexOf(t, TICKS);
    TrimRightSplit(before, LINE_SPACES);
    open := "";
    if k >= 0 {
      open := before[k..];
      AtSlice(before, 0, |t|, TICKS, k);
      AtSlice(before, k, |before|, TICKS, k);
      assert before[0..|t|] == t;
      assert open[3..] == t[k + 3..] + before[|t|..];
      TrimSpaceAppend(t[k + 3..], before[|t|..]);
    }
  }

  lemma CloseSplits(after: string) returns (close: string)
    ensures var u := TrimLeft(after, LINE_SPACES);
      At(u, 0, TICKS) ==> after == close + u[3..] && ClosingFence(close)
  {
    var u := TrimLeft(after, LINE_SPACES);
    TrimLeftSplit(after, LINE_SPACES);
    close := "";
    if At(u, 0, TICKS) {
      var n := |after| - |u|;
      close := after[..n + 3];
      AtSlice(after, n, |after|, TICKS, n);
      AtSlice(after, 0, n + 3, TICKS, n);
      assert close == after[0..n + 3] && close[..|close| - 3] == after[..n];
    }
  }

  /** Trimming a wrapping fence removes a complete fence or nothing. */
  lemma TrimFenceSplits(before: string, after: string) returns (open: string, close: string)
    ensures before == TrimFence(before, after).0 + open
    ensures after == close + TrimFence(before, after).1
    ensures (open == "" && close == "") || (OpeningFence(open) && ClosingFence(close))
  {
    hide OpeningFence, ClosingFence, JsonHeader, CountTicks, TrimSpace, At;
    open := OpenSplits(before);
    close := CloseSplits(after);
    if TrimFence(before, after) == (before, after) {
      open, close := "", "";
    }
  }

  lemma SettleSplits(p: Parser, before: string, block: string, raw: string, after: string) returns (ps: seq<Piece>)
    requires At(raw, 0, WRAPPER) || At(raw, 0, INVOKE)
    requires At(raw, |raw| - |WRAPPER_CLOSE|, WRAPPER_CLOSE)
    requires CallsIn(p, raw) == p.Recognise(block)
    ensures var r := Settle(p, before, block, raw, after);
      Whole(ps) + r.suffix == before + raw + after && Keeps(ps) == r.prefix && AllLegit(p, ps)
      && CutCalls(p, ps) == if r.calls == [] then [] else [r.calls]
  {
    hide At, CallsIn, TrimFence, OpeningFence, ClosingFence, Parser.Recognise;
    if p.Recognise(block) != [] {
      var open, close := TrimFenceSplits(before, after);
      var (a, b) := TrimFence(before, after);
      ps := [Kept(a), Cut(open, raw, close)];
      var cut := ps[1..];
      assert cut == [Cut(open, raw, close)] && cut[1..] == [];
      assert Whole(cut) == open + raw + close;
      assert a + (open + raw + close) + b == (a + open) + raw + (close + b);
      assert Keeps(cut) == "" && CutCalls(p, cut) == [CallsIn(p, raw)];
      assert CutCalls(p, ps) == CutCalls(p, cut);
      assert Legit(p, ps[0]) && Legit(p, ps[1]);
    } else {
      ps := [Kept(before + raw)];
      assert ps[1..] == [];
      assert Settle(p, before, block, raw, after) == Ready(before + raw, [], after);
    }
  }

  lemma {:induction false} ConsumeSplits(p: Parser, u: string) returns (ps: seq<Piece>)
    requires Consume(p, u).Ready?
    ensures var r := Consume(p, u);
      Whole(ps) + r.suffix == u && Keeps(ps) == r.prefix && AllLegit(p, ps)
      && CutCalls(p, ps) == if r.calls == [] then [] else [r.calls]
  {
    hide Settle, At, IndexFrom, FindVisible, Parser.Recognise, AllLegit, Whole, Keeps, CutCalls;
    var o := IndexFrom(u, WRAPPER, 0);
    if o >= 0 {
      var c := FindVisible(u, WRAPPER_CLOSE, o + |WRAPPER|);
      var e := c + |WRAPPER_CLOSE|;
      AtInside(u, c, WRAPPER_CLOSE);
      AtSlice(u, o, e, WRAPPER, o);
      AtSlice(u, o, e, WRAPPER_CLOSE, c);
      ps := SettleSplits(p, u[..o], u[o..e], u[o..e], u[e..]);
      assert u == u[..o] + u[o..e] + u[e..];
    } else {
      var v := IndexFrom(u, INVOKE, 0);
      var c := FindVisible(u, WRAPPER_CLOSE, v);
      var e := c + |WRAPPER_CLOSE|;
      AtInside(u, c, WRAPPER_CLOSE);
      var raw := u[v..e];
      InvokeBeforeClose(u, v, c);
      AtSlice(u, v, e, INVOKE, v);
      AtSlice(u, v, e, WRAPPER_CLOSE, c);
      InvokeIsNoWrapper(raw);
      assert raw[..|raw| - |WRAPPER_CLOSE|] == u[v..c];
      ps := SettleSplits(p, u[..v], "<tool_calls>" + u[v..c] + "</tool_calls>", raw, u[e..]);
      assert u == u[..v] + u[v..e] + u[e..];
    }
  }

  lemma InvokeIsNoWrapper(s: string)
    requires At(s, 0, INVOKE)
    ensures !At(s, 0, WRAPPER)
  {
    AtChar(s, 0, INVOKE, 1);
    if At(s, 0, WRAPPER) {
      AtChar(s, 0, WRAPPER, 1);
    }
  }

  lemma InvokeBeforeClose(u: string, v: int, c: int)
    requires At(u, v, INVOKE) && At(u, c, WRAPPER_CLOSE) && c > v
    ensures v + |INVOKE| <= c
  {
    AtChar(u, c, WRAPPER_CLOSE, 0);
    if c < v + |INVOKE| {
      AtChar(u, v, INVOKE, c - v);
    }
  }

  function Buffered(st: State): string {
    st.capture + st.pending
  }

  predicate Tidy(st: State) {
    !st.capturing ==> st.capture == ""
  }

  /** The calls of the blocks that one chunk completes, in order. */
  function Recognised(p: Parser, st: State): seq<seq<ToolCall>>
    decreases |st.pending| + |st.capture|, !st.capturing
  {
    if st.capturing then
      match Consume(p, st.capture + st.pending)
      case NotReady => []
      case Ready(prefix, calls, suffix) =>
        (if calls != [] then [calls] else [])
        + Recognised(p, State(suffix, "", false, Note(st.fence, prefix), if calls != [] then calls else st.waiting))
    else if st.pending == "" then []
    else
      var k := SegmentStart(st.fence, st.pending, 0);
      if k >= 0 then
        Recognised(p, State("", st.capture + st.pending[k..], true, Note(st.fence, st.pending[..k]), st.waiting))
      else
        var n := SafeLength(st.fence, st.pending);
        if n == 0 then []
        else Recognised(p, st.(pending := st.pending[n..], fence := Note(st.fence, st.pending[..n])))
  }

  /** One drain splits what was buffered into released text, removed blocks and what stays buffered. */
  lemma {:induction false} DrainConserves(p: Parser, st: State) returns (ps: seq<Piece>)
    requires Tidy(st)
    ensures Tidy(Drain(p, st).0)
    ensures Whole(ps) + Buffered(Drain(p, st).0) == Buffered(st)
    ensures Keeps(ps) == TextOf(Drain(p, st).1)
    ensures AllLegit(p, ps)
    ensures CutCalls(p, ps) == Recognised(p, st)
    decreases |st.pending| + |st.capture|, !st.capturing, 0
  {
    hide Consume, Note, SegmentStart, SafeLength, AllLegit, Whole, Keeps, CutCalls;
    if st.capturing {
      var u := st.capture + st.pending;
      var r := Consume(p, u);
      if r.Ready? {
        var first := ConsumeSplits(p, u);
        var next := State(r.suffix, "", false, Note(st.fence, r.prefix), if r.calls != [] then r.calls else st.waiting);
        var rest := DrainConserves(p, next);
        ps := Joined(p, u, r, first, next, rest);
        assert Tidy(Drain(p, st).0) && Buffered(st) == u;
      } else {
        ps := Nothing(p, u);
        assert Buffered(Drain(p, st).0) == u + "" == u;
      }
    } else {
      var k := SegmentStart(st.fence, st.pending, 0);
      var n := SafeLength(st.fence, st.pending);
      if st.pending == "" || (k < 0 && n == 0) {
        ps := Nothing(p, Buffered(st));
      } else if k >= 0 {
        var next := State("", st.capture + st.pending[k..], true, Note(st.fence, st.pending[..k]), st.waiting);
        ps := Released(p, st, st.pending[..k], next);
      } else {
        var next := st.(pending := st.pending[n..], fence := Note(st.fence, st.pending[..n]));
        ps := Released(p, st, st.pending[..n], next);
      }
    }
  }

  lemma Nothing(p: Parser, buffered: string) returns (ps: seq<Piece>)
    ensures Whole(ps) + buffered == buffered && Keeps(ps) == TextOf([]) && AllLegit(p, ps) && CutCalls(p, ps) == []
  {
    ps := [];
  }

  /** The pieces of a complete block, then those of the rest. */
  lemma {:induction false} Joined(p: Parser, u: string, r: Consumed, first: seq<Piece>, next: State, rest: seq<Piece>)
    returns (ps: seq<Piece>)
    requires r.Ready? && Whole(first) + r.suffix == u && Keeps(first) == r.prefix && AllLegit(p, first)
    requires CutCalls(p, first) == if r.calls == [] then [] else [r.calls]
    requires Buffered(next) == r.suffix && Whole(rest) + Buffered(Drain(p, next).0) == Buffered(next)
    requires Keeps(rest) == TextOf(Drain(p, next).1) && AllLegit(p, rest) && CutCalls(p, rest) == Recognised(p, next)
    ensures Whole(ps) + Buffered(Drain(p, next).0) == u
    ensures Keeps(ps) == TextOf(Text1(r.prefix) + Drain(p, next).1)
    ensures AllLegit(p, ps)
    ensures CutCalls(p, ps) == (if r.calls != [] then [r.calls] else []) + Recognised(p, next)
  {
    hide Drain, Recognised, AllLegit, Whole, Keeps, CutCalls;
    ps := first + rest;
    PiecesAppend(p, first, rest);
    TextOfAppend(Text1(r.prefix), Drain(p, next).1);
  }

  lemma KeptIsLegit(p: Parser, text: string)
    ensures AllLegit(p, [Kept(text)])
  {
  }

  lemma {:induction false} Released(p: Parser, st: State, text: string, next: State) returns (ps: seq<Piece>)
    requires Tidy(next) && text + Buffered(next) == Buffered(st)
    requires |next.pending| + |next.capture| < |st.pending| + |st.capture|
      || (|next.pending| + |next.capture| == |st.pending| + |st.capture| && next.capturing && !st.capturing)
    ensures Tidy(Drain(p, next).0)
    ensures Whole(ps) + Buffered(Drain(p, next).0) == Buffered(st)
    ensures Keeps(ps) == TextOf(Text1(text) + Drain(p, next).1)
    ensures AllLegit(p, ps)
    ensures CutCalls(p, ps) == Recognised(p, next)
    decreases |next.pending| + |next.capture|, !next.capturing, 1
  {
    hide Drain, Recognised, Tidy, AllLegit, Legit;
    var rest := DrainConserves(p, next);
    ps := [Kept(text)] + rest;
    assert AllLegit(p, [Kept(text)]) by { KeptIsLegit(p, text); }
    PiecesAppend(p, [Kept(text)], rest);
    TextOfAppend(Text1(text), Drain(p, next).1);
    assert [Kept(text)][1..] == [];
  }
}
