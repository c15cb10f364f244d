/** The Markdown code-fence tracker of the tool sieve (internal/toolstream/tool_sieve_state.go). */
module CodeFence {

  /** Open fences (their back-tick counts), back-ticks seen but not yet ended, and whether the
      next character starts a line. */
  datatype Fence = Fence(stack: seq<nat>, ticks: nat, lineStart: bool)

  /** The zero value a new sieve starts from: not at the start of a line. */
  const INITIAL := Fence([], 0, false)

  function ApplyMarker(stack: seq<nat>, ticks: nat): seq<nat> {
    if ticks == 0 then stack
    else if |stack| == 0 then [ticks]
    else if ticks >= stack[|stack| - 1] then stack[..|stack| - 1]
    else stack + [ticks]
  }

  function FlushTicks(f: Fence): Fence {
    if f.ticks == 0 then f
    else Fence(if f.lineStart && f.ticks >= 3 then ApplyMarker(f.stack, f.ticks) else f.stack, 0, false)
  }

  function Step(f: Fence, c: char): Fence {
    if c == '`' then f.(ticks := f.ticks + 1)
    else
      var g := FlushTicks(f);
      if c == '\n' || c == '\r' then g.(lineStart := true)
      else if (c == ' ' || c == '\t') && g.lineStart then g
      else g.(lineStart := false)
  }

  /** The tracker after reading `s`. */
  function Feed(f: Fence, s: string): Fence {
    if s == "" then f else Step(Feed(f, s[..|s| - 1]), s[|s| - 1])
  }

  /** Reading a text at once or in two parts leaves the same tracker. */
  lemma {:induction false} FeedSplit(f: Fence, s: string, t: string)
    ensures Feed(f, s + t) == Feed(Feed(f, s), t)
  {
    if t == "" {
      assert s + t == s;
    } else {
      assert (s + t)[..|s + t| - 1] == s + t[..|t| - 1];
      FeedSplit(f, s, t[..|t| - 1]);
    }
  }

  predicate NoTicks(s: string) {
    forall i :: 0 <= i < |s| ==> s[i] != '`'
  }

  /** No fence is open and none is half written. */
  predicate Open(f: Fence) {
    f.stack == [] && f.ticks == 0
  }

  lemma {:induction false} FeedNoTicks(f: Fence, s: string)
    requires Open(f) && NoTicks(s)
    ensures Open(Feed(f, s))
  {
    if s != "" {
      FeedNoTicks(f, s[..|s| - 1]);
    }
  }

  /** The byte loop of `simulateCodeFenceState`. */
  method Simulate(stack: seq<nat>, pendingTicks: nat, lineStart: bool, text: string)
    returns (nextStack: seq<nat>, ticks: nat, atLineStart: bool)
    ensures Fence(nextStack, ticks, atLineStart) == Feed(Fence(stack, pendingTicks, lineStart), text)
  {
    nextStack, ticks, atLineStart := stack, pendingTicks, lineStart;
    for i := 0 to |text|
      invariant Fence(nextStack, ticks, atLineStart) == Feed(Fence(stack, pendingTicks, lineStart), text[..i])
    {
      assert text[..i + 1][..i] == text[..i];
      var ch := text[i];
      if ch == '`' {
        ticks := ticks + 1;
        continue;
      }
      if ticks > 0 {
        if atLineStart && ticks >= 3 {
          nextStack := ApplyMarker(nextStack, ticks);
        }
        atLineStart := false;
        ticks := 0;
      }
      if ch == '\n' || ch == '\r' {
        atLineStart := true;
      } else if ch == ' ' || ch == '\t' {
        if atLineStart {
          continue;
        }
        atLineStart := false;
      } else {
        atLineStart := false;
      }
    }
    assert text[..|text|] == text;
  }
}
