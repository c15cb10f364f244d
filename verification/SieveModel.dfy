/** What the streaming tool sieve computes (internal/toolstream), as functions of its state:
    the whole-state meaning of one chunk, of a run of chunks, and of the final flush. */
module SieveModel {
  import opened Text
  import opened CodeFence

  datatype ToolCall = ToolCall(name: string, input: string)

  /** The two block parsers the sieve calls, as arbitrary pure functions. */
  datatype Parser = Parser(direct: string -> seq<ToolCall>, repair: string -> seq<ToolCall>) {
    function Recognise(block: string): seq<ToolCall> {
      if direct(block) != [] then direct(block) else repair(block)
    }
  }

  datatype Event = Content(text: string) | Calls(calls: seq<ToolCall>)

  datatype State = State(pending: string, capture: string, capturing: bool, fence: Fence, waiting: seq<ToolCall>)

  const START := State("", "", false, INITIAL, [])

  const WRAPPER := "<tool_calls"
  const WRAPPER_CLOSE := "</tool_calls>"
  const INVOKE := "<invoke"
  const TICKS := "```"
  const LINE_SPACES := " \t\r\n"

  predicate WrapperAt(s: string, i: int) {
    At(s, i, WRAPPER) && i + |WRAPPER| < |s| && s[i + |WRAPPER|] in ">\n "
  }

  predicate InvokeAt(s: string, i: int) {
    At(s, i, INVOKE) && i + |INVOKE| < |s| && s[i + |INVOKE|] in " \n\t\r"
  }

  predicate TagAt(s: string, i: int) {
    WrapperAt(s, i) || InvokeAt(s, i)
  }

  predicate Inside(f: Fence, s: string) {
    Feed(f, s).stack != []
  }

  /** The first tool tag at or after `i` that is not inside a code fence, or -1. */
  function SegmentStart(f: Fence, s: string, i: nat): (r: int)
    ensures r == -1 || (i <= r < |s| && TagAt(s, r) && !Inside(f, s[..r]))
    decreases |s| - i
  {
    if i >= |s| then -1
    else if TagAt(s, i) && !Inside(f, s[..i]) then i
    else SegmentStart(f, s, i + 1)
  }

  /** No tag outside a code fence comes before the one that is found, or at all if none is. */
  lemma {:induction false} SegmentStartIsFirst(f: Fence, s: string, i: nat)
    ensures var r := SegmentStart(f, s, i);
      forall j :: i <= j < |s| && (r < 0 || j < r) ==> !(TagAt(s, j) && !Inside(f, s[..j]))
    decreases |s| - i
  {
    hide TagAt, Inside;
    if i < |s| && !(TagAt(s, i) && !Inside(f, s[..i])) {
      SegmentStartIsFirst(f, s, i + 1);
    }
  }

  function LastIndexOf(s: string, p: string): (r: int)
    ensures r == -1 || At(s, r, p)
    ensures forall j :: r < j ==> !At(s, j, p)
  {
    LastIndexUpTo(s, p, |s|)
  }

  function LastIndexUpTo(s: string, p: string, i: nat): (r: int)
    ensures r == -1 || (r <= i && At(s, r, p))
    ensures forall j :: r < j <= i ==> !At(s, j, p)
  {
    if At(s, i, p) then i else if i == 0 then -1 else LastIndexUpTo(s, p, i - 1)
  }

  /** Where a text ends in the beginning of a tool tag, or -1. */
  function PartialTag(s: string): (r: int)
    ensures -1 <= r < |s|
  {
    var k := LastIndexOf(s, "<");
    if k < 0 then -1
    else if '>' in s[k..] then -1
    else if |s| - k <= |WRAPPER| && At(s, k, WRAPPER[..|s| - k]) then k
    else if |s| - k <= |INVOKE| && At(s, k, INVOKE[..|s| - k]) then k
    else -1
  }

  /** How much of tag-free pending text may be released now. */
  function SafeLength(f: Fence, s: string): (n: nat)
    ensures n <= |s|
  {
    var k := PartialTag(s);
    if k < 0 || Inside(f, s[..k]) then |s| else k
  }

  function Note(f: Fence, s: string): Fence {
    if TrimSpace(s) == "" then f else Feed(f, s)
  }

  function CountTicks(s: string, i: nat): nat
    decreases |s| - i
  {
    var k := IndexFrom(s, TICKS, i);
    if k < 0 then 0 else 1 + CountTicks(s, k + 3)
  }

  predicate JsonHeader(h: string) {
    h == "" || (|h| == 4 && At(h, 0, "json"))
  }

  /** Drops an opening fence at the end of `before` together with its closing fence at the start
      of `after`. */
  function TrimFence(before: string, after: string): (r: (string, string))
    ensures |r.1| <= |after|
  {
    var t := TrimRight(before, LINE_SPACES);
    var k := LastIndexOf(t, TICKS);
    if k < 0 || CountTicks(t[..k + 3], 0) % 2 == 0 then (before, after)
    else if !JsonHeader(TrimSpace(t[k + 3..])) then (before, after)
    else
      var u := TrimLeft(after, LINE_SPACES);
      if !At(u, 0, TICKS) then (before, after)
      else
        TrimLeftSplit(after, LINE_SPACES);
        (t[..k], u[3..])
  }

  datatype Consumed = NotReady | Ready(prefix: string, calls: seq<ToolCall>, suffix: string)

  function Settle(p: Parser, before: string, block: string, raw: string, after: string): (r: Consumed)
    ensures r.Ready? && |r.suffix| <= |after|
  {
    var calls := p.Recognise(block);
    if calls != [] then
      var (a, b) := TrimFence(before, after);
      Ready(a, calls, b)
    else Ready(before + raw, [], after)
  }

  /** The first complete block of captured text: a wrapper with its close tag outside CDATA and
      comments, or a bare invoke that such a close tag ends. */
  function Consume(p: Parser, u: string): (r: Consumed)
    ensures r.Ready? ==> |r.suffix| < |u|
  {
    var o := IndexFrom(u, WRAPPER, 0);
    if o >= 0 then
      var c := FindVisible(u, WRAPPER_CLOSE, o + |WRAPPER|);
      if c < 0 then NotReady
      else
        var e := c + |WRAPPER_CLOSE|;
        Settle(p, u[..o], u[o..e], u[o..e], u[e..])
    else
      var v := IndexFrom(u, INVOKE, 0);
      var c := FindVisible(u, WRAPPER_CLOSE, if v < 0 then 0 else v);
      if v >= 0 && c > v then
        var e := c + |WRAPPER_CLOSE|;
        Settle(p, u[..v], "<tool_calls>" + u[v..c] + "</tool_calls>", u[v..e], u[e..])
      else NotReady
  }

  function Text1(s: string): seq<Event> {
    if s == "" then [] else [Content(s)]
  }

  /** The loop of `ProcessChunk`: everything that can be decided about the buffered text. */
  function Drain(p: Parser, st: State): (State, seq<Event>)
    decreases |st.pending| + |st.capture|, !st.capturing
  {
    if st.capturing then
      var u := st.capture + st.pending;
      match Consume(p, u)
      case NotReady => (st.(capture := u, pending := ""), [])
      case Ready(prefix, calls, suffix) =>
        var (st', es) := Drain(p, State(suffix, "", false, Note(st.fence, prefix),
                                        if calls != [] then calls else st.waiting));
        (st', Text1(prefix) + es)
    else if st.pending == "" then (st, [])
    else
      var k := SegmentStart(st.fence, st.pending, 0);
      if k >= 0 then
        var captured := State("", st.capture + st.pending[k..], true, Note(st.fence, st.pending[..k]), st.waiting);
        var (st', es) := Drain(p, captured);
        (st', Text1(st.pending[..k]) + es)
      else
        var n := SafeLength(st.fence, st.pending);
        if n == 0 then (st, [])
        else
          var (st', es) := Drain(p, st.(pending := st.pending[n..], fence := Note(st.fence, st.pending[..n])));
          (st', Text1(st.pending[..n]) + es)
  }

  function Delivered(calls: seq<ToolCall>): seq<Event> {
    if calls == [] then [] else [Calls(calls)]
  }

  function Process(p: Parser, st: State, chunk: string): (State, seq<Event>) {
    var (st', es) := Drain(p, st.(pending := st.pending + chunk, waiting := []));
    (st', Delivered(st.waiting) + es)
  }

  /** The end of the stream: what `Flush` emits after it has processed an empty chunk. */
  function Release(p: Parser, st: State): seq<Event> {
    Delivered(st.waiting)
    + (if st.capturing then
         match Consume(p, st.capture)
         case NotReady => Text1(st.capture)
         case Ready(prefix, calls, suffix) => Text1(prefix) + Delivered(calls) + Text1(suffix)
       else [])
    + Text1(st.pending)
  }

  function Flush(p: Parser, st: State): seq<Event> {
    var (st', es) := Process(p, st, "");
    es + Release(p, st')
  }

  function Run(p: Parser, st: State, chunks: seq<string>): (State, seq<Event>)
    decreases chunks
  {
    if chunks == [] then (st, [])
    else
      var (st1, es1) := Process(p, st, chunks[0]);
      var (st2, es2) := Run(p, st1, chunks[1..]);
      (st2, es1 + es2)
  }

  /** Everything a stream emits, for the chunks it arrives in. */
  function Stream(p: Parser, chunks: seq<string>): seq<Event> {
    var (st, es) := Run(p, START, chunks);
    es + Flush(p, st)
  }

  function TextOf(es: seq<Event>): string {
    if es == [] then ""
    else (if es[0].Content? then es[0].text else "") + TextOf(es[1..])
  }

  function Concat(chunks: seq<string>): string {
    if chunks == [] then "" else chunks[0] + Concat(chunks[1..])
  }

  lemma {:induction false} TextOfAppend(a: seq<Event>, b: seq<Event>)
    ensures TextOf(a + b) == TextOf(a) + TextOf(b)
  {
    if a == [] {
      assert a + b == b;
    } else {
      assert (a + b)[1..] == a[1..] + b;
      TextOfAppend(a[1..], b);
    }
  }
}
