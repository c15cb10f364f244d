/** What a run accumulates from its pieces, and the block structure of a finished message. */
module ClaudeContent {
  import opened ClaudeStream
  import opened ClaudeTrace

  // Accumulation.

  function Absorbed(existing: string, pieces: seq<string>): string
    decreases |pieces|
  {
    if pieces == [] then existing else Absorbed(existing + Trimmed(existing, pieces[0]), pieces[1..])
  }

  /** Whether a part is put out: thinking if it was asked for, text unless it is a citation that a
      search found, and nothing that the cleaning leaves empty. */
  predicate Reaches(c: Config, p: Part) {
    var cleaned := c.clean(p.text);
    && |cleaned| > 0
    && (if p.thinking then c.thinkingEnabled else !c.searchEnabled || !c.citation(cleaned))
  }

  /** The cleaned thinking, or text, among these parts. */
  function Pieces(c: Config, thinking: bool, ps: seq<Part>): seq<string> {
    if ps == [] then []
    else
      (if Reaches(c, ps[0]) && ps[0].thinking == thinking then [c.clean(ps[0].text)] else [])
      + Pieces(c, thinking, ps[1..])
  }

  /** The pieces of a run up to the input that ends it. */
  function Arriving(c: Config, thinking: bool, inputs: seq<Input>): seq<string> {
    if inputs == [] then []
    else match inputs[0]
      case Arrives(line) =>
        if line.parsed && (line.errorMessage != "" || line.stop) then []
        else (if line.parsed then Pieces(c, thinking, line.parts) else []) + Arriving(c, thinking, inputs[1..])
      case Tick => Arriving(c, thinking, inputs[1..])
      case _ => []
  }

  lemma {:induction false} AbsorbedJoin(existing: string, a: seq<string>, b: seq<string>)
    ensures Absorbed(existing, a + b) == Absorbed(Absorbed(existing, a), b)
    decreases |a|
  {
    if a == [] {
      assert a + b == b;
    } else {
      assert (a + b)[1..] == a[1..] + b;
      AbsorbedJoin(existing + Trimmed(existing, a[0]), a[1..], b);
    }
  }

  lemma TakeAccumulates(c: Config, s: State, p: Part)
    ensures var s' := TakePart(c, s, p);
      && s'.text == Absorbed(s.text, Pieces(c, false, [p]))
      && s'.thinking == Absorbed(s.thinking, Pieces(c, true, [p]))
  {
    hide Trimmed;
    assert [p][1..] == [];
    var piece := c.clean(p.text);
    OneAbsorbed(s.text, piece);
    OneAbsorbed(s.thinking, piece);
  }

  lemma OneAbsorbed(existing: string, piece: string)
    ensures Absorbed(existing, [piece]) == existing + Trimmed(existing, piece)
    ensures Absorbed(existing, []) == existing
  {
    assert [piece][1..] == [];
  }

  lemma {:induction false} PartsAccumulate(c: Config, s: State, ps: seq<Part>)
    ensures var s' := TakeParts(c, s, ps);
      && s'.text == Absorbed(s.text, Pieces(c, false, ps))
      && s'.thinking == Absorbed(s.thinking, Pieces(c, true, ps))
    decreases |ps|
  {
    hide TakePart, Reaches, Trimmed;
    if ps != [] {
      TakeAccumulates(c, s, ps[0]);
      PartsAccumulate(c, TakePart(c, s, ps[0]), ps[1..]);
      SplitPieces(c, false, ps);
      SplitPieces(c, true, ps);
      AbsorbedJoin(s.text, Pieces(c, false, [ps[0]]), Pieces(c, false, ps[1..]));
      AbsorbedJoin(s.thinking, Pieces(c, true, [ps[0]]), Pieces(c, true, ps[1..]));
    }
  }

  /** A line tells that something arrived exactly if it holds a part with content: thinking counts
      even where it is not passed on, and a citation that is dropped does not. */
  lemma ContentSeenIff(c: Config, s: State, l: Line)
    ensures OnParsed(c, s, l).1.contentSeen <==>
      && l.parsed && l.errorMessage == "" && !l.stop
      && exists i :: 0 <= i < |l.parts| && c.clean(l.parts[i].text) != ""
           && (l.parts[i].thinking || Reaches(c, l.parts[i]))
  {
    hide TakeParts;
    forall i | 0 <= i < |l.parts|
      ensures Seen(c, l.parts[i]) <==>
        c.clean(l.parts[i].text) != "" && (l.parts[i].thinking || Reaches(c, l.parts[i]))
    {
    }
  }

  lemma SplitPieces(c: Config, thinking: bool, ps: seq<Part>)
    requires ps != []
    ensures Pieces(c, thinking, ps) == Pieces(c, thinking, [ps[0]]) + Pieces(c, thinking, ps[1..])
  {
    hide Reaches;
    assert [ps[0]][1..] == [];
  }

  lemma FinalizeKeepsContent(c: Config, s: State, reason: string)
    ensures Finalize(c, s, reason).text == s.text && Finalize(c, s, reason).thinking == s.thinking
  {
    hide Detected;
  }

  /** The text of a run is what its text pieces add up to, and its thinking what its thinking
      pieces add up to: how they interleave, and how they are grouped into lines, is invisible. */
  lemma {:induction false} RunAccumulates(c: Config, s: State, inputs: seq<Input>)
    ensures var f := Run(c, s, inputs).0;
      && f.text == Absorbed(s.text, Arriving(c, false, inputs))
      && f.thinking == Absorbed(s.thinking, Arriving(c, true, inputs))
    decreases |inputs|
  {
    hide Finalize, TakeParts, Reported, Pieces, Absorbed;
    OneAbsorbed(s.text, "");
    OneAbsorbed(s.thinking, "");
    if inputs != [] {
      match inputs[0]
      case Arrives(line) =>
        var (s', d) := OnParsed(c, s, line);
        if d.stop {
          FinalizeKeepsContent(c, s', "end_turn");
        } else {
          RunAccumulates(c, s', inputs[1..]);
          var ps := if line.parsed then line.parts else [];
          PartsAccumulate(c, s, ps);
          NoPieces(c);
          AbsorbedJoin(s.text, Pieces(c, false, ps), Arriving(c, false, inputs[1..]));
          AbsorbedJoin(s.thinking, Pieces(c, true, ps), Arriving(c, true, inputs[1..]));
        }
      case Tick =>
        RunAccumulates(c, Send(s, Ping), inputs[1..]);
      case Timeout =>
        FinalizeKeepsContent(c, s, "end_turn");
      case Cancelled =>
      case BodyEnds(err) =>
        FinalizeKeepsContent(c, s, "end_turn");
    }
  }

  lemma NoPieces(c: Config)
    ensures Pieces(c, false, []) == [] && Pieces(c, true, []) == []
    ensures forall s :: TakeParts(c, s, []) == s
  {
  }

  /** Pieces long enough for snapshots, of one and the same text. */
  predicate SnapshotsOf(full: string, pieces: seq<string>) {
    forall i :: 0 <= i < |pieces| ==> pieces[i] <= full && |pieces[i]| >= 32
  }

  /** The length of the longest of these, and of what is there already. */
  function Furthest(from: nat, pieces: seq<string>): nat
    decreases |pieces|
  {
    if pieces == [] then from else Furthest(if |pieces[0]| > from then |pieces[0]| else from, pieces[1..])
  }

  /** Snapshots of one text, in whatever order they come and however often they are resent, leave
      the longest of them. */
  lemma {:induction false} SnapshotsLeaveLongest(full: string, existing: string, pieces: seq<string>)
    requires existing <= full && SnapshotsOf(full, pieces)
    ensures Furthest(|existing|, pieces) <= |full|
    ensures Absorbed(existing, pieces) == full[..Furthest(|existing|, pieces)]
    decreases |pieces|
  {
    if pieces != [] {
      assert pieces[0] <= full;
      assert existing + Trimmed(existing, pieces[0]) == if |pieces[0]| > |existing| then pieces[0] else existing;
      SnapshotsLeaveLongest(full, existing + Trimmed(existing, pieces[0]), pieces[1..]);
    }
  }

  lemma {:induction false} NoneIsFurther(from: nat, pieces: seq<string>)
    requires forall i :: 0 <= i < |pieces| ==> |pieces[i]| <= from
    ensures Furthest(from, pieces) == from
  {
    if pieces != [] {
      NoneIsFurther(from, pieces[1..]);
    }
  }

  /** Snapshots resent after any run add nothing to it, and one that goes further makes the text
      be the snapshot. */
  lemma ResentAddsNothing(before: seq<string>, resent: seq<string>, snapshot: string)
    requires SnapshotsOf(Absorbed("", before), resent)
    requires |snapshot| >= 32 && Absorbed("", before) <= snapshot
    ensures Absorbed("", before + resent) == Absorbed("", before)
    ensures Absorbed("", before + resent + [snapshot]) == snapshot
  {
    hide Absorbed, Furthest;
    var full := Absorbed("", before);
    AbsorbedJoin("", before, resent);
    SnapshotsLeaveLongest(full, full, resent);
    NoneIsFurther(|full|, resent);
    AbsorbedJoin("", before + resent, [snapshot]);
    OneAbsorbed(full, snapshot);
  }

  /** A run whose text pieces are snapshots of one text ends with the longest of them. */
  lemma RunOfSnapshots(c: Config, inputs: seq<Input>, full: string)
    requires SnapshotsOf(full, Arriving(c, false, inputs))
    ensures var pieces := Arriving(c, false, inputs);
      && Furthest(0, pieces) <= |full|
      && Run(c, INITIAL, inputs).0.text == full[..Furthest(0, pieces)]
  {
    hide Absorbed, Furthest, Arriving, Run;
    RunAccumulates(c, INITIAL, inputs);
    SnapshotsLeaveLongest(full, "", Arriving(c, false, inputs));
  }

  /** A piece is appended whole exactly unless it is long and agrees with what is there from the
      start on: an increment that repeats the beginning is taken for a snapshot. */
  lemma AppendedWholeIff(existing: string, incoming: string)
    ensures existing + Trimmed(existing, incoming) == existing + incoming
       <==> || incoming == "" || existing == "" || |incoming| < 32
            || !(existing <= incoming || incoming <= existing)
  {
    var t := Trimmed(existing, incoming);
    if t != incoming {
      assert |t| < |incoming|;
    }
  }

  // Structure.

  datatype Block = Block(kind: BlockKind, deltas: seq<string>)

  function DeltaOf(kind: BlockKind, index: int, content: string): Event {
    match kind
    case Thinking => ThinkingDelta(index, content)
    case Text => TextDelta(index, content)
    case ToolUse(_) => InputDelta(index, content)
  }

  function Deltas(kind: BlockKind, index: int, contents: seq<string>): seq<Event> {
    seq(|contents|, i requires 0 <= i < |contents| => DeltaOf(kind, index, contents[i]))
  }

  /** The events of blocks numbered one after the other. */
  function Written(blocks: seq<Block>): seq<Event> {
    if blocks == [] then []
    else
      var n := |blocks| - 1;
      Written(blocks[..n]) + [Start(n, blocks[n].kind)] + Deltas(blocks[n].kind, n, blocks[n].deltas) + [Stop(n)]
  }

  function NoPings(es: seq<Event>): seq<Event> {
    if es == [] then []
    else
      var n := |es| - 1;
      NoPings(es[..n]) + if es[n].Ping? then [] else [es[n]]
  }

  /** The events read so far, told as blocks and the beginning of an open one. */
  ghost predicate Told(p: Place, es: seq<Event>, blocks: seq<Block>, open: seq<string>) {
    match p
    case Before => es == [] && blocks == []
    case Between(n) => n == |blocks| && es == [MessageStart] + Written(blocks)
    case Inside(i, k, n) =>
      i == |blocks| && n == i + 1 && es == [MessageStart] + Written(blocks) + [Start(i, k)] + Deltas(k, i, open)
    case Closing => exists d :: IsMessageDelta(d) && es == [MessageStart] + Written(blocks) + [d]
    case Done => exists d :: IsMessageDelta(d) && es == [MessageStart] + Written(blocks) + [d, MessageStop]
    case _ => true
  }

  predicate IsMessageDelta(e: Event) {
    e.MessageDelta?
  }

  /** Every trace the grammar accepts is a row of blocks. */
  lemma {:induction false} AcceptedIsBlocks(es: seq<Event>) returns (blocks: seq<Block>, open: seq<string>)
    ensures Told(ReadAll(Before, es), NoPings(es), blocks, open)
    decreases |es|
  {
    hide Written, Deltas, Read;
    blocks, open := [], [];
    if es != [] {
      var n := |es| - 1;
      var e := es[n];
      var was := es[..n];
      assert es == was + [e];
      ReadOne(Before, was, e);
      blocks, open := AcceptedIsBlocks(was);
      blocks, open := OneMore(ReadAll(Before, was), NoPings(was), blocks, open, e);
    }
  }

  lemma OneMore(p: Place, es: seq<Event>, blocks: seq<Block>, open: seq<string>, e: Event)
    returns (blocks': seq<Block>, open': seq<string>)
    requires Told(p, es, blocks, open)
    ensures Told(Read(p, e), es + (if e.Ping? then [] else [e]), blocks', open')
  {
    hide Written, Deltas;
    blocks', open' := blocks, open;
    match e
    case MessageStart =>
      NothingWritten();
    case Start(i, k) =>
      open' := [];
      NoDeltas(k, i);
    case ThinkingDelta(i, t) =>
      if Read(p, e).Inside? {
        open' := open + [t];
        OneDelta(p.kind, i, open, t);
      }
    case TextDelta(i, t) =>
      if Read(p, e).Inside? {
        open' := open + [t];
        OneDelta(p.kind, i, open, t);
      }
    case InputDelta(i, t) =>
      if Read(p, e).Inside? {
        open' := open + [t];
        OneDelta(p.kind, i, open, t);
      }
    case Stop(i) =>
      if Read(p, e).Between? {
        blocks' := blocks + [Block(p.kind, open)];
        OneBlock(blocks, Block(p.kind, open));
      }
    case MessageDelta(_, _) =>
      assert IsMessageDelta(e);
    case MessageStop =>
      if p.Closing? {
        var d :| IsMessageDelta(d) && es == [MessageStart] + Written(blocks) + [d];
        assert es + [e] == [MessageStart] + Written(blocks) + [d, MessageStop];
      }
    case Failure(_) =>
    case Ping =>
      assert es + [] == es;
  }

  lemma NothingWritten()
    ensures Written([]) == []
  {
  }

  lemma NoDeltas(k: BlockKind, i: int)
    ensures Deltas(k, i, []) == []
  {
  }

  lemma OneDelta(k: BlockKind, i: int, contents: seq<string>, t: string)
    ensures Deltas(k, i, contents + [t]) == Deltas(k, i, contents) + [DeltaOf(k, i, t)]
  {
  }

  lemma OneBlock(blocks: seq<Block>, b: Block)
    ensures Written(blocks + [b])
         == Written(blocks) + [Start(|blocks|, b.kind)] + Deltas(b.kind, |blocks|, b.deltas) + [Stop(|blocks|)]
  {
    assert (blocks + [b])[..|blocks|] == blocks;
  }

  /** A run that finishes has sent, pings aside: the start, blocks numbered 0, 1, 2, ..., each
      started, filled and stopped, the final delta and the stop. */
  lemma FinishedIsMessage(c: Config, inputs: seq<Input>) returns (blocks: seq<Block>, d: Event)
    requires Run(c, INITIAL, inputs).1 == Finished
    ensures d.MessageDelta?
    ensures NoPings(Run(c, INITIAL, inputs).0.sent) == [MessageStart] + Written(blocks) + [d, MessageStop]
  {
    hide Run, Written, NoPings, ReadAll;
    InitialIsSound(c);
    EveryRunIsWellFormed(c, INITIAL, inputs);
    var es := Run(c, INITIAL, inputs).0.sent;
    var open;
    blocks, open := AcceptedIsBlocks(es);
    d :| IsMessageDelta(d) && NoPings(es) == [MessageStart] + Written(blocks) + [d, MessageStop];
  }
}
