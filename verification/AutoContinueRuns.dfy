/** Whole runs of the auto-continue pump: which rounds it opens, and what it passes on. */
module AutoContinueRuns {
  import opened Options
  import opened Text
  import opened AutoContinue

  // One body.

  /** The lines of a body that go downstream. */
  function Forwarded(lines: seq<Line>): seq<string> {
    if lines == [] then []
    else
      (if KindOf(lines[0].text).Blank? || KindOf(lines[0].text).Done? then [] else [lines[0].text])
      + Forwarded(lines[1..])
  }

  predicate HasDone(lines: seq<Line>) {
    exists i :: 0 <= i < |lines| && KindOf(lines[i].text).Done?
  }

  /** The memory after all lines. */
  function After(d: Decoder, lines: seq<Line>, s: Status): Status {
    if lines == [] then s else After(d, lines[1..], SeeLine(d, s, lines[0].text))
  }

  /** An end mark is a data line of blanks and `[DONE]`, and nothing else is one. */
  lemma {:induction false} DoneIff(text: string)
    ensures KindOf(text).Done? <==> exists a, b, c :: EndMark(text, a, b, c)
  {
    hide TrimSpace;
    var t := TrimSpace(text);
    if KindOf(text).Done? {
      var a, c := Around(text);
      var rest := t[5..];
      var b, d := Around(rest);
      assert t == "data:" + rest;
      assert text == a + "data:" + b + "[DONE]" + (d + c);
      BlankJoin(d, c);
      assert EndMark(text, a, b, d + c);
    }
    if a, b, c :| EndMark(text, a, b, c) {
      var x := "data:" + b + "[DONE]";
      assert text == a + x + c;
      assert x[0] == 'd' && x[|x| - 1] == ']';
      TrimPadded(a, x, c);
      assert x[5..] == b + "[DONE]" + "";
      TrimPadded(b, "[DONE]", "");
    }
  }

  predicate EndMark(text: string, a: string, b: string, c: string) {
    text == a + "data:" + b + "[DONE]" + c && All(a, SPACES) && All(b, SPACES) && All(c, SPACES)
  }

  lemma BlankJoin(a: string, b: string)
    requires All(a, SPACES) && All(b, SPACES)
    ensures All(a + b, SPACES)
  {
  }

  predicate Undisturbed(b: Body) {
    !b.readError && forall i :: 0 <= i < |b.lines| ==>
      !b.lines[i].cancelled && (b.lines[i].broken ==> KindOf(b.lines[i].text).Blank? || KindOf(b.lines[i].text).Done?)
  }

  /** A body is passed on completely unless something disturbs it, and then a first part of it. */
  lemma {:induction false} PassForwards(d: Decoder, lines: seq<Line>, readError: bool, s: Status, hadDone: bool)
    ensures var p := Pass(d, lines, readError, s, hadDone);
      && (p.failed <==> !Undisturbed(Body(lines, readError)))
      && (p.failed ==> p.out <= Forwarded(lines))
      && (!p.failed ==>
            p.out == Forwarded(lines) && p.status == After(d, lines, s) && p.hadDone == (hadDone || HasDone(lines)))
    decreases |lines|
  {
    hide KindOf, See, Pass, Undisturbed;
    if lines == [] {
      PassEnd(d, lines, readError, s, hadDone);
      EmptyBody(readError);
    } else {
      var l := lines[0];
      var kind := KindOf(l.text);
      PassStep(d, lines, readError, s, hadDone);
      FirstLine(lines, readError);
      PassForwards(d, lines[1..], readError, SeeLine(d, s, l.text), hadDone || kind.Done?);
    }
  }

  lemma EmptyBody(readError: bool)
    ensures Undisturbed(Body([], readError)) == !readError
  {
  }

  lemma FirstLine(lines: seq<Line>, readError: bool)
    requires lines != []
    ensures var l := lines[0];
      && Undisturbed(Body(lines, readError)) ==
           (&& !l.cancelled && (l.broken ==> KindOf(l.text).Blank? || KindOf(l.text).Done?)
            && Undisturbed(Body(lines[1..], readError)))
      && HasDone(lines) == (KindOf(l.text).Done? || HasDone(lines[1..]))
  {
    hide KindOf;
    assert forall i :: 0 < i < |lines| ==> lines[i] == lines[1..][i - 1];
    assert forall i :: 0 <= i < |lines[1..]| ==> lines[1..][i] == lines[i + 1];
  }

  // What the upstream said.

  /** The states a chunk reports, in order. */
  function Said(c: Chunk): seq<string> {
    (if c.path == "response/status" && c.value.Words? then Spoken(c.value.text) else [])
    + (if c.value.Fields? && c.value.response.Some? then
         Spoken(c.value.response.value.status) + (if c.value.response.value.autoContinue then ["AUTO_CONTINUE"] else [])
       else [])
    + (if c.message.Some? then Spoken(c.message.value.status) else [])
  }

  function Spoken(status: string): seq<string> {
    if status == "" then [] else [TrimSpace(status)]
  }

  function Ids(c: Chunk): seq<int> {
    Positive(c.responseMessageId)
    + (if c.value.Fields? && c.value.response.Some? then Positive(c.value.response.value.messageId) else [])
    + (if c.message.Some? then Positive(c.message.value.messageId) else [])
  }

  function Positive(id: int): seq<int> {
    if id > 0 then [id] else []
  }

  function ChunksIn(d: Decoder, lines: seq<Line>): seq<Chunk> {
    if lines == [] then []
    else
      var kind := KindOf(lines[0].text);
      (if kind.Data? && kind.data != "" && d(kind.data).Some? then [d(kind.data).value] else [])
      + ChunksIn(d, lines[1..])
  }

  function AllSaid(cs: seq<Chunk>): seq<string> {
    if cs == [] then [] else Said(cs[0]) + AllSaid(cs[1..])
  }

  function AllIds(cs: seq<Chunk>): seq<int> {
    if cs == [] then [] else Ids(cs[0]) + AllIds(cs[1..])
  }

  predicate Finished(said: seq<string>) {
    exists i :: 0 <= i < |said| && SameWord(said[i], "finished")
  }

  /** The memory after hearing states and identifiers: the last of each counts. */
  function Hear(s: Status, said: seq<string>, ids: seq<int>): Status {
    Status(s.session,
           if ids == [] then s.id else ids[|ids| - 1],
           if said == [] then s.last else said[|said| - 1],
           s.finished || Finished(said))
  }

  lemma FinishedJoin(a: seq<string>, b: seq<string>)
    ensures Finished(a + b) == (Finished(a) || Finished(b))
  {
    hide SameWord;
    if Finished(a) {
      var i :| 0 <= i < |a| && SameWord(a[i], "finished");
      assert (a + b)[i] == a[i];
    }
    if Finished(b) {
      var i :| 0 <= i < |b| && SameWord(b[i], "finished");
      assert (a + b)[|a| + i] == b[i];
    }
  }

  lemma HearJoin(s: Status, said: seq<string>, ids: seq<int>, said': seq<string>, ids': seq<int>)
    ensures Hear(Hear(s, said, ids), said', ids') == Hear(s, said + said', ids + ids')
  {
    hide Finished;
    FinishedJoin(said, said');
  }

  lemma HearsResponse(s: Status, id: int, status: string)
    ensures SeeStatus(SeeId(s, id), status) == Hear(s, Spoken(status), Positive(id))
  {
    hide TrimSpace, SameWord;
    if status != "" {
      assert Spoken(status)[0] == TrimSpace(status);
    }
  }

  lemma HearsAutoContinue(s: Status)
    ensures Hear(s, ["AUTO_CONTINUE"], []) == s.(last := "AUTO_CONTINUE")
  {
  }

  /** One chunk is heard as the list of states and identifiers in it. */
  lemma SeeHears(s: Status, c: Chunk)
    ensures See(s, c) == Hear(s, Said(c), Ids(c))
  {
    hide Hear, SeeStatus, SeeId, Spoken, Positive;
    HearsNothing(s);
    var s1 := SeeId(s, c.responseMessageId);
    var ids1 := Positive(c.responseMessageId);
    HearsResponse(s, c.responseMessageId, "");
    SpokenEmpty(s1);
    assert s1 == Hear(s, [], ids1);
    var said2 := if c.path == "response/status" && c.value.Words? then Spoken(c.value.text) else [];
    var s2 := if c.path == "response/status" && c.value.Words? then SeeStatus(s1, c.value.text) else s1;
    assert s2 == Hear(s, said2, ids1) by {
      if c.path == "response/status" && c.value.Words? {
        HearsResponse(s1, 0, c.value.text);
        SpokenEmpty(s1);
        HearJoin(s, [], ids1, said2, []);
        assert [] + said2 == said2 && ids1 + [] == ids1;
      }
    }
    var said3, ids3, s3 := said2, ids1, s2;
    if c.value.Fields? && c.value.response.Some? {
      var r := c.value.response.value;
      HearsResponse(s2, r.messageId, r.status);
      HearJoin(s, said2, ids1, Spoken(r.status), Positive(r.messageId));
      said3, ids3 := said2 + Spoken(r.status), ids1 + Positive(r.messageId);
      s3 := SeeStatus(SeeId(s2, r.messageId), r.status);
      if r.autoContinue {
        HearsAutoContinue(s3);
        HearJoin(s, said3, ids3, ["AUTO_CONTINUE"], []);
        assert ids3 + [] == ids3;
        s3 := s3.(last := "AUTO_CONTINUE");
        said3 := said3 + ["AUTO_CONTINUE"];
      }
    }
    assert s3 == Hear(s, said3, ids3);
    if c.message.Some? {
      var r := c.message.value;
      HearsResponse(s3, r.messageId, r.status);
      HearJoin(s, said3, ids3, Spoken(r.status), Positive(r.messageId));
      assert Said(c) == said3 + Spoken(r.status) && Ids(c) == ids3 + Positive(r.messageId);
    } else {
      assert Said(c) == said3 && Ids(c) == ids3;
    }
  }

  lemma HearsNothing(s: Status)
    ensures Hear(s, [], []) == s
  {
  }

  lemma SpokenEmpty(s: Status)
    ensures Spoken("") == [] && Positive(0) == [] && SeeStatus(s, "") == s && SeeId(s, 0) == s
  {
  }

  /** After a body, the memory is what was heard in it. */
  lemma {:induction false} AfterHears(d: Decoder, lines: seq<Line>, s: Status)
    ensures var cs := ChunksIn(d, lines); After(d, lines, s) == Hear(s, AllSaid(cs), AllIds(cs))
    decreases |lines|
  {
    hide KindOf, See, Hear, Said, Ids;
    if lines == [] {
      HearsNothing(s);
    } else {
      var kind := KindOf(lines[0].text);
      var rest := ChunksIn(d, lines[1..]);
      AfterHears(d, lines[1..], SeeLine(d, s, lines[0].text));
      if kind.Data? && kind.data != "" && d(kind.data).Some? {
        var c := d(kind.data).value;
        SeeHears(s, c);
        HearJoin(s, Said(c), Ids(c), AllSaid(rest), AllIds(rest));
        assert ([c] + rest)[1..] == rest;
      } else {
        assert [] + rest == rest;
      }
    }
  }

  // Runs.

  /** A round: the body read and the memory before it. */
  datatype Round = Round(body: Body, before: Status)

  function Passing(d: Decoder, r: Round): Passed {
    Pass(d, r.body.lines, r.body.readError, r.before, false)
  }

  /** The rounds of a run from its n-th continuation on. */
  function Rounds(d: Decoder, up: Upstream, r: Round, n: nat, maxRounds: nat): seq<Round>
    decreases maxRounds - n
  {
    var p := Passing(d, r);
    if p.failed || !MayContinue(p.status) || n >= maxRounds then [r]
    else
      var next := up.open(n + 1, p.status.session, p.status.id);
      if next.None? then [r] else [r] + Rounds(d, up, Round(next.value, NextRound(p.status)), n + 1, maxRounds)
  }

  /** The lines passed on in these rounds, one round after the other. */
  function Spliced(rounds: seq<Round>): seq<string> {
    if rounds == [] then [] else Forwarded(rounds[0].body.lines) + Spliced(rounds[1..])
  }

  /** Why a round follows another one: the upstream ended it, undisturbed, in a state that asks
      for more, without saying that it is finished, and named a message. */
  ghost predicate Follows(d: Decoder, up: Upstream, prev: Round, next: Round, n: nat) {
    var cs := ChunksIn(d, prev.body.lines);
    var said := AllSaid(cs);
    var id := if AllIds(cs) == [] then prev.before.id else AllIds(cs)[|AllIds(cs)| - 1];
    && Undisturbed(prev.body) && id > 0 && TrimSpace(prev.before.session) != ""
    && !Finished(said) && said != [] && AsksForMore(said[|said| - 1])
    && up.open(n, prev.before.session, id) == Some(next.body)
    && next.before == Status(prev.before.session, id, "", false)
  }

  predicate AsksForMore(status: string) {
    var t := TrimSpace(status);
    SameWord(t, "wip") || SameWord(t, "incomplete") || SameWord(t, "auto_continue")
  }

  predicate Fresh(s: Status) {
    s.last == "" && !s.finished
  }

  lemma EmptyAsksForNothing()
    ensures !AsksForMore("")
  {
  }

  /** Whether a fresh round may be continued is read off its body. */
  lemma {:induction false} MayContinueIff(d: Decoder, r: Round)
    requires Fresh(r.before) && Undisturbed(r.body)
    ensures var cs := ChunksIn(d, r.body.lines);
      var said := AllSaid(cs);
      var id := if AllIds(cs) == [] then r.before.id else AllIds(cs)[|AllIds(cs)| - 1];
      && (MayContinue(Passing(d, r).status) <==>
            && id > 0 && TrimSpace(r.before.session) != ""
            && !Finished(said) && said != [] && AsksForMore(said[|said| - 1]))
      && NextRound(Passing(d, r).status) == Status(r.before.session, id, "", false)
      && Passing(d, r).status.id == id && Passing(d, r).status.session == r.before.session
  {
    hide Pass, After, TrimSpace, SameWord, Finished, Undisturbed, ChunksIn, AllSaid, AllIds;
    PassForwards(d, r.body.lines, r.body.readError, r.before, false);
    AfterHears(d, r.body.lines, r.before);
    assert r.body == Body(r.body.lines, r.body.readError);
    EmptyAsksForNothing();
  }

  /** Every continuation of a run has its reason, and there are at most as many as allowed. */
  lemma {:induction false} RoundsFollow(d: Decoder, up: Upstream, r: Round, n: nat, maxRounds: nat)
    requires Fresh(r.before) && n <= maxRounds
    ensures var rs := Rounds(d, up, r, n, maxRounds);
      && 1 <= |rs| <= maxRounds - n + 1 && rs[0] == r
      && (forall k :: 0 <= k < |rs| ==> Fresh(rs[k].before))
      && (forall k :: 0 < k < |rs| ==> Follows(d, up, rs[k - 1], rs[k], n + k))
    decreases maxRounds - n
  {
    hide Pass, MayContinue, Follows;
    var rs := Rounds(d, up, r, n, maxRounds);
    var p := Passing(d, r);
    if |rs| > 1 {
      var next := Round(up.open(n + 1, p.status.session, p.status.id).value, NextRound(p.status));
      RoundsFollow(d, up, next, n + 1, maxRounds);
      var rest := Rounds(d, up, next, n + 1, maxRounds);
      assert rs == [r] + rest;
      FollowsHere(d, up, r, next, n + 1);
      forall k | 0 < k < |rs| ensures Follows(d, up, rs[k - 1], rs[k], n + k) {
        if k > 1 {
          assert rs[k - 1] == rest[k - 2] && rs[k] == rest[k - 1];
          assert Follows(d, up, rest[k - 1 - 1], rest[k - 1], n + 1 + (k - 1));
        }
      }
    }
  }

  lemma FollowsHere(d: Decoder, up: Upstream, r: Round, next: Round, n: nat)
    requires Fresh(r.before)
    requires var p := Passing(d, r);
      && !p.failed && MayContinue(p.status)
      && up.open(n, p.status.session, p.status.id) == Some(next.body) && next.before == NextRound(p.status)
    ensures Follows(d, up, r, next, n)
  {
    hide Pass, MayContinue, AsksForMore, Finished, ChunksIn, AllSaid, AllIds, TrimSpace, Undisturbed;
    PassForwards(d, r.body.lines, r.body.readError, r.before, false);
    assert r.body == Body(r.body.lines, r.body.readError);
    MayContinueIff(d, r);
  }

  /** The pump passes on the lines of its rounds in order, blank lines and end marks left out,
      and one end mark at the end exactly if the last round had one and nothing failed; after a
      failure, a first part of that. */
  lemma {:induction false} PumpSplices(d: Decoder, up: Upstream, r: Round, n: nat, maxRounds: nat)
    requires n <= maxRounds
    ensures var rs := Rounds(d, up, r, n, maxRounds);
      var o := Pump(d, up, r.body, r.before, n, maxRounds);
      var last := rs[|rs| - 1];
      && |rs| > 0
      && (o.failed ==> o.out <= Spliced(rs))
      && (!o.failed ==> o.out == Spliced(rs) + if HasDone(last.body.lines) then [FINAL] else [])
      && (o.failed <==>
           || Passing(d, last).failed
           || (n + |rs| - 1 < maxRounds && MayContinue(Passing(d, last).status))
           || (HasDone(last.body.lines) && !up.closes))
    decreases maxRounds - n
  {
    hide Pass, MayContinue, Forwarded, HasDone, Undisturbed, NextRound, Pump, Spliced;
    var rs := Rounds(d, up, r, n, maxRounds);
    var p := Passing(d, r);
    SplicedFirst(rs);
    PumpStep(d, up, r.body, r.before, n, maxRounds);
    PassForwards(d, r.body.lines, r.body.readError, r.before, false);
    if |rs| > 1 {
      var next := Round(up.open(n + 1, p.status.session, p.status.id).value, NextRound(p.status));
      PumpSplices(d, up, next, n + 1, maxRounds);
      var rest := Rounds(d, up, next, n + 1, maxRounds);
      assert rs == [r] + rest && rs[1..] == rest && rs[|rs| - 1] == rest[|rest| - 1];
      PrefixAfter(p.out, Pump(d, up, next.body, next.before, n + 1, maxRounds).out, Spliced(rest));
    }
  }

  lemma SplicedFirst(rs: seq<Round>)
    requires rs != []
    ensures Spliced(rs) == Forwarded(rs[0].body.lines) + Spliced(rs[1..])
    ensures |rs| == 1 ==> Spliced(rs) == Forwarded(rs[0].body.lines)
  {
  }

  lemma PrefixAfter(a: seq<string>, b: seq<string>, c: seq<string>)
    ensures b <= c ==> a + b <= a + c
  {
  }

  /** No line passed on is an end mark. */
  lemma {:induction false} ForwardedHasNoDone(lines: seq<Line>)
    ensures forall i :: 0 <= i < |Forwarded(lines)| ==>
      !KindOf(Forwarded(lines)[i]).Done? && !KindOf(Forwarded(lines)[i]).Blank?
  {
    hide KindOf;
    if lines != [] {
      ForwardedHasNoDone(lines[1..]);
    }
  }

  lemma {:induction false} SplicedHasNoDone(rounds: seq<Round>)
    ensures forall i :: 0 <= i < |Spliced(rounds)| ==>
      !KindOf(Spliced(rounds)[i]).Done? && !KindOf(Spliced(rounds)[i]).Blank?
  {
    hide KindOf, Forwarded;
    if rounds != [] {
      ForwardedHasNoDone(rounds[0].body.lines);
      SplicedHasNoDone(rounds[1..]);
    }
  }

  lemma FinalIsEndMark()
    ensures KindOf(FINAL).Done?
  {
    hide TrimSpace, KindOf;
    assert FINAL == "" + "data:" + " " + "[DONE]" + "" && All("", SPACES) && All(" ", SPACES);
    assert EndMark(FINAL, "", " ", "");
    DoneIff(FINAL);
  }

  /** Downstream sees at most one end mark, at the very end of a run that did not fail: exactly if its
      last round had one. */
  lemma OneEndMark(d: Decoder, up: Upstream, r: Round, n: nat, maxRounds: nat)
    requires n <= maxRounds
    ensures var o := Pump(d, up, r.body, r.before, n, maxRounds);
      var rs := Rounds(d, up, r, n, maxRounds);
      && |rs| > 0
      && (forall i :: 0 <= i < |o.out| && KindOf(o.out[i]).Done? ==> i == |o.out| - 1)
      && (o.out != [] && KindOf(o.out[|o.out| - 1]).Done? <==> !o.failed && HasDone(rs[|rs| - 1].body.lines))
  {
    hide Pump, Pass, MayContinue, KindOf, Spliced, HasDone, Rounds;
    PumpSplices(d, up, r, n, maxRounds);
    SplicedHasNoDone(Rounds(d, up, r, n, maxRounds));
    FinalIsEndMark();
  }
}
