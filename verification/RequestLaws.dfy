/** Why a request gets an account or none. */
module RequestLaws {
  import opened Options
  import opened Sets
  import opened PoolModel
  import opened PoolSafety
  import opened RequestModel

  /** A wait ends for the reason it gives, and no earlier look at the context says it is cancelled. */
  lemma {:induction false} WaitReasons(w: World, p: Pool, mine: multiset<string>, caller: nat, target: string,
                                       exclude: set<string>, queued: bool, k: nat, end: nat)
    ensures var (q, out, k') := Wait(w, p, mine, caller, target, exclude, queued, k, end);
      && (out.Got? ==> exists at :: Acquire(at, target, exclude) == (q, Some(out.id)))
      && (out.Refused? ==> Acquire(q, target, exclude) == (q, None) && !CanQueue(q, target, exclude))
      && (out.Cancelled? ==> k < k' && w.cancelled(k' - 1))
      && (out.Waiting? ==> k' >= end)
      && !out.Exhausted?
      && forall j :: k <= j < (if out.Cancelled? then k' - 1 else k') ==> !w.cancelled(j)
    decreases if k < end then end - k else 0
  {
    hide Acquire, CanQueue, AllMoved;
    if k < end && !w.cancelled(k) {
      var q := AllMoved(p, mine, w.moves(k));
      GotIsNew(q, target, exclude);
      if queued {
        WaitReasons(w, q, mine, caller, target, exclude, caller in q.waiters, k + 1, end);
      } else {
        var (a, got) := Acquire(q, target, exclude);
        if got.Some? {
          assert Acquire(q, target, exclude) == (a, Some(got.value));
        } else if CanQueue(q, target, exclude) {
          WaitReasons(w, Enqueue(q, caller), mine, caller, target, exclude, true, k + 1, end);
        }
      }
    }
  }

  function Ids(log: seq<(string, nat)>): set<string> {
    set e <- log :: e.0
  }

  /** Accounts acquired, none twice and none of those excluded, and no token could be had for them. */
  predicate AllUnusable(w: World, log: seq<(string, nat)>) {
    forall i :: 0 <= i < |log| ==> !w.usable(log[i].0, log[i].1)
  }

  predicate AllNew(p: Pool, tried: set<string>, log: seq<(string, nat)>) {
    && (forall i :: 0 <= i < |log| ==> log[i].0 in p.known && log[i].0 !in tried && log[i].0 != "")
    && (forall i, j :: 0 <= i < j < |log| ==> log[i].0 != log[j].0)
  }

  lemma OneMoreId(e: (string, nat), log: seq<(string, nat)>)
    ensures Ids([e] + log) == {e.0} + Ids(log)
  {
    assert ([e] + log)[0] == e;
    forall x | x in log ensures x in [e] + log {
    }
  }

  lemma OneMoreNew(w: World, p: Pool, tried: set<string>, e: (string, nat), log: seq<(string, nat)>)
    requires e.0 in p.known && e.0 !in tried && e.0 != "" && AllNew(p, tried + {e.0}, log)
    ensures AllNew(p, tried, [e] + log)
    ensures AllUnusable(w, [e] + log) <==> !w.usable(e.0, e.1) && AllUnusable(w, log)
  {
    var more := [e] + log;
    assert more[0] == e && forall i :: 0 <= i < |log| ==> more[i + 1] == log[i];
  }

  lemma OneIds(e: (string, nat))
    ensures Ids([e]) == {e.0} && [e] + [] == [e]
  {
  }

  /** What a search for an account says: those it tried are the ones acquired for which no token could
      be had; it ends with an account for which one can be had. */
  ghost predicate Tells(w: World, p: Pool, tried: set<string>, r: Result) {
    if r.out.Got? then
      && r.log != [] && r.log[|r.log| - 1].0 == r.out.id && w.usable(r.out.id, r.log[|r.log| - 1].1)
      && AllNew(p, tried, r.log) && AllUnusable(w, r.log[..|r.log| - 1])
      && r.tried == tried + Ids(r.log[..|r.log| - 1])
    else AllNew(p, tried, r.log) && AllUnusable(w, r.log) && r.tried == tried + Ids(r.log)
  }

  lemma TellsNothing(w: World, p: Pool, tried: set<string>, r: Result)
    requires !r.out.Got? && r.log == [] && r.tried == tried
    ensures Tells(w, p, tried, r)
  {
  }

  lemma TellsGot(w: World, p: Pool, tried: set<string>, r: Result, k: nat)
    requires r.out.Got? && r.log == [(r.out.id, k)] && r.tried == tried && w.usable(r.out.id, k)
    requires r.out.id in p.known && r.out.id !in tried && r.out.id != ""
    ensures Tells(w, p, tried, r)
  {
    assert r.log[..0] == [];
  }

  lemma AllNewPart(p: Pool, tried: set<string>, log: seq<(string, nat)>, n: nat)
    requires AllNew(p, tried, log) && n <= |log|
    ensures AllNew(p, tried, log[..n])
  {
  }

  lemma TellsMore(w: World, p: Pool, tried: set<string>, e: (string, nat), r: Result)
    requires e.0 in p.known && e.0 !in tried && e.0 != "" && !w.usable(e.0, e.1) && Tells(w, p, tried + {e.0}, r)
    ensures Tells(w, p, tried, r.(log := [e] + r.log))
  {
    hide AllNew, AllUnusable, Ids;
    var log := [e] + r.log;
    OneMoreNew(w, p, tried, e, r.log);
    if r.out.Got? {
      var n := |r.log| - 1;
      assert log[..|log| - 1] == [e] + r.log[..n];
      OneMoreId(e, r.log[..n]);
      AllNewPart(p, tried + {e.0}, r.log, n);
      OneMoreNew(w, p, tried, e, r.log[..n]);
    } else {
      OneMoreId(e, r.log);
    }
  }

  lemma TellsKnown(w: World, p: Pool, q: Pool, tried: set<string>, r: Result)
    requires Tells(w, q, tried, r) && q.known == p.known
    ensures Tells(w, p, tried, r)
  {
  }

  lemma OneTried(w: World, p: Pool, tried: set<string>, e: (string, nat), r: Result)
    requires e.0 in p.known && e.0 !in tried && e.0 != "" && !w.usable(e.0, e.1)
    requires !r.out.Got? && r.log == [e] && r.tried == tried + {e.0}
    ensures Tells(w, p, tried, r)
  {
    OneIds(e);
  }

  /** Why a request is left without an account: the pool as it leaves it has none for it and lets it
      wait no longer; all accounts, or the target, have been tried; or its context is cancelled. */
  ghost predicate Ends(w: World, n: nat, target: string, end: nat, r: Result) {
    match r.out
    case Got(id) => target != "" ==> id == target
    case Refused => Acquire(r.pool, target, r.tried) == (r.pool, None) && !CanQueue(r.pool, target, r.tried)
    case Exhausted => if target == "" then |r.tried| >= n else |r.log| == 1 && r.log[0].0 == target
    case Cancelled => 0 < r.clock && w.cancelled(r.clock - 1)
    case Waiting => r.clock >= end
  }

  lemma EndsNow(w: World, n: nat, target: string, end: nat, r: Result)
    requires r.out.Got? && target != "" ==> r.out.id == target
    requires r.out.Refused? ==> Acquire(r.pool, target, r.tried) == (r.pool, None) && !CanQueue(r.pool, target, r.tried)
    requires r.out.Exhausted? ==> if target == "" then |r.tried| >= n else |r.log| == 1 && r.log[0].0 == target
    requires r.out.Cancelled? ==> 0 < r.clock && w.cancelled(r.clock - 1)
    requires r.out.Waiting? ==> r.clock >= end
    ensures Ends(w, n, target, end, r)
  {
    hide Acquire, CanQueue;
  }

  lemma EndsLonger(w: World, n: nat, end: nat, e: (string, nat), r: Result)
    requires Ends(w, n, "", end, r)
    ensures Ends(w, n, "", end, r.(log := [e] + r.log))
  {
  }

  /** A request says what it tried, and ends for the reason it gives. */
  lemma {:induction false} ManageReasons(w: World, p: Pool, others: multiset<string>, caller: nat, n: nat,
                                         target: string, tried: set<string>, k: nat, end: nat)
    ensures var r := Manage(w, p, others, caller, n, target, tried, k, end);
      Tells(w, p, tried, r) && Ends(w, n, target, end, r) && (target != "" ==> |r.log| <= 1)
    decreases if k < end then end - k else 0
  {
    hide Acquire, CanQueue, AllMoved, Wait, Release, Tells, Ends;
    var r := Manage(w, p, others, caller, n, target, tried, k, end);
    if target == "" && |tried| >= n {
      TellsNothing(w, p, tried, r);
      assert Ends(w, n, target, end, r) by { EndsNow(w, n, target, end, r); }
    } else {
      var (q, out, k1) := Wait(w, p, others, caller, target, tried, false, k, end);
      WaitReasons(w, p, others, caller, target, tried, false, k, end);
      if !out.Got? {
        TellsNothing(w, p, tried, r);
        EndsNow(w, n, target, end, r);
      } else if w.usable(out.id, k1) {
        TellsGot(w, p, tried, r, k1);
        EndsNow(w, n, target, end, r);
      } else if target != "" {
        OneTried(w, p, tried, (out.id, k1), r);
        EndsNow(w, n, target, end, r);
      } else {
        var u := AllMoved(q, multiset{out.id} + others, w.moves(k1));
        var back := Release(u, out.id).0;
        ReleaseKeepsKnown(u, out.id);
        ManageReasons(w, back, others, caller, n, "", tried + {out.id}, k1 + 1, end);
        var more := Manage(w, back, others, caller, n, "", tried + {out.id}, k1 + 1, end);
        TellsKnown(w, p, back, tried + {out.id}, more);
        TellsMore(w, p, tried, (out.id, k1), more);
        EndsLonger(w, n, end, (out.id, k1), more);
      }
    }
  }

  /** A switch fails only if the pool as it leaves it has no account for it among those not tried. */
  lemma {:induction false} SwitchReasons(w: World, p: Pool, others: multiset<string>, tried: set<string>, k: nat)
    ensures var r := Switch(w, p, others, tried, k);
      && Tells(w, p, tried, r)
      && (r.out.Got? || (r.out.Refused? && Acquire(r.pool, "", r.tried) == (r.pool, None)))
    decreases p.known - tried
  {
    hide Acquire, AllMoved, Release, Tells;
    var r := Switch(w, p, others, tried, k);
    var q := AllMoved(p, others, w.moves(k));
    GotIsNew(q, "", tried);
    var (a, got) := Acquire(q, "", tried);
    if got.None? {
      TellsNothing(w, p, tried, r);
    } else {
      var id := got.value;
      var u := AllMoved(a, multiset{id} + others, w.moves(k + 1));
      if w.usable(id, k + 1) {
        TellsGot(w, p, tried, r, k + 1);
      } else {
        ReleaseKeepsKnown(u, id);
        var back := Release(u, id).0;
        assert id in p.known - tried;
        SwitchReasons(w, back, others, tried + {id}, k + 2);
        var more := Switch(w, back, others, tried + {id}, k + 2);
        TellsKnown(w, p, back, tried + {id}, more);
        TellsMore(w, p, tried, (id, k + 1), more);
      }
    }
  }

  // When nobody interferes.

  ghost predicate Quiet(w: World, usable: string -> bool) {
    forall k: nat, id: string :: w.moves(k) == [] && !w.cancelled(k) && w.usable(id, k) == usable(id)
  }

  lemma QuietHere(w: World, usable: string -> bool, p: Pool, mine: multiset<string>, k: nat)
    requires Quiet(w, usable)
    ensures AllMoved(p, mine, w.moves(k)) == p && !w.cancelled(k) && forall id :: w.usable(id, k) == usable(id)
  {
    assert w.usable("", k) == usable("");
  }

  /** There is an account the request may take and get a token for. */
  ghost predicate Findable(p: Pool, tried: set<string>, usable: string -> bool) {
    exists id :: id in p.queue && Eligible(p, tried, id) && usable(id)
  }

  /** An account taken and given back leaves the others as eligible as they were. */
  lemma TriedBack(p: Pool, tried: set<string>, id: string)
    requires Eligible(p, tried, id)
    ensures var back := Release(Take(p, id), id).0;
      forall x :: (x in back.queue <==> x in p.queue)
        && (Eligible(back, tried + {id}, x) <==> Eligible(p, tried, x) && x != id)
  {
    hide Bump, Sum;
    var taken := Take(p, id);
    var back := Release(taken, id).0;
    SumTake(p, id);
    SumRelease(taken, id);
    BumpPermutes(p.queue, id);
    forall x ensures x in back.queue <==> x in p.queue {
      assert x in multiset(Bump(p.queue, id)) <==> x in multiset(p.queue);
    }
    forall x ensures Count(back, x) == Count(p, x) {
    }
  }

  lemma FirstIsEligible(p: Pool, tried: set<string>)
    ensures var (a, got) := Acquire(p, "", tried);
      && (got.Some? ==> got.value in p.queue && Eligible(p, tried, got.value) && a == Take(p, got.value))
      && (got.None? ==> forall id :: id in p.queue ==> !Eligible(p, tried, id))
  {
    hide Take, Eligible;
  }

  lemma FindableLater(p: Pool, tried: set<string>, usable: string -> bool, id: string)
    requires id in p.queue && Eligible(p, tried, id)
    ensures Findable(p, tried, usable) <==>
      usable(id) || Findable(Release(Take(p, id), id).0, tried + {id}, usable)
  {
    hide Eligible, Take, Release;
    TriedBack(p, tried, id);
  }

  /** A switch finds an account exactly if there is one it has not tried and can get a token for. */
  lemma {:induction false} SwitchFindsIff(w: World, usable: string -> bool, p: Pool, others: multiset<string>,
                                          tried: set<string>, k: nat)
    requires Quiet(w, usable)
    ensures Switch(w, p, others, tried, k).out.Got? <==> Findable(p, tried, usable)
    decreases p.known - tried
  {
    hide Acquire, AllMoved, Release, Take, Eligible, Quiet;
    QuietHere(w, usable, p, others, k);
    GotIsNew(p, "", tried);
    FirstIsEligible(p, tried);
    var (a, got) := Acquire(p, "", tried);
    if got.Some? {
      var id := got.value;
      QuietHere(w, usable, a, multiset{id} + others, k + 1);
      FindableLater(p, tried, usable, id);
      if !usable(id) {
        ReleaseKeepsKnown(a, id);
        assert id in p.known - tried;
        SwitchFindsIff(w, usable, Release(a, id).0, others, tried + {id}, k + 2);
      }
    }
  }

  /** A caller that is queued stays queued if nobody moves. */
  lemma {:induction false} QuietWaits(w: World, usable: string -> bool, p: Pool, mine: multiset<string>, caller: nat,
                                      target: string, exclude: set<string>, k: nat, end: nat)
    requires Quiet(w, usable) && caller in p.waiters
    ensures Wait(w, p, mine, caller, target, exclude, true, k, end).1.Waiting?
    decreases if k < end then end - k else 0
  {
    hide Quiet, AllMoved;
    if k < end {
      QuietHere(w, usable, p, mine, k);
      QuietWaits(w, usable, p, mine, caller, target, exclude, k + 1, end);
    }
  }

  /** One attempt decides if nobody moves. */
  lemma {:induction false} QuietAttempt(w: World, usable: string -> bool, p: Pool, mine: multiset<string>, caller: nat,
                                        target: string, exclude: set<string>, k: nat, end: nat)
    requires Quiet(w, usable) && k < end
    ensures var (a, got) := Acquire(p, target, exclude);
      var r := Wait(w, p, mine, caller, target, exclude, false, k, end);
      if got.Some? then r == (a, Got(got.value), k + 1) else !r.1.Got?
  {
    hide Quiet, AllMoved, Acquire, CanQueue;
    QuietHere(w, usable, p, mine, k);
    if Acquire(p, target, exclude).1.None? && CanQueue(p, target, exclude) {
      assert caller in Enqueue(p, caller).waiters by { assert (p.waiters + [caller])[|p.waiters|] == caller; }
      QuietWaits(w, usable, Enqueue(p, caller), mine, caller, target, exclude, k + 1, end);
    }
  }

  /** A request without a target gets an account exactly if there is one it can get a token for; `end`
      leaves it the time to ask for all of them. */
  lemma {:induction false} ManageFindsIff(w: World, usable: string -> bool, p: Pool, others: multiset<string>,
                                          caller: nat, n: nat, tried: set<string>, k: nat, end: nat)
    requires Quiet(w, usable) && tried <= p.known && |p.known| <= n && end > k + 2 * (n - |tried|)
    ensures Manage(w, p, others, caller, n, "", tried, k, end).out.Got? <==> Findable(p, tried, usable)
    decreases if k < end then end - k else 0
  {
    hide Acquire, AllMoved, Release, Take, Quiet, Wait;
    SubsetSize(tried, p.known);
    if |tried| < n {
      QuietAttempt(w, usable, p, others, caller, "", tried, k, end);
      FirstIsEligible(p, tried);
      GotIsNew(p, "", tried);
      var (a, got) := Acquire(p, "", tried);
      if got.Some? {
        var id := got.value;
        QuietHere(w, usable, a, multiset{id} + others, k + 1);
        FindableLater(p, tried, usable, id);
        if !usable(id) {
          ReleaseKeepsKnown(a, id);
          ManageFindsIff(w, usable, Release(a, id).0, others, caller, n, tried + {id}, k + 2, end);
        }
      }
    }
  }

  /** One with a target gets it exactly if it has a slot and a token can be had for it. */
  lemma {:induction false} TargetFoundIff(w: World, usable: string -> bool, p: Pool, others: multiset<string>,
                                          caller: nat, n: nat, target: string, k: nat, end: nat)
    requires Quiet(w, usable) && target != "" && k < end
    ensures Manage(w, p, others, caller, n, target, {}, k, end).out.Got? <==>
      Eligible(p, {}, target) && usable(target)
  {
    hide AllMoved, Release, Quiet, Wait, Eligible, Take;
    QuietAttempt(w, usable, p, others, caller, target, {}, k, end);
    var (a, got) := Acquire(p, target, {});
    if got.Some? {
      QuietHere(w, usable, a, multiset{target} + others, k + 1);
    }
  }

  // The queue, and the slots of others.

  /** Nobody else queues for this caller. */
  predicate Apart(ms: seq<Move>, caller: nat) {
    forall i :: 0 <= i < |ms| && ms[i].Asks? ==> ms[i].caller != caller
  }

  /** How often a caller is queued. */
  function Places(p: Pool, caller: nat): nat {
    multiset(p.waiters)[caller]
  }

  lemma {:induction false} WithoutOne(q: seq<nat>, x: nat, caller: nat)
    ensures multiset(Without(q, x))[caller]
         == if x == caller && multiset(q)[caller] > 0 then multiset(q)[caller] - 1 else multiset(q)[caller]
  {
    if q != [] {
      assert q == [q[0]] + q[1..];
      WithoutOne(q[1..], x, caller);
    }
  }

  lemma MoveKeepsApart(p: Pool, mine: multiset<string>, m: Move, caller: nat)
    requires m.Asks? ==> m.caller != caller
    ensures Places(Moved(p, mine, m), caller) <= Places(p, caller)
  {
    hide Acquire;
    match m
    case Asks(other, target, exclude) =>
      var q := AskOnce(p, other, target, exclude);
      AcquireKeepsWaiters(p, target, exclude);
    case GivesUp(other) =>
      WithoutOne(p.waiters, other, caller);
    case GivesBack(id) =>
      if p.waiters != [] {
        assert p.waiters == [p.waiters[0]] + p.waiters[1..];
      }
  }

  lemma AcquireKeepsWaiters(p: Pool, target: string, exclude: set<string>)
    ensures Acquire(p, target, exclude).0.waiters == p.waiters
  {
  }

  lemma {:induction false} MovesKeepApart(p: Pool, mine: multiset<string>, ms: seq<Move>, caller: nat)
    requires Apart(ms, caller)
    ensures Places(AllMoved(p, mine, ms), caller) <= Places(p, caller)
    decreases |ms|
  {
    hide Moved, Places;
    if ms != [] {
      MoveKeepsApart(p, mine, ms[0], caller);
      MovesKeepApart(Moved(p, mine, ms[0]), mine, ms[1..], caller);
    }
  }

  /** However a wait ends, the caller is no longer queued. */
  lemma {:induction false} WaitLeavesQueue(w: World, p: Pool, mine: multiset<string>, caller: nat, target: string,
                                           exclude: set<string>, queued: bool, k: nat, end: nat)
    requires Places(p, caller) <= (if queued then 1 else 0) && forall j: nat :: Apart(w.moves(j), caller)
    ensures var (q, out, _) := Wait(w, p, mine, caller, target, exclude, queued, k, end);
      !out.Waiting? ==> caller !in q.waiters
    decreases if k < end then end - k else 0
  {
    hide Acquire, CanQueue, AllMoved, Apart;
    if k < end {
      if w.cancelled(k) {
        WithoutOne(p.waiters, caller, caller);
      } else {
        var q := AllMoved(p, mine, w.moves(k));
        MovesKeepApart(p, mine, w.moves(k), caller);
        GotIsNew(q, target, exclude);
        AcquireKeepsWaiters(q, target, exclude);
        if queued {
          WaitLeavesQueue(w, q, mine, caller, target, exclude, caller in q.waiters, k + 1, end);
        } else if Acquire(q, target, exclude).1.None? && CanQueue(q, target, exclude) {
          WaitLeavesQueue(w, Enqueue(q, caller), mine, caller, target, exclude, true, k + 1, end);
        }
      }
    }
  }

  /** What another request does is a step of the pool, unless it would give back a slot of `mine`. */
  lemma MovesAreSteps(p: Pool, mine: multiset<string>, m: Move, log: seq<string>)
    ensures match m
      case Asks(caller, target, exclude) =>
        Moved(p, mine, m) == Step(History(p, log), Request(caller, target, exclude)).pool
      case GivesUp(caller) => Moved(p, mine, m) == Step(History(p, log), Cancel(caller)).pool
      case GivesBack(id) =>
        if mine[id] < Count(p, id) then Moved(p, mine, m) == Step(History(p, log), ReleaseSlot(id)).pool
        else Moved(p, mine, m) == p
  {
    hide Acquire;
    match m
    case Asks(caller, target, exclude) =>
      var (q, got) := Acquire(p, target, exclude);
      GotIsNew(p, target, exclude);
    case _ =>
  }

  /** A switch gives the old account back whether a slot of it is held or not: others may lose one. */
  lemma GivesBackAgain(r: RequestModel.Request)
    requires r.id != ""
    ensures var g := AfterGiveBack(r);
      && Count(g.pool, r.id) == (if Count(r.pool, r.id) > 0 then Count(r.pool, r.id) - 1 else 0)
      && g.others == if r.holds then r.others else r.others - multiset{r.id}
  {
  }

  /** How many of the first n switches found no account. */
  ghost function Failures(w: World, r: RequestModel.Request, n: nat): nat {
    if n == 0 then 0 else Failures(w, r, n - 1) + if SwitchMany(w, r, n).holds then 0 else 1
  }

  lemma {:induction false} FailuresAreCounted(w: World, r: RequestModel.Request, n: nat)
    ensures SwitchMany(w, r, n).failed == r.failed + Failures(w, r, n)
  {
    hide Switch;
    if n > 0 {
      FailuresAreCounted(w, r, n - 1);
    }
  }
}
