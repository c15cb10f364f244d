/** What a request does to the pool (internal/account/pool_acquire.go, internal/auth/request.go), given
    what other requests do in between and how its context and its tokens turn out. */
module RequestModel {
  import opened PoolModel

  /** The slots of `mine` are among those in use. */
  ghost predicate Holds(p: Pool, mine: multiset<string>) {
    forall id :: mine[id] <= Count(p, id)
  }

  /** What another request does. */
  datatype Move =
    | Asks(caller: nat, target: string, exclude: set<string>)
    | GivesUp(caller: nat)
    | GivesBack(id: string)

  /** One locked section of the waiting loop. */
  ghost function AskOnce(p: Pool, caller: nat, target: string, exclude: set<string>): Pool {
    var (q, got) := Acquire(p, target, exclude);
    if got.None? && CanQueue(p, target, exclude) then Enqueue(q, caller) else q
  }

  /** Other requests give back no slot of `mine`. */
  ghost function Moved(p: Pool, mine: multiset<string>, m: Move): Pool {
    match m
    case Asks(caller, target, exclude) => AskOnce(p, caller, target, exclude)
    case GivesUp(caller) => RemoveWaiter(p, caller)
    case GivesBack(id) => if id != "" && mine[id] < Count(p, id) then Release(p, id).0 else p
  }

  ghost function AllMoved(p: Pool, mine: multiset<string>, ms: seq<Move>): (r: Pool)
    ensures r.known == p.known
    decreases |ms|
  {
    if ms == [] then p
    else
      MoveKeepsKnown(p, mine, ms[0]);
      AllMoved(Moved(p, mine, ms[0]), mine, ms[1..])
  }

  lemma MoveKeepsKnown(p: Pool, mine: multiset<string>, m: Move)
    ensures Moved(p, mine, m).known == p.known
  {
  }

  /** What happens around a request, by its own clock: what others do, whether its context is
      cancelled, and whether a usable token can be had for an account. */
  datatype World = World(moves: nat -> seq<Move>, cancelled: nat -> bool, usable: (string, nat) -> bool)

  datatype Outcome = Got(id: string) | Refused | Exhausted | Cancelled | Waiting

  lemma GotIsNew(p: Pool, target: string, exclude: set<string>)
    ensures var (q, got) := Acquire(p, target, exclude);
      && q.known == p.known && (got.None? ==> q == p)
      && (got.Some? ==> got.value in p.known && got.value !in exclude && got.value != "")
      && (got.Some? && target != "" ==> got.value == target)
  {
  }

  /** `AcquireWait`, followed up to the time `end`: attempts with waits between them, until a slot is
      taken, the caller may not queue, or its context is cancelled. */
  ghost function Wait(w: World, p: Pool, mine: multiset<string>, caller: nat, target: string, exclude: set<string>,
                      queued: bool, k: nat, end: nat): (r: (Pool, Outcome, nat))
    ensures k <= r.2 && r.0.known == p.known
    ensures r.1.Got? ==> k < r.2 <= end && r.1.id in p.known && r.1.id !in exclude && r.1.id != ""
    ensures r.1.Got? && target != "" ==> r.1.id == target
    decreases if k < end then end - k else 0
  {
    if k >= end then (p, Waiting, k)
    else if w.cancelled(k) then (if queued then RemoveWaiter(p, caller) else p, Cancelled, k + 1)
    else
      var q := AllMoved(p, mine, w.moves(k));
      GotIsNew(q, target, exclude);
      if queued then Wait(w, q, mine, caller, target, exclude, caller in q.waiters, k + 1, end)
      else
        var (a, got) := Acquire(q, target, exclude);
        if got.Some? then (a, Got(got.value), k + 1)
        else if !CanQueue(q, target, exclude) then (q, Refused, k + 1)
        else Wait(w, Enqueue(q, caller), mine, caller, target, exclude, true, k + 1, end)
  }

  /** Where a request stands; `log` are the accounts it took a slot of, with the time it asked for
      their tokens. */
  datatype Result = Result(pool: Pool, out: Outcome, tried: set<string>, log: seq<(string, nat)>, clock: nat)

  /** `acquireManagedRequestAuth` for a store of `n` accounts. */
  ghost function Manage(w: World, p: Pool, others: multiset<string>, caller: nat, n: nat, target: string,
                        tried: set<string>, k: nat, end: nat): (r: Result)
    ensures r.pool.known == p.known && k <= r.clock
    decreases if k < end then end - k else 0
  {
    if target == "" && |tried| >= n then Result(p, Exhausted, tried, [], k)
    else
      var (q, out, k1) := Wait(w, p, others, caller, target, tried, false, k, end);
      if !out.Got? then Result(q, out, tried, [], k1)
      else
        var u := AllMoved(q, multiset{out.id} + others, w.moves(k1));
        if w.usable(out.id, k1) then Result(u, out, tried, [(out.id, k1)], k1 + 1)
        else
          var back := Release(u, out.id).0;
          ReleaseKeepsKnown(u, out.id);
          if target != "" then Result(back, Exhausted, tried + {out.id}, [(out.id, k1)], k1 + 1)
          else
            var r := Manage(w, back, others, caller, n, target, tried + {out.id}, k1 + 1, end);
            r.(log := [(out.id, k1)] + r.log)
  }

  lemma ReleaseKeepsKnown(p: Pool, id: string)
    ensures Release(p, id).0.known == p.known
  {
  }

  /** The search of `SwitchAccount`, after the old account was given back. */
  ghost function Switch(w: World, p: Pool, others: multiset<string>, tried: set<string>, k: nat): (r: Result)
    ensures r.pool.known == p.known && k <= r.clock
    decreases p.known - tried
  {
    var q := AllMoved(p, others, w.moves(k));
    GotIsNew(q, "", tried);
    var (a, got) := Acquire(q, "", tried);
    if got.None? then Result(q, Refused, tried, [], k + 1)
    else
      var id := got.value;
      var u := AllMoved(a, multiset{id} + others, w.moves(k + 1));
      if w.usable(id, k + 1) then Result(u, Got(id), tried, [(id, k + 1)], k + 2)
      else
        ReleaseKeepsKnown(u, id);
        assert id in p.known - tried;
        var r := Switch(w, Release(u, id).0, others, tried + {id}, k + 2);
        r.(log := [(id, k + 1)] + r.log)
  }

  /** A request with the pool: its account, whether it holds a slot of it, the accounts it has tried,
      how many switches failed, the slots others keep, and the time. */
  datatype Request = Standing(
    pool: Pool, id: string, holds: bool, tried: set<string>, failed: nat, others: multiset<string>, clock: nat)

  /** The account given back, whether a slot of it is held or not. */
  ghost function AfterGiveBack(r: Request): Request {
    if r.id == "" then r.(holds := false)
    else
      r.(pool := Release(r.pool, r.id).0, holds := false, tried := r.tried + {r.id},
         others := if r.holds then r.others else r.others - multiset{r.id})
  }

  function LastId(log: seq<(string, nat)>, id: string): string {
    if log == [] then id else log[|log| - 1].0
  }

  /** `SwitchAccount`. */
  ghost function SwitchOnce(w: World, r: Request): Request {
    var g := AfterGiveBack(r);
    var s := Switch(w, g.pool, g.others, g.tried, g.clock);
    Standing(s.pool, LastId(s.log, g.id), s.out.Got?, s.tried, if s.out.Got? then g.failed else g.failed + 1,
            g.others, s.clock)
  }

  ghost function SwitchMany(w: World, r: Request, n: nat): Request {
    if n == 0 then r else SwitchOnce(w, SwitchMany(w, r, n - 1))
  }
}
