/** The retry loops that use the pool (internal/auth/request.go), with other requests acting on the
    pool between any two of their steps. */
module RequestSlots {
  import opened Options
  import opened Sets
  import opened PoolModel
  import opened PoolSafety
  import opened RequestModel
  import RequestLaws
  import opened AccountPool

  lemma AcquireKeepsHolds(p: Pool, mine: multiset<string>, target: string, exclude: set<string>)
    requires Holds(p, mine)
    ensures var (p', got) := Acquire(p, target, exclude);
      && Holds(p', mine) && p'.known == p.known
      && (got.Some? ==> Holds(p', mine + multiset{got.value}) && got.value !in exclude && got.value in p.known
                        && got.value != "" && (target != "" ==> got.value == target))
  {
    hide Bump, Sum;
    var (p', got) := Acquire(p, target, exclude);
    if got.Some? {
      forall id ensures Count(p', id) == if id == got.value then Count(p, id) + 1 else Count(p, id) {
      }
    }
  }

  lemma ReleaseKeepsHolds(p: Pool, mine: multiset<string>, id: string)
    requires Holds(p, mine) && id != "" && mine[id] < Count(p, id)
    ensures Holds(Release(p, id).0, mine) && Release(p, id).0.known == p.known
  {
    var p' := Release(p, id).0;
    forall x ensures Count(p', x) == if x == id then Count(p, x) - 1 else Count(p, x) {
    }
  }

  lemma MoveKeepsHolds(p: Pool, mine: multiset<string>, m: Move)
    requires Holds(p, mine)
    ensures Holds(Moved(p, mine, m), mine)
  {
    hide Acquire, Release;
    match m
    case Asks(caller, target, exclude) => AcquireKeepsHolds(p, mine, target, exclude);
    case GivesUp(caller) =>
    case GivesBack(id) =>
      if id != "" && mine[id] < Count(p, id) {
        ReleaseKeepsHolds(p, mine, id);
      }
  }

  lemma NextMove(p: Pool, mine: multiset<string>, ms: seq<Move>, i: nat)
    requires i < |ms|
    ensures AllMoved(p, mine, ms[i..]) == AllMoved(Moved(p, mine, ms[i]), mine, ms[i + 1..])
  {
    hide Moved;
    assert ms[i..][1..] == ms[i + 1..];
  }

  lemma NoMoves(p: Pool, mine: multiset<string>, ms: seq<Move>)
    requires ms == []
    ensures AllMoved(p, mine, ms) == p
  {
  }

  /** Other requests act: anything but giving back our slots or resetting the pool. */
  method Others(pool: SlotPool, mine: multiset<string>, ms: seq<Move>)
    requires Holds(pool.Abs(), mine)
    modifies pool
    ensures pool.Abs() == AllMoved(old(pool.Abs()), mine, ms)
    ensures Holds(pool.Abs(), mine) && pool.known == old(pool.known)
  {
    hide Acquire, PoolModel.Release, AllMoved, Holds;
    assert ms[0..] == ms;
    for i := 0 to |ms|
      invariant Holds(pool.Abs(), mine) && pool.known == old(pool.known)
      invariant AllMoved(old(pool.Abs()), mine, ms) == AllMoved(pool.Abs(), mine, ms[i..])
    {
      ghost var before := pool.Abs();
      NextMove(before, mine, ms, i);
      MoveKeepsHolds(before, mine, ms[i]);
      MoveKeepsKnown(before, mine, ms[i]);
      match ms[i] {
        case Asks(caller, target, exclude) =>
          var got, queued := pool.AcquireOrQueue(caller, target, exclude);
        case GivesUp(caller) =>
          var removed := pool.RemoveWaiterLocked(caller);
        case GivesBack(id) =>
          if id != "" && mine[id] < if id in pool.inUse then pool.inUse[id] else 0 {
            var woken := pool.Release(id);
          }
      }
    }
    NoMoves(pool.Abs(), mine, ms[|ms|..]);
  }

  /** `AcquireWait`: locked attempts with waits between them, until a slot is taken, the caller may
      not queue, or its context is cancelled; followed up to the time `end`. */
  method AcquireWait(pool: SlotPool, w: World, mine: multiset<string>, caller: nat, target: string,
                     exclude: set<string>, clock: nat, end: nat)
    returns (r: Outcome, k: nat)
    requires Holds(pool.Abs(), mine)
    modifies pool
    ensures (pool.Abs(), r, k) == Wait(w, old(pool.Abs()), mine, caller, target, exclude, false, clock, end)
    ensures pool.known == old(pool.known)
    ensures !r.Got? ==> Holds(pool.Abs(), mine)
    ensures r.Got? ==> Holds(pool.Abs(), mine + multiset{r.id})
  {
    hide Acquire, CanQueue, AllMoved, Holds;
    k := clock;
    var queued := false;
    while k < end
      invariant clock <= k
      invariant Holds(pool.Abs(), mine) && pool.known == old(pool.known)
      invariant Wait(w, old(pool.Abs()), mine, caller, target, exclude, false, clock, end)
             == Wait(w, pool.Abs(), mine, caller, target, exclude, queued, k, end)
      decreases end - k
    {
      if w.cancelled(k) {
        if queued {
          LeavingKeepsHolds(pool.Abs(), mine, caller);
          var removed := pool.RemoveWaiterLocked(caller);
        }
        return Cancelled, k + 1;
      }
      Others(pool, mine, w.moves(k));
      k := k + 1;
      if queued {
        queued := caller in pool.waiters;
        continue;
      }
      AcquireKeepsHolds(pool.Abs(), mine, target, exclude);
      GotIsNew(pool.Abs(), target, exclude);
      QueueingKeepsHolds(pool.Abs(), mine, caller);
      var got;
      got, queued := pool.AcquireOrQueue(caller, target, exclude);
      if got.Some? {
        return Got(got.value), k;
      }
      if !queued {
        return Refused, k;
      }
    }
    r := Waiting;
  }

  lemma LeavingKeepsHolds(p: Pool, mine: multiset<string>, caller: nat)
    requires Holds(p, mine)
    ensures Holds(RemoveWaiter(p, caller), mine)
  {
  }

  lemma QueueingKeepsHolds(p: Pool, mine: multiset<string>, caller: nat)
    requires Holds(p, mine)
    ensures Holds(Enqueue(p, caller), mine)
  {
  }

  /** A request's account; `held` are the slots it has taken and not given back, `surplus` counts
      the releases it made of an account it held no slot of. `others` are slots of other requests,
      which these keep meanwhile. */
  class RequestAuth {
    var accountID: string
    var tried: set<string>
    var held: multiset<string>
    var surplus: nat

    constructor ()
      ensures accountID == "" && tried == {} && held == multiset{} && surplus == 0
    {
      accountID, tried, held, surplus := "", {}, multiset{}, 0;
    }

    /** The pool is told of a release whether or not the request holds a slot; if it holds none,
        the slot given back is another request's. */
    method GiveBack(pool: SlotPool, id: string, others: multiset<string>)
      requires Holds(pool.Abs(), held + others) && id != ""
      modifies this`held, this`surplus, pool
      ensures pool.Abs() == PoolModel.Release(old(pool.Abs()), id).0
      ensures held == old(held) - multiset{id} && pool.known == old(pool.known)
      ensures surplus == old(surplus) + (if id in old(held) then 0 else 1)
      ensures Holds(pool.Abs(), held + (if id in old(held) then others else others - multiset{id}))
    {
      GiveBackKeepsHolds(pool.Abs(), held + others, id);
      assert held + others - multiset{id}
          == held - multiset{id} + (if id in held then others else others - multiset{id});
      if id !in held {
        surplus := surplus + 1;
      }
      held := held - multiset{id};
      var woken := pool.Release(id);
    }

    /** An account just acquired: kept if a usable token can be had, otherwise marked as tried and
        given back. */
    method UseAccount(pool: SlotPool, w: World, id: string, others: multiset<string>, clock: nat) returns (usable: bool)
      requires held == multiset{} && Holds(pool.Abs(), multiset{id} + others) && id != ""
      modifies this, pool
      ensures usable == w.usable(id, clock)
      ensures var u := AllMoved(old(pool.Abs()), multiset{id} + others, w.moves(clock));
        pool.Abs() == if usable then u else PoolModel.Release(u, id).0
      ensures accountID == id && pool.known == old(pool.known) && surplus == old(surplus)
      ensures Holds(pool.Abs(), held + others)
      ensures usable ==> held == multiset{id} && tried == old(tried)
      ensures !usable ==> held == multiset{} && tried == old(tried) + {id}
    {
      hide Holds, AllMoved;
      accountID := id;
      held := multiset{id};
      Others(pool, held + others, w.moves(clock));
      usable := w.usable(id, clock);
      if !usable {
        tried := tried + {id};
        GiveBack(pool, id, others);
      }
    }

    /** `acquireManagedRequestAuth`: accounts are tried until one has a usable token. */
    method AcquireManaged(pool: SlotPool, w: World, caller: nat, accounts: seq<Account>, target: string,
                          others: multiset<string>, clock: nat, end: nat)
      returns (r: Outcome, k: nat, ghost log: seq<(string, nat)>)
      requires accountID == "" && tried == {} && held == multiset{} && Holds(pool.Abs(), others)
      requires pool.known == set a <- accounts :: a.id
      modifies this, pool
      ensures Result(pool.Abs(), r, tried, log, k)
           == Manage(w, old(pool.Abs()), others, caller, |accounts|, target, {}, clock, end)
      ensures pool.known == old(pool.known) && surplus == old(surplus) && Holds(pool.Abs(), held + others)
      ensures r.Got? ==> accountID == r.id != "" && held == multiset{accountID}
      ensures !r.Got? ==> held == multiset{}
      ensures RequestLaws.Ends(w, |accounts|, target, end, Result(pool.Abs(), r, tried, log, k))
    {
      hide Holds, Acquire, CanQueue, AllMoved, Wait, Manage, Results, RequestLaws.Tells, RequestLaws.Ends;
      k, log := clock, [];
      assert held + others == others;
      ghost var all := Manage(w, pool.Abs(), others, caller, |accounts|, target, {}, clock, end);
      ResultsStart(all);
      RequestLaws.ManageReasons(w, pool.Abs(), others, caller, |accounts|, target, {}, clock, end);
      while true
        invariant held == multiset{} && Holds(pool.Abs(), held + others) && surplus == old(surplus)
        invariant pool.known == old(pool.known) && tried <= pool.known
        invariant Results(all, log, Manage(w, pool.Abs(), others, caller, |accounts|, target, tried, k, end))
        decreases |pool.known| - |tried|
      {
        KnownBound(accounts);
        SubsetSize(tried, pool.known);
        ghost var before, rest := pool.Abs(), Manage(w, pool.Abs(), others, caller, |accounts|, target, tried, k, end);
        ManageStep(w, before, others, caller, |accounts|, target, tried, k, end);
        ResultsEnd(all, log, rest);
        if target == "" && |tried| >= |accounts| {
          return Exhausted, k, log;
        }
        var out;
        assert held + others == others;
        out, k := AcquireWait(pool, w, others, caller, target, tried, k, end);
        if !out.Got? {
          return out, k, log;
        }
        SubsetSize(tried + {out.id}, pool.known);
        assert others + multiset{out.id} == multiset{out.id} + others;
        var usable := UseAccount(pool, w, out.id, others, k);
        ghost var more := Manage(w, pool.Abs(), others, caller, |accounts|, target, tried, k + 1, end);
        ResultsOn(all, log, (out.id, k), rest, more);
        log := log + [(out.id, k)];
        k := k + 1;
        if usable {
          return out, k, log;
        }
        if target != "" {
          return Exhausted, k, log;
        }
      }
    }

    /** `SwitchAccount`: gives the account back and looks for another one. */
    method SwitchAccount(pool: SlotPool, w: World, others: multiset<string>, clock: nat) returns (ok: bool, k: nat)
      requires held == multiset{} || (accountID != "" && held == multiset{accountID})
      requires Holds(pool.Abs(), held + others)
      modifies this, pool
      ensures Value(pool, if ok then 0 else 1, Left(old(held), old(accountID), others), k)
           == SwitchOnce(w, old(Value(pool, 0, others, clock)))
      ensures pool.known == old(pool.known)
      ensures ok ==> accountID != "" && held == multiset{accountID}
      ensures !ok ==> held == multiset{} && (old(accountID) != "" ==> accountID != "")
      ensures !ok ==> Acquire(pool.Abs(), "", tried) == (pool.Abs(), None)
      ensures surplus == old(surplus) + (if old(accountID) == "" || old(held) == multiset{old(accountID)} then 0 else 1)
      ensures Holds(pool.Abs(), held + Left(old(held), old(accountID), others))
    {
      hide Holds, Acquire, Switch, PoolModel.Release;
      var left := Left(held, accountID, others);
      assert accountID in held <==> held == multiset{accountID};
      if accountID != "" {
        tried := tried + {accountID};
        GiveBack(pool, accountID, others);
      }
      assert held + left == left;
      ghost var log;
      ok, k, log := FindOther(pool, w, left, clock);
    }

    /** One turn of its search: an account, if one can be acquired, and whether its token is usable. */
    method TryOther(pool: SlotPool, w: World, others: multiset<string>, clock: nat)
      returns (got: Option<string>, usable: bool)
      requires held == multiset{} && Holds(pool.Abs(), others)
      modifies this, pool
      ensures var q := AllMoved(old(pool.Abs()), others, w.moves(clock));
        var (a, other) := Acquire(q, "", old(tried));
        && got == other
        && (other.None? ==> !usable && pool.Abs() == q == a && tried == old(tried) && accountID == old(accountID))
        && (other.Some? ==>
              var id := other.value;
              var u := AllMoved(a, multiset{id} + others, w.moves(clock + 1));
              && usable == w.usable(id, clock + 1) && accountID == id && id != "" && id in pool.known
              && id !in old(tried) && tried == (if usable then old(tried) else old(tried) + {id})
              && pool.Abs() == if usable then u else PoolModel.Release(u, id).0)
      ensures held == if usable then multiset{accountID} else multiset{}
      ensures Holds(pool.Abs(), held + others) && pool.known == old(pool.known) && surplus == old(surplus)
    {
      hide Holds, Acquire, AllMoved, PoolModel.Release;
      Others(pool, others, w.moves(clock));
      AcquireKeepsHolds(pool.Abs(), others, "", tried);
      GotIsNew(pool.Abs(), "", tried);
      got := pool.AcquireLocked("", tried);
      usable := false;
      if got.None? {
        assert held + others == others;
        return;
      }
      assert others + multiset{got.value} == multiset{got.value} + others;
      usable := UseAccount(pool, w, got.value, others, clock + 1);
    }

    /** Its search, as a loop. */
    method FindOther(pool: SlotPool, w: World, others: multiset<string>, clock: nat)
      returns (ok: bool, k: nat, ghost log: seq<(string, nat)>)
      requires held == multiset{} && Holds(pool.Abs(), others)
      modifies this, pool
      ensures Result(pool.Abs(), if ok then Got(accountID) else Refused, tried, log, k)
           == Switch(w, old(pool.Abs()), others, old(tried), clock)
      ensures accountID == LastId(log, old(accountID)) && (ok || old(accountID) != "" ==> accountID != "")
      ensures pool.known == old(pool.known) && surplus == old(surplus)
      ensures held == if ok then multiset{accountID} else multiset{}
      ensures !ok ==> Acquire(pool.Abs(), "", tried) == (pool.Abs(), None)
      ensures Holds(pool.Abs(), held + others)
    {
      hide Holds, Acquire, AllMoved, Switch, Results, PoolModel.Release, RequestLaws.Tells, LastId;
      NothingLogged(accountID);
      k, log := clock, [];
      ghost var all := Switch(w, pool.Abs(), others, tried, k);
      RequestLaws.SwitchReasons(w, pool.Abs(), others, tried, k);
      ResultsStart(all);
      while true
        invariant held == multiset{} && Holds(pool.Abs(), others) && surplus == old(surplus)
        invariant pool.known == old(pool.known) && (old(accountID) != "" ==> accountID != "")
        invariant Results(all, log, Switch(w, pool.Abs(), others, tried, k)) && accountID == LastId(log, old(accountID))
        decreases pool.known - tried
      {
        ghost var rest := Switch(w, pool.Abs(), others, tried, k);
        SwitchStep(w, pool.Abs(), others, tried, k);
        ResultsEnd(all, log, rest);
        var r, usable := TryOther(pool, w, others, k);
        if r.None? {
          assert held + others == others;
          return false, k + 1, log;
        }
        assert !usable ==> held + others == others;
        ResultsOn(all, log, (r.value, k + 1), rest, Switch(w, pool.Abs(), others, tried, k + 2));
        LastAdded(log, (r.value, k + 1), old(accountID));
        log := log + [(r.value, k + 1)];
        k := k + 2;
        if usable {
          return true, k, log;
        }
      }
    }

    ghost function Value(pool: SlotPool, failed: nat, others: multiset<string>, clock: nat): Request
      reads this, pool
    {
      Standing(pool.Abs(), accountID, accountID in held, tried, failed, others, clock)
    }

    /** `Release`, as handlers defer it. */
    method Release(pool: SlotPool, others: multiset<string>)
      requires held == multiset{} || (accountID != "" && held == multiset{accountID})
      requires Holds(pool.Abs(), held + others)
      modifies this`held, this`surplus, pool
      ensures pool.Abs() == if accountID == "" then old(pool.Abs()) else PoolModel.Release(old(pool.Abs()), accountID).0
      ensures pool.known == old(pool.known) && held == multiset{}
      ensures surplus == old(surplus) + (if accountID == "" || old(held) == multiset{accountID} then 0 else 1)
      ensures Holds(pool.Abs(), Left(old(held), accountID, others))
    {
      hide Holds;
      var left := Left(held, accountID, others);
      assert accountID in held <==> held == multiset{accountID};
      if accountID != "" {
        GiveBack(pool, accountID, others);
      }
      assert held + left == left;
    }

    /** A switch, with the switches that failed so far and the slots that other requests keep. */
    method SwitchCounted(pool: SlotPool, w: World, before: nat, others: multiset<string>, clock: nat)
      returns (failed: nat, kept: multiset<string>, k: nat)
      requires accountID != "" && (held == multiset{} || held == multiset{accountID})
      requires Holds(pool.Abs(), held + others)
      modifies this, pool
      ensures Value(pool, failed, kept, k) == SwitchOnce(w, old(Value(pool, before, others, clock)))
      ensures accountID != "" && (held == multiset{} || held == multiset{accountID})
      ensures Holds(pool.Abs(), held + kept) && pool.known == old(pool.known)
      ensures kept <= others && before <= failed
      ensures surplus + (if held == multiset{} then 1 else 0) - failed
           == old(surplus + (if held == multiset{} then 1 else 0)) - before
      ensures |others| - (if old(held) == multiset{} then 1 else 0)
           <= |kept| + failed - before - (if held == multiset{} then 1 else 0)
    {
      hide Holds, SwitchOnce, Left;
      LeftCosts(held, accountID, others);
      FailuresAdd(w, Value(pool, 0, others, clock), before);
      kept := Left(held, accountID, others);
      var ok;
      ok, k := SwitchAccount(pool, w, others, clock);
      failed := if ok then before else before + 1;
    }

    /** A request served as the session client does it: an account, some switches (it goes on after
        one that failed), and the deferred release. Each switch that fails brings about one surplus
        release, which costs the other requests one slot at most; `kept` are those they keep. */
    method Serve(pool: SlotPool, w: World, caller: nat, accounts: seq<Account>, target: string, switches: nat,
                 others: multiset<string>, clock: nat, end: nat)
      returns (served: bool, failed: nat, kept: multiset<string>, ghost last: Request)
      requires accountID == "" && tried == {} && held == multiset{} && Holds(pool.Abs(), others)
      requires pool.known == set a <- accounts :: a.id
      modifies this, pool
      ensures var m := Manage(w, old(pool.Abs()), others, caller, |accounts|, target, {}, clock, end);
        && served == m.out.Got?
        && (served ==>
              && last == SwitchMany(w, Standing(m.pool, m.out.id, true, m.tried, 0, others, m.clock), switches)
              && failed == last.failed && pool.Abs() == PoolModel.Release(last.pool, last.id).0)
        && (!served ==> pool.Abs() == m.pool)
      ensures held == multiset{} && surplus == old(surplus) + failed
      ensures kept <= others && |others| <= |kept| + failed && Holds(pool.Abs(), kept)
      ensures !served ==> failed == 0
    {
      hide Holds, Manage, SwitchOnce, PoolModel.Release, Left;
      failed, kept := 0, others;
      var out, k;
      ghost var log;
      out, k, log := AcquireManaged(pool, w, caller, accounts, target, others, clock, end);
      served := out.Got?;
      last := Value(pool, 0, others, k);
      if !served {
        assert held + others == others;
        return;
      }
      ghost var first := last;
      for n := 0 to switches
        invariant Holds(pool.Abs(), held + kept) && accountID != ""
        invariant held == multiset{} || held == multiset{accountID}
        invariant kept <= others
        invariant surplus + (if held == multiset{} then 1 else 0) == old(surplus) + failed
        invariant |others| <= |kept| + failed - (if held == multiset{} then 1 else 0)
        invariant last == Value(pool, failed, kept, k) == SwitchMany(w, first, n)
      {
        failed, kept, k := SwitchCounted(pool, w, failed, kept, k);
        last := Value(pool, failed, kept, k);
      }
      var before := kept;
      LeftCosts(held, accountID, kept);
      kept := Left(held, accountID, kept);
      Release(pool, before);
    }
  }

  /** A result told from the log so far and what is still to come. */
  predicate Results(all: Result, log: seq<(string, nat)>, rest: Result) {
    all == rest.(log := log + rest.log)
  }

  lemma ResultsStart(all: Result)
    ensures Results(all, [], all)
  {
  }

  lemma ResultsEnd(all: Result, log: seq<(string, nat)>, rest: Result)
    requires Results(all, log, rest)
    ensures rest.log == [] ==> all == rest.(log := log)
    ensures |rest.log| == 1 ==> all == rest.(log := log + rest.log)
  {
  }

  lemma ResultsOn(all: Result, log: seq<(string, nat)>, entry: (string, nat), rest: Result, more: Result)
    requires Results(all, log, rest)
    ensures rest == more.(log := [entry] + more.log) ==> Results(all, log + [entry], more)
  {
    assert log + ([entry] + more.log) == log + [entry] + more.log;
  }

  lemma ManageStep(w: World, p: Pool, others: multiset<string>, caller: nat, n: nat, target: string,
                   tried: set<string>, k: nat, end: nat)
    ensures var r := Manage(w, p, others, caller, n, target, tried, k, end);
      if target == "" && |tried| >= n then r == Result(p, Exhausted, tried, [], k)
      else
        var (q, out, k1) := Wait(w, p, others, caller, target, tried, false, k, end);
        if !out.Got? then r == Result(q, out, tried, [], k1)
        else
          var u := AllMoved(q, multiset{out.id} + others, w.moves(k1));
          var back := PoolModel.Release(u, out.id).0;
          if w.usable(out.id, k1) then r == Result(u, out, tried, [(out.id, k1)], k1 + 1)
          else if target != "" then r == Result(back, Exhausted, tried + {out.id}, [(out.id, k1)], k1 + 1)
          else
            var more := Manage(w, back, others, caller, n, target, tried + {out.id}, k1 + 1, end);
            r == more.(log := [(out.id, k1)] + more.log)
  {
    hide Wait, AllMoved;
  }

  lemma SwitchStep(w: World, p: Pool, others: multiset<string>, tried: set<string>, k: nat)
    ensures var r := Switch(w, p, others, tried, k);
      var q := AllMoved(p, others, w.moves(k));
      var (a, got) := Acquire(q, "", tried);
      if got.None? then r == Result(q, Refused, tried, [], k + 1)
      else
        var id := got.value;
        var u := AllMoved(a, multiset{id} + others, w.moves(k + 1));
        if w.usable(id, k + 1) then r == Result(u, Got(id), tried, [(id, k + 1)], k + 2)
        else
          var more := Switch(w, PoolModel.Release(u, id).0, others, tried + {id}, k + 2);
          r == more.(log := [(id, k + 1)] + more.log)
  {
    hide AllMoved, Acquire;
  }

  lemma LastAdded(log: seq<(string, nat)>, entry: (string, nat), id: string)
    ensures LastId(log + [entry], id) == entry.0
  {
  }

  lemma NothingLogged(id: string)
    ensures LastId([], id) == id
  {
  }

  /** The slots others keep when the account is given back. */
  function Left(held: multiset<string>, id: string, others: multiset<string>): multiset<string> {
    if id == "" || id in held then others else others - multiset{id}
  }

  lemma FailuresAdd(w: World, r: Request, n: nat)
    requires r.failed == 0
    ensures SwitchOnce(w, r.(failed := n)) == SwitchOnce(w, r).(failed := SwitchOnce(w, r).failed + n)
  {
    hide Switch;
  }

  lemma LeftCosts(held: multiset<string>, id: string, others: multiset<string>)
    ensures var left := Left(held, id, others);
      left <= others && |others| <= |left| + (if id == "" || id in held then 0 else 1)
  {
    FewerByOne(others, id);
  }

  lemma FewerByOne(m: multiset<string>, id: string)
    ensures |m| <= |m - multiset{id}| + 1 && m - multiset{id} <= m
  {
    assert m <= m - multiset{id} + multiset{id};
    assert |m - multiset{id} + multiset{id}| == |m - multiset{id}| + 1;
    if id in m {
      assert m == m - multiset{id} + multiset{id};
    } else {
      assert m == m - multiset{id};
    }
  }

  lemma GiveBackKeepsHolds(p: Pool, held: multiset<string>, id: string)
    requires Holds(p, held) && id != ""
    ensures Holds(PoolModel.Release(p, id).0, held - multiset{id})
  {
    var p' := PoolModel.Release(p, id).0;
    forall x ensures Count(p', x) >= if x == id then Count(p, x) - 1 else Count(p, x) {
    }
  }

  lemma {:induction false} KnownBound(accounts: seq<Account>)
    ensures |set a <- accounts :: a.id| <= |accounts|
  {
    if accounts != [] {
      KnownBound(accounts[1..]);
      assert (set a <- accounts :: a.id) == (set a <- accounts[1..] :: a.id) + {accounts[0].id};
    }
  }

  /** What a surplus release does: an account that other requests use up to its limit can be taken
      once more, so it serves more requests at a time than the limit allows. */
  lemma SurplusReleaseOvercommits(p: Pool, id: string)
    requires Safe(p) && id != "" && p.maxPerAccount > 0 && Count(p, id) == p.maxPerAccount
    ensures !CanAcquire(p, id) && CanAcquire(PoolModel.Release(p, id).0, id)
  {
    SumRelease(p, id);
  }

  /** A release leaves other requests their slots exactly when it gives back a slot that is not one
      of theirs: none, or one beyond those they hold. */
  lemma OthersKeepIff(p: Pool, others: multiset<string>, id: string)
    requires Holds(p, others)
    ensures Holds(PoolModel.Release(p, id).0, others) <==> id == "" || others[id] == 0 || others[id] < Count(p, id)
  {
    var p' := PoolModel.Release(p, id).0;
    if id != "" && Count(p, id) > 0 {
      assert forall x :: Count(p', x) == if x == id then Count(p, x) - 1 else Count(p, x);
    }
  }

  /** A release of an account is safe for other requests, whatever they hold, exactly when the
      request holds a slot of it itself. */
  lemma ReleaseIsOwnIff(held: multiset<string>, id: string)
    requires id != ""
    ensures id in held <==>
      forall p: Pool, others: multiset<string> | Holds(p, held + others) ::
        Holds(PoolModel.Release(p, id).0, (held - multiset{id}) + others)
  {
    if id in held {
      forall p: Pool, others: multiset<string> | Holds(p, held + others)
        ensures Holds(PoolModel.Release(p, id).0, (held - multiset{id}) + others)
      {
        GiveBackKeepsHolds(p, held + others, id);
        assert held + others - multiset{id} == (held - multiset{id}) + others;
      }
    } else {
      var all := held + multiset{id};
      var p := Pool({}, [], map x | x in all :: all[x], [], 0, 0, 0);
      assert Holds(p, held + multiset{id});
      assert Count(PoolModel.Release(p, id).0, id) == 0;
      assert ((held - multiset{id}) + multiset{id})[id] == 1;
    }
  }

  const ONE := Pool({"a"}, ["a"], map[], [], 1, 0, 0)
  const FULL := ONE.(inUse := map["a" := 1])

  /** One account with one slot. A request takes it and gives it back in a switch that finds no other
      account; a second request takes it; the deferred release of the first frees it while the
      second still holds it; and a third takes it beside the second. */
  lemma FailedSwitchFreesAnothersSlot()
    ensures
      && Acquire(ONE, "", {}) == (FULL, Some("a"))
      && PoolModel.Release(FULL, "a") == (ONE, [])
      && Acquire(ONE, "", {"a"}) == (ONE, None)
      && Holds(FULL, multiset{"a"}) && !Holds(ONE, multiset{"a"})
  {
    assert Sum(map[]) == 0;
    assert Bump(["a"], "a") == ["a"];
    assert Pick(ONE, {}, 0) == 0;
    assert Pick(ONE, {"a"}, 0) == 1;
    assert map["a" := 1] - {"a"} == map[];
    assert multiset{"a"}["a"] == 1;
  }
}
