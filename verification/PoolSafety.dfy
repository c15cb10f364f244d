/** What every run of the pool keeps: the slot limits, the bounded waiter list, and the queue as a
    least-recently-acquired order of the account ids. */
module PoolSafety {
  import opened Options
  import opened PoolModel

  datatype Action =
    | Request(caller: nat, target: string, exclude: set<string>)
    | ReleaseSlot(id: string)
    | Cancel(caller: nat)
    | ResetAccounts(known: set<string>, ids: seq<string>, maxPer: int, maxQueue: int, globalMax: int)
    | SetLimits(accounts: nat, maxPer: int, maxQueue: int, globalMax: int)

  /** The pool together with the accounts acquired since the last reset, oldest first. */
  datatype History = History(pool: Pool, log: seq<string>)

  ghost function Step(h: History, a: Action): History {
    var p := h.pool;
    match a
    case Request(caller, target, exclude) =>
      var (p', got) := Acquire(p, target, exclude);
      if got.Some? then History(p', h.log + [got.value])
      else if CanQueue(p, target, exclude) then h.(pool := Enqueue(p, caller))
      else h
    case ReleaseSlot(id) => h.(pool := Release(p, id).0)
    case Cancel(caller) => h.(pool := RemoveWaiter(p, caller))
    case ResetAccounts(known, ids, maxPer, maxQueue, globalMax) =>
      History(Reset(p, known, ids, maxPer, maxQueue, globalMax).0, [])
    case SetLimits(accounts, maxPer, maxQueue, globalMax) =>
      h.(pool := ApplyLimits(p, accounts, maxPer, maxQueue, globalMax).0)
  }

  ghost function Run(h: History, actions: seq<Action>): History
    decreases actions
  {
    if actions == [] then h else Run(Step(h, actions[0]), actions[1..])
  }

  predicate Distinct(q: seq<string>) {
    forall i, j :: 0 <= i < j < |q| ==> q[i] != q[j]
  }

  predicate IsReset(a: Action) {
    a.ResetAccounts?
  }

  /** A global limit of zero or less is no limit. */
  datatype Bounds = Bounds(per: int, total: int, waiting: int)

  function Limits(p: Pool): Bounds {
    Bounds(p.maxPerAccount, p.globalMax, p.maxQueue)
  }

  predicate Under(a: Bounds, b: Bounds) {
    a.per <= b.per && (b.total > 0 ==> 0 < a.total <= b.total) && a.waiting <= b.waiting
  }

  /** New limits fit what is in use and, one caller woken, what is waiting. */
  ghost predicate Fits(p: Pool, b: Bounds) {
    && (forall id :: id in p.inUse ==> p.inUse[id] <= b.per)
    && (b.total > 0 ==> Sum(p.inUse) <= b.total)
    && (|p.waiters| <= 1 || |p.waiters| - 1 <= b.waiting)
  }

  /** New limits fit; resets bring distinct ids. */
  ghost predicate Allowed(p: Pool, a: Action) {
    match a
    case ResetAccounts(known, ids, maxPer, maxQueue, globalMax) => Distinct(ids)
    case SetLimits(accounts, maxPer, maxQueue, globalMax) =>
      Fits(p, Limits(ApplyLimits(p, accounts, maxPer, maxQueue, globalMax).0))
    case _ => true
  }

  ghost predicate AllAllowed(h: History, actions: seq<Action>)
    decreases actions
  {
    actions != [] ==> Allowed(h.pool, actions[0]) && AllAllowed(Step(h, actions[0]), actions[1..])
  }

  ghost predicate Within(p: Pool, b: Bounds) {
    && (forall id :: id in p.inUse ==> 0 < p.inUse[id] <= b.per)
    && (b.total > 0 ==> Sum(p.inUse) <= b.total)
    && (p.waiters == [] || |p.waiters| <= b.waiting)
    && Distinct(p.queue)
  }

  /** The pool keeps the limits in force. */
  ghost predicate Safe(p: Pool) {
    Within(p, Limits(p))
  }

  /** When an account was last acquired: a position in the log, or -1. */
  function Last(log: seq<string>, id: string): int {
    if log == [] then -1
    else if log[|log| - 1] == id then |log| - 1
    else Last(log[..|log| - 1], id)
  }

  ghost predicate LruOrdered(h: History) {
    forall i, j :: 0 <= i < j < |h.pool.queue| ==> Last(h.log, h.pool.queue[i]) <= Last(h.log, h.pool.queue[j])
  }

  ghost predicate Good(h: History) {
    Safe(h.pool) && LruOrdered(h)
  }

  function Position(q: seq<string>, id: string): (i: nat)
    ensures i <= |q|
  {
    if q == [] || q[0] == id then 0 else 1 + Position(q[1..], id)
  }

  lemma {:induction false} PositionFinds(q: seq<string>, id: string)
    ensures var i := Position(q, id);
      (i < |q| ==> q[i] == id) && forall j :: 0 <= j < i ==> q[j] != id
  {
    if q != [] && q[0] != id {
      PositionFinds(q[1..], id);
    }
  }

  lemma {:induction false} BumpIs(q: seq<string>, id: string)
    ensures var i := Position(q, id);
      Bump(q, id) == if i < |q| then q[..i] + q[i + 1..] + [id] else q
  {
    if q != [] && q[0] != id {
      BumpIs(q[1..], id);
      if Position(q[1..], id) < |q[1..]| {
        MovedBehind(q, Position(q[1..], id), id);
      }
    }
  }

  lemma MovedBehind(q: seq<string>, i: nat, id: string)
    requires i + 1 < |q|
    ensures [q[0]] + (q[1..][..i] + q[1..][i + 1..] + [id]) == q[..i + 1] + q[i + 2..] + [id]
  {
    assert q[..i + 1] == [q[0]] + q[1..][..i];
    assert q[i + 2..] == q[1..][i + 1..];
  }

  lemma {:induction false} BumpMultiset(q: seq<string>, id: string)
    ensures multiset(Bump(q, id)) == multiset(q)
  {
    if q != [] {
      assert q == [q[0]] + q[1..];
      if q[0] != id {
        BumpMultiset(q[1..], id);
      }
    }
  }

  lemma {:induction false} BumpDistinct(q: seq<string>, id: string)
    requires Distinct(q)
    ensures Distinct(Bump(q, id))
  {
    if q != [] && q[0] != id {
      BumpDistinct(q[1..], id);
      BumpMultiset(q[1..], id);
      var r := Bump(q[1..], id);
      forall j | 0 <= j < |r| ensures r[j] != q[0] {
        assert r[j] in multiset(q[1..]);
      }
    }
  }

  /** Bumping permutes the queue and puts the account last. */
  lemma BumpPermutes(q: seq<string>, id: string)
    ensures multiset(Bump(q, id)) == multiset(q)
    ensures Distinct(q) ==> Distinct(Bump(q, id))
    ensures id in q ==> Bump(q, id)[|q| - 1] == id
  {
    BumpMultiset(q, id);
    BumpIs(q, id);
    PositionFinds(q, id);
    if Distinct(q) {
      BumpDistinct(q, id);
    }
  }

  lemma LastAppend(log: seq<string>, id: string, x: string)
    ensures Last(log + [x], id) == if id == x then |log| else Last(log, id)
    ensures -1 <= Last(log, id) < |log|
  {
    assert (log + [x])[..|log|] == log;
    LastBound(log, id);
  }

  lemma {:induction false} LastBound(log: seq<string>, id: string)
    ensures -1 <= Last(log, id) < |log|
  {
    if log != [] {
      LastBound(log[..|log| - 1], id);
    }
  }

  /** Where an element of the bumped queue was before. */
  lemma BumpedFrom(q: seq<string>, id: string, j: nat) returns (j0: nat)
    requires Distinct(q) && j < |q| && (id in q ==> j < |q| - 1)
    ensures j <= j0 < |q| && Bump(q, id)[j] == q[j0] != id
    ensures j0 == if j < Position(q, id) then j else j + 1
  {
    BumpIs(q, id);
    PositionFinds(q, id);
    var k := Position(q, id);
    j0 := if j < k then j else j + 1;
    if k < |q| {
      assert q[k] == id;
    }
  }

  lemma TakeKeepsOrder(h: History, id: string)
    requires LruOrdered(h) && Distinct(h.pool.queue)
    ensures LruOrdered(History(Take(h.pool, id), h.log + [id]))
  {
    hide Bump, Last, Position, Distinct;
    var q, log := h.pool.queue, h.log;
    var q' := Bump(q, id);
    BumpPermutes(q, id);
    forall i, j | 0 <= i < j < |q'| ensures Last(log + [id], q'[i]) <= Last(log + [id], q'[j]) {
      LastAppend(log, q'[i], id);
      LastAppend(log, q'[j], id);
      var i0 := BumpedFrom(q, id, i);
      if !(id in q && j == |q| - 1) {
        var j0 := BumpedFrom(q, id, j);
        assert Last(log, q[i0]) <= Last(log, q[j0]);
      }
    }
  }

  /** The least recently acquired eligible account is the one an untargeted caller gets. */
  lemma {:induction false} AcquireIsLru(h: History, exclude: set<string>)
    requires LruOrdered(h)
    ensures var (p, got) := Acquire(h.pool, "", exclude);
      if got.None? then p == h.pool && forall id :: id in h.pool.queue ==> !Eligible(h.pool, exclude, id)
      else
        && got.value in h.pool.queue && Eligible(h.pool, exclude, got.value)
        && (forall id :: id in h.pool.queue && Eligible(h.pool, exclude, id) ==>
              Last(h.log, got.value) <= Last(h.log, id))
        && p == Take(h.pool, got.value)
  {
    var q := h.pool.queue;
    var r := Pick(h.pool, exclude, 0);
    forall id | id in q && Eligible(h.pool, exclude, id)
      ensures r < |q| && Last(h.log, q[r]) <= Last(h.log, id)
    {
      var j :| 0 <= j < |q| && q[j] == id;
      assert r <= j;
    }
  }

  lemma TakeIsWithin(p: Pool, id: string, b: Bounds)
    requires Within(p, b) && Under(Limits(p), b) && CanAcquire(p, id)
    ensures Within(Take(p, id), b)
  {
    SumTake(p, id);
    BumpPermutes(p.queue, id);
  }

  lemma ReleaseIsWithin(p: Pool, id: string, b: Bounds)
    requires Within(p, b)
    ensures Within(Release(p, id).0, b) && Release(p, id).0.queue == p.queue
  {
    if id != "" && Count(p, id) > 0 {
      SumRelease(p, id);
      var p' := if Count(p, id) == 1 then p.(inUse := p.inUse - {id}) else p.(inUse := p.inUse[id := Count(p, id) - 1]);
      assert Release(p, id) == Notify(p');
      assert Sum(p'.inUse) < Sum(p.inUse);
    }
  }

  lemma {:induction false} WithoutShrinks(w: seq<nat>, caller: nat)
    ensures |Without(w, caller)| == if caller in w then |w| - 1 else |w|
  {
    if w != [] && w[0] != caller {
      WithoutShrinks(w[1..], caller);
    }
  }

  lemma EmptySum()
    ensures Sum(map[]) == 0
  {
  }

  lemma EmptyLog(id: string)
    ensures Last([], id) == -1
  {
  }

  /** Whatever limits come into force below some bounds, every step keeps the bounds and the order. */
  lemma {:induction false} StepIsBounded(h: History, a: Action, b: Bounds)
    requires Within(h.pool, b) && LruOrdered(h) && Under(Limits(h.pool), b)
    requires IsReset(a) ==> Distinct(a.ids)
    ensures Within(Step(h, a).pool, b) && LruOrdered(Step(h, a))
  {
    hide Last, Sum, Bump, Without;
    var p := h.pool;
    match a
    case Request(caller, target, exclude) =>
      var (p', got) := Acquire(p, target, exclude);
      if got.Some? {
        TakeIsWithin(p, got.value, b);
        TakeKeepsOrder(h, got.value);
      }
    case ReleaseSlot(id) =>
      ReleaseIsWithin(p, id, b);
    case Cancel(caller) =>
      WithoutShrinks(p.waiters, caller);
    case ResetAccounts(known, ids, maxPer, maxQueue, globalMax) =>
      EmptySum();
      forall id ensures Last([], id) == -1 {
        EmptyLog(id);
      }
    case SetLimits(accounts, maxPer, maxQueue, globalMax) =>
  }

  /** A step keeps the limits in force and the order exactly if new limits fit what is in use and
      waiting, and a reset brings distinct ids. */
  lemma {:induction false} StepIsGoodIff(h: History, a: Action)
    requires Good(h)
    ensures Good(Step(h, a)) <==> Allowed(h.pool, a)
  {
    hide Last, Sum, Bump, Without, LruOrdered, Acquire;
    if a.ResetAccounts? {
      if Distinct(a.ids) {
        StepIsBounded(h, a, Limits(h.pool));
        EmptySum();
      }
    } else if a.SetLimits? {
      SetLimitsKeepsOrder(h, a);
    } else {
      StepIsBounded(h, a, Limits(h.pool));
      LimitsStay(h, a);
    }
  }

  lemma LimitsStay(h: History, a: Action)
    requires !a.ResetAccounts? && !a.SetLimits?
    ensures Limits(Step(h, a).pool) == Limits(h.pool)
  {
  }

  lemma SetLimitsKeepsOrder(h: History, a: Action)
    requires a.SetLimits? && LruOrdered(h)
    ensures LruOrdered(Step(h, a))
  {
  }

  /** Over whole runs: limits and order hold after any sequence of allowed actions, in any
      interleaving of callers. */
  lemma {:induction false} RunIsGood(h: History, actions: seq<Action>)
    requires Good(h) && AllAllowed(h, actions)
    ensures Good(Run(h, actions))
    decreases actions
  {
    hide Good, Allowed, Step;
    if actions != [] {
      StepIsGoodIff(h, actions[0]);
      RunIsGood(Step(h, actions[0]), actions[1..]);
    }
  }

  /** Each of these steps starts under the bounds, and resets bring distinct ids. */
  ghost predicate AllUnder(h: History, actions: seq<Action>, b: Bounds)
    decreases actions
  {
    actions != [] ==>
      && Under(Limits(h.pool), b) && (IsReset(actions[0]) ==> Distinct(actions[0].ids))
      && AllUnder(Step(h, actions[0]), actions[1..], b)
  }

  /** Limits may be lowered below what is in use: then a run keeps the highest limits it has had,
      and what was in use before it. */
  lemma {:induction false} RunIsBounded(h: History, actions: seq<Action>, b: Bounds)
    requires Within(h.pool, b) && LruOrdered(h) && AllUnder(h, actions, b)
    ensures Within(Run(h, actions).pool, b) && LruOrdered(Run(h, actions))
    decreases actions
  {
    hide Within, LruOrdered, Under, Step, IsReset;
    if actions != [] {
      StepIsBounded(h, actions[0], b);
      RunIsBounded(Step(h, actions[0]), actions[1..], b);
    }
  }

  predicate HasToken(accounts: seq<Account>, id: string) {
    exists i :: 0 <= i < |accounts| && accounts[i].id == id && accounts[i].token != ""
  }

  predicate HasNone(accounts: seq<Account>, id: string) {
    exists i :: 0 <= i < |accounts| && accounts[i].id == id && accounts[i].token == ""
  }

  lemma {:induction false} NamedTokens(accounts: seq<Account>, withToken: bool)
    ensures forall i :: 0 <= i < |Named(accounts, withToken)| ==>
      if withToken then HasToken(accounts, Named(accounts, withToken)[i])
      else HasNone(accounts, Named(accounts, withToken)[i])
  {
    if accounts != [] {
      var rest := accounts[1..];
      NamedTokens(rest, withToken);
      var first := Named(accounts, withToken);
      var more := Named(rest, withToken);
      forall i | 0 <= i < |first|
        ensures if withToken then HasToken(accounts, first[i]) else HasNone(accounts, first[i])
      {
        if first != more && i == 0 {
          assert accounts[0].id == first[0];
        } else {
          var k := if first == more then i else i - 1;
          assert first[i] == more[k];
          if withToken {
            var j :| 0 <= j < |rest| && rest[j].id == more[k] && rest[j].token != "";
            assert accounts[j + 1] == rest[j];
          } else {
            var j :| 0 <= j < |rest| && rest[j].id == more[k] && rest[j].token == "";
            assert accounts[j + 1] == rest[j];
          }
        }
      }
    }
  }

  /** A reset queues the accounts with a token first, then those without. */
  lemma TokensFirst(accounts: seq<Account>) returns (n: nat)
    ensures var q := InitialQueue(accounts);
      && n <= |q|
      && (forall i :: 0 <= i < n ==> HasToken(accounts, q[i]))
      && (forall i :: n <= i < |q| ==> HasNone(accounts, q[i]))
  {
    hide HasToken, HasNone;
    var first, second := Named(accounts, true), Named(accounts, false);
    NamedTokens(accounts, true);
    NamedTokens(accounts, false);
    n := |first|;
    var q := InitialQueue(accounts);
    forall i | n <= i < |q| ensures HasNone(accounts, q[i]) {
      assert q[i] == second[i - n];
    }
  }

  /** Limits that are given come into force as they are; the global one, if it is not given, is that of
      all accounts together. */
  lemma LimitsAreTaken(p: Pool, accounts: nat, maxPer: int, maxQueue: int, globalMax: int)
    ensures var b := Limits(ApplyLimits(p, accounts, maxPer, maxQueue, globalMax).0);
      && (maxPer > 0 ==> b.per == maxPer) && (maxPer <= 0 ==> b.per == 1)
      && (maxQueue >= 0 ==> b.waiting == maxQueue) && (maxQueue < 0 ==> b.waiting == 0)
      && (globalMax > 0 ==> b.total == globalMax)
      && (globalMax <= 0 && accounts > 0 ==> b.total == b.per * accounts)
      && (globalMax <= 0 && accounts == 0 ==> b.total == b.per)
  {
    var per := if maxPer <= 0 then 1 else maxPer;
    assert accounts > 0 ==> per * accounts > 0;
  }

  /** A new pool is good. */
  lemma FreshIsGood(known: set<string>, ids: seq<string>, maxPer: int, maxQueue: int, globalMax: int)
    requires Distinct(ids)
    ensures Good(History(Pool(known, ids, map[], [], maxPer, maxQueue, globalMax), []))
  {
  }

  /** Between resets the queue stays a permutation of the account ids. */
  lemma {:induction false} QueueIsPermuted(h: History, actions: seq<Action>)
    requires forall i :: 0 <= i < |actions| ==> !IsReset(actions[i])
    ensures multiset(Run(h, actions).pool.queue) == multiset(h.pool.queue)
    decreases actions
  {
    hide Bump, Sum, Pick;
    if actions != [] {
      var a := actions[0];
      assert !IsReset(a);
      if a.Request? {
        var got := Acquire(h.pool, a.target, a.exclude).1;
        if got.Some? {
          BumpPermutes(h.pool.queue, got.value);
        }
      }
      QueueIsPermuted(Step(h, a), actions[1..]);
    }
  }

  /** A caller that wants one account may queue exactly if there is a place and waiting has a point:
      with all slots given back, it would get the account. */
  lemma WaitingHasAPoint(p: Pool, target: string, exclude: set<string>)
    requires target != "" && p.maxPerAccount > 0
    ensures CanQueue(p, target, exclude) <==>
      && 0 < p.maxQueue && |p.waiters| < p.maxQueue
      && Acquire(p.(inUse := map[]), target, exclude).1 == Some(target)
  {
    assert Sum(map[]) == 0;
  }
}
