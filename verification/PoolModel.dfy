/** The account pool (internal/account) as a state and its atomic steps: what each critical section
    of the mutex does. */
module PoolModel {
  import opened Options

  /** `known` are the identifiers the configuration store can find; a waiter is the identity of the
      caller whose channel is queued. */
  datatype Pool = Pool(
    known: set<string>,
    queue: seq<string>,
    inUse: map<string, nat>,
    waiters: seq<nat>,
    maxPerAccount: int,
    maxQueue: int,
    globalMax: int)

  function Count(p: Pool, id: string): nat {
    if id in p.inUse then p.inUse[id] else 0
  }

  ghost function Sum(m: map<string, nat>): nat
    decreases |m|
  {
    if m == map[] then 0
    else
      var k :| k in m;
      assert (m - {k}).Keys == m.Keys - {k};
      m[k] + Sum(m - {k})
  }

  ghost predicate CanAcquire(p: Pool, id: string) {
    && id != ""
    && Count(p, id) < p.maxPerAccount
    && (p.globalMax > 0 ==> Sum(p.inUse) < p.globalMax)
  }

  ghost predicate Eligible(p: Pool, exclude: set<string>, id: string) {
    id !in exclude && CanAcquire(p, id) && id in p.known
  }

  /** The first eligible position at or after `i`, or the length of the queue. */
  ghost function Pick(p: Pool, exclude: set<string>, i: nat): (r: nat)
    requires i <= |p.queue|
    ensures i <= r <= |p.queue|
    ensures r < |p.queue| ==> Eligible(p, exclude, p.queue[r])
    ensures forall j :: i <= j < r ==> !Eligible(p, exclude, p.queue[j])
    decreases |p.queue| - i
  {
    if i == |p.queue| || Eligible(p, exclude, p.queue[i]) then i else Pick(p, exclude, i + 1)
  }

  /** Moves the first occurrence of an account to the end of the queue. */
  function Bump(q: seq<string>, id: string): (r: seq<string>)
    ensures |r| == |q|
  {
    if q == [] then []
    else if q[0] == id then q[1..] + [id]
    else [q[0]] + Bump(q[1..], id)
  }

  function Take(p: Pool, id: string): Pool {
    p.(inUse := p.inUse[id := Count(p, id) + 1], queue := Bump(p.queue, id))
  }

  ghost function Acquire(p: Pool, target: string, exclude: set<string>): (Pool, Option<string>) {
    if target != "" then
      if Eligible(p, exclude, target) then (Take(p, target), Some(target)) else (p, None)
    else
      var i := Pick(p, exclude, 0);
      if i < |p.queue| then (Take(p, p.queue[i]), Some(p.queue[i])) else (p, None)
  }

  predicate CanQueue(p: Pool, target: string, exclude: set<string>) {
    && (target != "" ==> target !in exclude && target in p.known)
    && p.maxQueue > 0 && |p.waiters| < p.maxQueue
  }

  function Enqueue(p: Pool, caller: nat): Pool {
    p.(waiters := p.waiters + [caller])
  }

  /** Wakes the caller that has waited longest. */
  function Notify(p: Pool): (Pool, seq<nat>) {
    if p.waiters == [] then (p, []) else (p.(waiters := p.waiters[1..]), [p.waiters[0]])
  }

  function Without(w: seq<nat>, caller: nat): seq<nat> {
    if w == [] then [] else if w[0] == caller then w[1..] else [w[0]] + Without(w[1..], caller)
  }

  function RemoveWaiter(p: Pool, caller: nat): Pool {
    p.(waiters := Without(p.waiters, caller))
  }

  function Release(p: Pool, id: string): (Pool, seq<nat>) {
    if id == "" || Count(p, id) == 0 then (p, [])
    else if Count(p, id) == 1 then Notify(p.(inUse := p.inUse - {id}))
    else Notify(p.(inUse := p.inUse[id := Count(p, id) - 1]))
  }

  /** A new set of accounts: every slot is forgotten and every waiter is woken. */
  function Reset(p: Pool, known: set<string>, ids: seq<string>, maxPer: int, maxQueue: int, globalMax: int)
    : (Pool, seq<nat>)
  {
    (Pool(known, ids, map[], [], maxPer, maxQueue, globalMax), p.waiters)
  }

  /** `ApplyRuntimeLimits` for a store of `accounts` accounts. */
  function ApplyLimits(p: Pool, accounts: nat, maxPer: int, maxQueue: int, globalMax: int): (Pool, seq<nat>) {
    var per := if maxPer <= 0 then 1 else maxPer;
    var total := if globalMax > 0 then globalMax else if per * accounts <= 0 then per else per * accounts;
    Notify(p.(maxPerAccount := per, maxQueue := if maxQueue < 0 then 0 else maxQueue, globalMax := total))
  }

  datatype Account = Account(id: string, token: string)

  function Named(accounts: seq<Account>, withToken: bool): seq<string> {
    if accounts == [] then []
    else
      (if (accounts[0].token != "") == withToken && accounts[0].id != "" then [accounts[0].id] else [])
      + Named(accounts[1..], withToken)
  }

  /** The queue order of a reset: accounts that have a token first, otherwise in stored order. */
  function InitialQueue(accounts: seq<Account>): seq<string> {
    Named(accounts, true) + Named(accounts, false)
  }

  // Sums.

  lemma {:induction false} SumSplit(m: map<string, nat>, k: string)
    requires k in m
    ensures Sum(m) == m[k] + Sum(m - {k})
    decreases |m|
  {
    assert (m - {k}).Keys == m.Keys - {k};
    var j :| j in m && Sum(m) == m[j] + Sum(m - {j});
    if j != k {
      assert (m - {j}).Keys == m.Keys - {j};
      SumSplit(m - {j}, k);
      SumSplit(m - {k}, j);
      assert (m - {j}) - {k} == (m - {k}) - {j};
    }
  }

  lemma SumUpdate(m: map<string, nat>, k: string, n: nat)
    ensures Sum(m[k := n]) == n + Sum(m - {k})
    ensures k !in m ==> Sum(m[k := n]) == n + Sum(m)
    ensures k in m ==> Sum(m[k := n]) + m[k] == Sum(m) + n
  {
    SumSplit(m[k := n], k);
    assert m[k := n] - {k} == m - {k};
    if k in m {
      SumSplit(m, k);
    } else {
      assert m - {k} == m;
    }
  }

  lemma SumTake(p: Pool, id: string)
    ensures Sum(Take(p, id).inUse) == Sum(p.inUse) + 1
  {
    SumUpdate(p.inUse, id, Count(p, id) + 1);
  }

  lemma SumRelease(p: Pool, id: string)
    requires id != "" && Count(p, id) > 0
    ensures Sum(Release(p, id).0.inUse) == Sum(p.inUse) - 1
  {
    SumSplit(p.inUse, id);
    SumUpdate(p.inUse, id, Count(p, id) - 1);
  }
}
