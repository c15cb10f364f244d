/** No lost wakeup: the pool together with the callers that use it, one atomic step at a time. */
module PoolWakeup {
  import opened Options
  import opened PoolModel
  import opened PoolSafety

  /** Where a caller stands: outside, blocked on its channel, woken but not yet rerun, or holding a slot. */
  datatype Caller = Idle | Blocked | Woken | Holding(id: string)

  datatype System = System(pool: Pool, callers: map<nat, Caller>)

  datatype Event =
    | Try(caller: nat, target: string, exclude: set<string>)
    | GiveBack(caller: nat)
    | GiveUp(caller: nat)
    | NewAccounts(known: set<string>, ids: seq<string>, maxPer: int, maxQueue: int, globalMax: int)
    | NewLimits(accounts: nat, maxPer: int, maxQueue: int, globalMax: int)

  function At(s: System, c: nat): Caller {
    if c in s.callers then s.callers[c] else Idle
  }

  /** Closing a channel makes its caller runnable. */
  function Wake(callers: map<nat, Caller>, woken: seq<nat>): map<nat, Caller> {
    map c | c in callers.Keys + (set w <- woken) :: if c in woken then Woken else callers[c]
  }

  /** The queue names every account that can be found, once. */
  predicate Lists(known: set<string>, ids: seq<string>) {
    Distinct(ids) && "" !in ids && forall id :: id in known && id != "" ==> id in ids
  }

  predicate Enabled(s: System, e: Event) {
    match e
    case Try(c, target, exclude) => At(s, c).Idle? || At(s, c).Woken?
    case GiveBack(c) => At(s, c).Holding?
    case GiveUp(c) => At(s, c).Blocked? || At(s, c).Woken?
    case NewAccounts(known, ids, maxPer, maxQueue, globalMax) => Lists(known, ids)
    case NewLimits(accounts, maxPer, maxQueue, globalMax) => true
  }

  /** One atomic step: a caller tries to acquire (first time or after being woken), a holder gives
      its slot back, a waiting caller is cancelled, or accounts or limits are set anew. A woken
      caller that is cancelled returns without trying again; nobody is woken in its place. */
  ghost function Next(s: System, e: Event): System
    requires Enabled(s, e)
  {
    match e
    case Try(c, target, exclude) =>
      var (p, got) := Acquire(s.pool, target, exclude);
      if got.Some? then System(p, s.callers[c := Holding(got.value)])
      else if CanQueue(p, target, exclude) then System(Enqueue(p, c), s.callers[c := Blocked])
      else System(p, s.callers[c := Idle])
    case GiveBack(c) =>
      var (p, woken) := Release(s.pool, s.callers[c].id);
      System(p, Wake(s.callers[c := Idle], woken))
    case GiveUp(c) =>
      System(RemoveWaiter(s.pool, c), s.callers[c := Idle])
    case NewAccounts(known, ids, maxPer, maxQueue, globalMax) =>
      var (p, woken) := Reset(s.pool, known, ids, maxPer, maxQueue, globalMax);
      System(p, Wake(s.callers, woken))
    case NewLimits(accounts, maxPer, maxQueue, globalMax) =>
      var (p, woken) := ApplyLimits(s.pool, accounts, maxPer, maxQueue, globalMax);
      System(p, Wake(s.callers, woken))
  }

  /** How many slots of the accounts in `q` are below the per-account limit. */
  function AccountRoom(p: Pool, q: seq<string>): nat {
    if q == [] then 0
    else (if q[0] in p.known && Count(p, q[0]) < p.maxPerAccount then p.maxPerAccount - Count(p, q[0]) else 0)
         + AccountRoom(p, q[1..])
  }

  /** How many slots can still be acquired. */
  ghost function Room(p: Pool): nat {
    var a := AccountRoom(p, p.queue);
    if p.globalMax <= 0 then a
    else if p.globalMax <= Sum(p.inUse) then 0
    else if a <= p.globalMax - Sum(p.inUse) then a
    else p.globalMax - Sum(p.inUse)
  }

  function WokenSet(s: System): set<nat> {
    set c | c in s.callers && s.callers[c].Woken?
  }

  predicate Once(w: seq<nat>) {
    forall i, j :: 0 <= i < j < |w| ==> w[i] != w[j]
  }

  ghost predicate WellFormed(s: System) {
    && Lists(s.pool.known, s.pool.queue)
    && Once(s.pool.waiters)
    && (forall c :: c in s.pool.waiters <==> c in s.callers && s.callers[c].Blocked?)
  }

  /** Whenever a caller is queued, enough callers are already awake to use every free slot. */
  ghost predicate NoLostWakeup(s: System) {
    s.pool.waiters != [] ==> |WokenSet(s)| >= Room(s.pool)
  }

  // The room is what consecutive acquisitions can still get.

  lemma {:induction false} RoomOfOthers(p: Pool, p': Pool, q: seq<string>, id: string)
    requires p'.known == p.known && p'.maxPerAccount == p.maxPerAccount
    requires forall x :: x != id ==> Count(p', x) == Count(p, x)
    requires id !in q
    ensures AccountRoom(p', q) == AccountRoom(p, q)
  {
    if q != [] {
      RoomOfOthers(p, p', q[1..], id);
    }
  }

  lemma {:induction false} RoomMoves(p: Pool, p': Pool, q: seq<string>, id: string, d: int)
    requires p'.known == p.known && p'.maxPerAccount == p.maxPerAccount
    requires forall x :: x != id ==> Count(p', x) == Count(p, x)
    requires Distinct(q) && id in q && id in p.known
    requires Count(p', id) == Count(p, id) + d && Count(p, id) <= p.maxPerAccount && Count(p', id) <= p.maxPerAccount
    ensures AccountRoom(p', q) == AccountRoom(p, q) - d
  {
    if q[0] == id {
      RoomOfOthers(p, p', q[1..], id);
    } else {
      RoomMoves(p, p', q[1..], id, d);
    }
  }

  lemma {:induction false} RoomAppend(p: Pool, a: seq<string>, b: seq<string>)
    ensures AccountRoom(p, a + b) == AccountRoom(p, a) + AccountRoom(p, b)
  {
    if a == [] {
      assert a + b == b;
    } else {
      assert (a + b)[1..] == a[1..] + b;
      RoomAppend(p, a[1..], b);
    }
  }

  lemma RoomBump(p: Pool, q: seq<string>, id: string)
    ensures AccountRoom(p, Bump(q, id)) == AccountRoom(p, q)
  {
    BumpIs(q, id);
    PositionFinds(q, id);
    var i := Position(q, id);
    if i < |q| {
      RoomAppend(p, q[..i], q[i..]);
      RoomAppend(p, [q[i]], q[i + 1..]);
      assert q == q[..i] + q[i..] && q[i..] == [q[i]] + q[i + 1..];
      RoomAppend(p, q[..i] + q[i + 1..], [id]);
      RoomAppend(p, q[..i], q[i + 1..]);
    }
  }

  lemma {:induction false} NoRoomMeansNone(p: Pool, q: seq<string>)
    requires forall id :: id in q ==> id !in p.known || Count(p, id) >= p.maxPerAccount
    ensures AccountRoom(p, q) == 0
  {
    if q != [] {
      NoRoomMeansNone(p, q[1..]);
    }
  }

  lemma {:induction false} RoomOfOne(p: Pool, q: seq<string>, id: string)
    requires id in q && id in p.known && Count(p, id) < p.maxPerAccount
    ensures AccountRoom(p, q) > 0
  {
    if q[0] != id {
      RoomOfOne(p, q[1..], id);
    }
  }

  /** Taking an eligible slot uses up one. */
  lemma TakeUsesOne(p: Pool, id: string)
    requires Distinct(p.queue) && id in p.queue && Eligible(p, {}, id)
    ensures Room(p) > 0 && Room(Take(p, id)) == Room(p) - 1
  {
    hide AccountRoom, Sum, Bump;
    var p' := Take(p, id);
    SumTake(p, id);
    RoomBump(p', p.queue, id);
    RoomMoves(p, p', p.queue, id, 1);
    RoomOfOne(p, p.queue, id);
  }

  /** An untargeted acquisition succeeds exactly when there is room, and uses up one of it: so the
      room is the number of acquisitions that can still succeed. */
  lemma RoomIsAcquirable(p: Pool)
    requires Distinct(p.queue) && "" !in p.queue
    ensures var (p', got) := Acquire(p, "", {});
      && (got.Some? <==> Room(p) > 0)
      && (got.Some? ==> Room(p') == Room(p) - 1)
      && (got.None? ==> p' == p)
  {
    hide AccountRoom, Sum, Bump, Take;
    var r := Pick(p, {}, 0);
    if r < |p.queue| {
      TakeUsesOne(p, p.queue[r]);
    } else if !(p.globalMax > 0 && p.globalMax <= Sum(p.inUse)) {
      forall id | id in p.queue ensures id !in p.known || Count(p, id) >= p.maxPerAccount {
        assert !Eligible(p, {}, id);
      }
      NoRoomMeansNone(p, p.queue);
    }
  }

  lemma {:induction false} RoomGrows(p: Pool, p': Pool, q: seq<string>, id: string)
    requires p'.known == p.known && p'.maxPerAccount == p.maxPerAccount && Distinct(q)
    requires forall x :: x != id ==> Count(p', x) == Count(p, x)
    requires Count(p', id) + 1 == Count(p, id)
    ensures AccountRoom(p', q) <= AccountRoom(p, q) + 1
  {
    if q != [] {
      if q[0] == id {
        RoomOfOthers(p, p', q[1..], id);
      } else {
        RoomGrows(p, p', q[1..], id);
      }
    }
  }

  /** Giving a slot back frees at most one. */
  lemma ReleaseFreesOne(p: Pool, id: string)
    requires Distinct(p.queue)
    ensures Room(Release(p, id).0) <= Room(p) + (if id == "" || Count(p, id) == 0 then 0 else 1)
  {
    hide AccountRoom, Sum;
    if id != "" && Count(p, id) > 0 {
      SumRelease(p, id);
      var p' := if Count(p, id) == 1 then p.(inUse := p.inUse - {id}) else p.(inUse := p.inUse[id := Count(p, id) - 1]);
      RoomGrows(p, p', p.queue, id);
      NotifyKeepsRoom(p');
      assert Release(p, id) == Notify(p');
    }
  }

  lemma NotifyKeepsRoom(p: Pool)
    ensures Room(Notify(p).0) == Room(p)
  {
    RoomIgnoresWaiters(p, Notify(p).0, p.queue);
  }

  lemma {:induction false} RoomIgnoresWaiters(p: Pool, p': Pool, q: seq<string>)
    requires p'.known == p.known && p'.maxPerAccount == p.maxPerAccount && p'.inUse == p.inUse
    ensures AccountRoom(p', q) == AccountRoom(p, q)
  {
    if q != [] {
      RoomIgnoresWaiters(p, p', q[1..]);
    }
  }

  // Wakeup accounting.

  lemma GotIsListed(s: System, e: Event)
    requires WellFormed(s) && e.Try?
    ensures var (p, got) := Acquire(s.pool, e.target, e.exclude);
      && Distinct(s.pool.queue)
      && (got.Some? ==> got.value in s.pool.queue && Eligible(s.pool, {}, got.value) && p == Take(s.pool, got.value))
      && (got.None? ==> p == s.pool)
  {
    hide Sum, Take;
  }

  lemma TryKeepsForm(s: System, e: Event)
    requires WellFormed(s) && e.Try? && Enabled(s, e)
    ensures WellFormed(Next(s, e))
  {
    GotIsListed(s, e);
    hide Acquire, Eligible, Take, Lists;
    var (p, got) := Acquire(s.pool, e.target, e.exclude);
    if got.Some? {
      TakeKeepsLists(s.pool, got.value);
    }
  }

  lemma TakeKeepsLists(p: Pool, id: string)
    requires Lists(p.known, p.queue)
    ensures var p' := Take(p, id); Lists(p'.known, p'.queue) && p'.waiters == p.waiters
  {
    hide Bump;
    BumpPermutes(p.queue, id);
    forall x ensures x in Take(p, id).queue <==> x in p.queue {
      assert x in multiset(Bump(p.queue, id)) <==> x in multiset(p.queue);
    }
  }

  /** The steps that lose no wakeup: an attempt that gets a slot, that leaves nobody queued, or
      without which the callers awake are enough; a cancellation of a queued caller, or of a woken
      one the others suffice without; and new limits that make no more room than, with the one they
      wake, there are callers awake. */
  ghost predicate Harmless(s: System, e: Event)
    requires Enabled(s, e)
  {
    match e
    case Try(c, target, exclude) =>
      || Acquire(s.pool, target, exclude).1.Some?
      || (s.pool.waiters == [] && !CanQueue(s.pool, target, exclude))
      || |WokenSet(s) - {c}| >= Room(s.pool)
    case GiveBack(c) => true
    case GiveUp(c) => At(s, c).Blocked? || s.pool.waiters == [] || |WokenSet(s)| > Room(s.pool)
    case NewAccounts(known, ids, maxPer, maxQueue, globalMax) => true
    case NewLimits(accounts, maxPer, maxQueue, globalMax) =>
      || |s.pool.waiters| <= 1
      || |WokenSet(s)| + 1 >= Room(ApplyLimits(s.pool, accounts, maxPer, maxQueue, globalMax).0)
  }

  lemma TryKeepsWakeupsIff(s: System, e: Event)
    requires WellFormed(s) && NoLostWakeup(s) && e.Try? && Enabled(s, e)
    ensures NoLostWakeup(Next(s, e)) <==> Harmless(s, e)
  {
    GotIsListed(s, e);
    hide Room, Acquire, WellFormed, Take, Distinct, Eligible;
    var s' := Next(s, e);
    var (p, got) := Acquire(s.pool, e.target, e.exclude);
    assert WokenSet(s') == WokenSet(s) - {e.caller};
    if got.Some? {
      TakeUsesOne(s.pool, got.value);
      assert s'.pool == Take(s.pool, got.value);
      TakeKeepsWaiters(s.pool, got.value);
    } else {
      EnqueueKeepsRoom(s.pool, e.caller);
    }
  }

  lemma TakeKeepsWaiters(p: Pool, id: string)
    ensures Take(p, id).waiters == p.waiters
  {
  }

  /** A caller without a target that has tried no account before loses no wakeup by trying. */
  lemma UntargetedIsHarmless(s: System, c: nat)
    requires WellFormed(s) && NoLostWakeup(s) && Enabled(s, Try(c, "", {}))
    ensures Harmless(s, Try(c, "", {}))
  {
    hide AccountRoom, Sum, Room, Bump;
    RoomIsAcquirable(s.pool);
  }

  lemma EnqueueKeepsRoom(p: Pool, c: nat)
    ensures Room(Enqueue(p, c)) == Room(p)
  {
    RoomIgnoresWaiters(p, Enqueue(p, c), p.queue);
  }

  lemma ReleaseWakes(p: Pool, id: string)
    ensures var (p', woken) := Release(p, id);
      && p'.queue == p.queue && p'.known == p.known
      && if id == "" || Count(p, id) == 0 || p.waiters == [] then woken == [] && p'.waiters == p.waiters
         else woken == [p.waiters[0]] && p'.waiters == p.waiters[1..]
  {
  }

  /** Waking the first of the queued callers. */
  lemma FirstWoken(s: System, p: Pool)
    requires WellFormed(s) && s.pool.waiters != []
    requires p.waiters == s.pool.waiters[1..] && p.known == s.pool.known && p.queue == s.pool.queue
    ensures var s' := System(p, Wake(s.callers, [s.pool.waiters[0]]));
      WellFormed(s') && WokenSet(s') == WokenSet(s) + {s.pool.waiters[0]} && |WokenSet(s')| == |WokenSet(s)| + 1
  {
    hide Lists, Wake;
    var q, w := s.pool.waiters, s.pool.waiters[0];
    WakeOne(s.callers, w);
    assert w in q && w in s.callers && s.callers[w].Blocked?;
    WithoutFirst(q);
    assert WokenSet(System(p, s.callers[w := Woken])) == WokenSet(s) + {w};
  }

  lemma WakeOne(callers: map<nat, Caller>, w: nat)
    ensures Wake(callers, [w]) == callers[w := Woken]
  {
  }

  lemma WithoutFirst(q: seq<nat>)
    requires q != [] && Once(q)
    ensures Once(q[1..])
    ensures forall x :: x in q[1..] <==> x in q && x != q[0]
  {
    assert q == [q[0]] + q[1..];
  }

  lemma IdleKeeps(s: System, c: nat)
    requires WellFormed(s) && At(s, c).Holding?
    ensures var s' := s.(callers := s.callers[c := Idle]); WellFormed(s') && WokenSet(s') == WokenSet(s)
  {
    hide Lists;
  }

  lemma NobodyWoken(callers: map<nat, Caller>)
    ensures Wake(callers, []) == callers
  {
  }

  lemma GiveBackKeeps(s: System, c: nat)
    requires WellFormed(s) && NoLostWakeup(s) && Enabled(s, GiveBack(c))
    ensures WellFormed(Next(s, GiveBack(c))) && NoLostWakeup(Next(s, GiveBack(c)))
  {
    assert Distinct(s.pool.queue);
    IdleKeeps(s, c);
    hide Release, Distinct, Room, Wake, WokenSet, WellFormed;
    var id := s.callers[c].id;
    var idle := s.(callers := s.callers[c := Idle]);
    var p := Release(s.pool, id).0;
    ReleaseWakes(s.pool, id);
    ReleaseFreesOne(s.pool, id);
    NobodyWoken(idle.callers);
    if Release(s.pool, id).1 == [] {
      FormIgnoresUse(idle, p);
    } else {
      FirstWoken(idle, p);
    }
  }

  lemma FormIgnoresUse(s: System, p: Pool)
    requires WellFormed(s) && p.waiters == s.pool.waiters && p.known == s.pool.known && p.queue == s.pool.queue
    ensures WellFormed(System(p, s.callers)) && WokenSet(System(p, s.callers)) == WokenSet(s)
  {
  }

  lemma NewAccountsKeeps(s: System, e: Event)
    requires WellFormed(s) && e.NewAccounts? && Enabled(s, e)
    ensures WellFormed(Next(s, e)) && NoLostWakeup(Next(s, e))
  {
    var s' := Next(s, e);
    forall x ensures !(x in s'.callers && s'.callers[x].Blocked?) {
      assert x in s.pool.waiters <==> x in s.callers && s.callers[x].Blocked?;
    }
  }

  lemma GiveUpKeepsIff(s: System, c: nat)
    requires WellFormed(s) && NoLostWakeup(s) && Enabled(s, GiveUp(c))
    ensures WellFormed(Next(s, GiveUp(c)))
    ensures NoLostWakeup(Next(s, GiveUp(c))) <==> Harmless(s, GiveUp(c))
  {
    hide AccountRoom, Sum, Room, Lists;
    var s' := Next(s, GiveUp(c));
    RemovedOnce(s.pool.waiters, c);
    RoomIsRoom(s.pool, s'.pool);
    assert At(s, c).Woken? ==> c in WokenSet(s);
    assert WokenSet(s') == WokenSet(s) - {c};
  }

  lemma RoomIsRoom(p: Pool, p': Pool)
    requires p' == p.(waiters := p'.waiters)
    ensures Room(p') == Room(p)
  {
    RoomIgnoresWaiters(p, p', p.queue);
  }

  lemma {:induction false} RemovedOnce(w: seq<nat>, c: nat)
    requires Once(w)
    ensures Once(Without(w, c)) && (forall x :: x in Without(w, c) <==> x in w && x != c)
    ensures c !in w ==> Without(w, c) == w
  {
    if w != [] {
      WithoutFirst(w);
      hide Once;
      if w[0] != c {
        RemovedOnce(w[1..], c);
        WithFirst(w[0], Without(w[1..], c));
        assert w == [w[0]] + w[1..];
      }
    }
  }

  lemma WithFirst(x: nat, q: seq<nat>)
    requires Once(q) && x !in q
    ensures Once([x] + q)
  {
  }

  lemma NewLimitsKeepIff(s: System, e: Event)
    requires WellFormed(s) && NoLostWakeup(s) && e.NewLimits?
    ensures WellFormed(Next(s, e))
    ensures NoLostWakeup(Next(s, e)) <==> Harmless(s, e)
  {
    hide Room, Wake, WokenSet, WellFormed;
    var p := ApplyLimits(s.pool, e.accounts, e.maxPer, e.maxQueue, e.globalMax).0;
    NobodyWoken(s.callers);
    if s.pool.waiters == [] {
      FormIgnoresUse(s, p);
    } else {
      FirstWoken(s, p);
    }
  }

  /** Every step keeps enough callers awake exactly if it is one of the harmless ones. */
  lemma StepKeepsIff(s: System, e: Event)
    requires WellFormed(s) && NoLostWakeup(s) && Enabled(s, e)
    ensures WellFormed(Next(s, e))
    ensures NoLostWakeup(Next(s, e)) <==> Harmless(s, e)
  {
    hide WellFormed, NoLostWakeup, Next, Acquire, Room;
    match e
    case Try(c, target, exclude) =>
      TryKeepsForm(s, e);
      TryKeepsWakeupsIff(s, e);
    case GiveBack(c) =>
      GiveBackKeeps(s, c);
    case GiveUp(c) =>
      GiveUpKeepsIff(s, c);
    case NewAccounts(known, ids, maxPer, maxQueue, globalMax) =>
      NewAccountsKeeps(s, e);
    case NewLimits(accounts, maxPer, maxQueue, globalMax) =>
      NewLimitsKeepIff(s, e);
  }

  ghost predicate AllEnabled(s: System, es: seq<Event>)
    decreases es
  {
    es != [] ==> Enabled(s, es[0]) && AllEnabled(Next(s, es[0]), es[1..])
  }

  ghost function Run(s: System, es: seq<Event>): System
    requires AllEnabled(s, es)
    decreases es
  {
    if es == [] then s else Run(Next(s, es[0]), es[1..])
  }

  ghost predicate AllHarmless(s: System, es: seq<Event>)
    requires AllEnabled(s, es)
    decreases es
  {
    es != [] ==> Harmless(s, es[0]) && AllHarmless(Next(s, es[0]), es[1..])
  }

  /** No lost wakeup: over every interleaving of harmless steps, a caller is never left queued while
      a slot is free that no awake caller will take. */
  lemma {:induction false} NoWakeupIsLost(s: System, es: seq<Event>)
    requires WellFormed(s) && NoLostWakeup(s) && AllEnabled(s, es) && AllHarmless(s, es)
    ensures WellFormed(Run(s, es)) && NoLostWakeup(Run(s, es))
    decreases es
  {
    hide WellFormed, NoLostWakeup, Next, Harmless, Enabled;
    if es != [] {
      StepKeepsIff(s, es[0]);
      NoWakeupIsLost(Next(s, es[0]), es[1..]);
    }
  }

  /** Attempts without a target or an exclude set, releases, resets. */
  predicate Plain(e: Event) {
    || (e.Try? && e.target == "" && e.exclude == {})
    || e.GiveBack? || e.NewAccounts?
  }

  /** These lose no wakeup in any order. */
  lemma {:induction false} PlainIsHarmless(s: System, es: seq<Event>)
    requires WellFormed(s) && NoLostWakeup(s) && AllEnabled(s, es)
    requires forall i :: 0 <= i < |es| ==> Plain(es[i])
    ensures AllHarmless(s, es)
    decreases es
  {
    hide WellFormed, NoLostWakeup, Next, Enabled;
    if es != [] {
      PlainStep(s, es[0]);
      PlainIsHarmless(Next(s, es[0]), es[1..]);
    }
  }

  lemma PlainStep(s: System, e: Event)
    requires WellFormed(s) && NoLostWakeup(s) && Enabled(s, e) && Plain(e)
    ensures Harmless(s, e) && WellFormed(Next(s, e)) && NoLostWakeup(Next(s, e))
  {
    hide WellFormed, NoLostWakeup, Next, Acquire, Room;
    if e.Try? {
      UntargetedIsHarmless(s, e.caller);
      assert e == Try(e.caller, "", {});
    }
    StepKeepsIff(s, e);
  }

  lemma {:induction false} NamedHas(accounts: seq<Account>, withToken: bool, id: string)
    ensures id in Named(accounts, withToken) <==>
      id != "" && exists a :: a in accounts && a.id == id && (a.token != "") == withToken
  {
    if accounts != [] {
      NamedHas(accounts[1..], withToken, id);
      assert accounts[0] in accounts;
      forall a ensures a in accounts <==> a == accounts[0] || a in accounts[1..] {
      }
    }
  }

  predicate DistinctIds(accounts: seq<Account>) {
    forall i, j :: 0 <= i < j < |accounts| ==> accounts[i].id != accounts[j].id
  }

  lemma {:induction false} NamedDistinct(accounts: seq<Account>, withToken: bool)
    requires DistinctIds(accounts)
    ensures Distinct(Named(accounts, withToken))
  {
    if accounts != [] {
      NamedDistinct(accounts[1..], withToken);
      NamedHas(accounts[1..], withToken, accounts[0].id);
      var rest := Named(accounts[1..], withToken);
      forall j | 0 <= j < |rest| ensures rest[j] in rest {
      }
    }
  }

  /** The queue a reset builds lists the accounts. */
  lemma {:induction false} InitialQueueLists(accounts: seq<Account>)
    requires DistinctIds(accounts)
    ensures Lists(set a <- accounts :: a.id, InitialQueue(accounts))
  {
    var first, second := Named(accounts, true), Named(accounts, false);
    NamedDistinct(accounts, true);
    NamedDistinct(accounts, false);
    NamedHas(accounts, true, "");
    NamedHas(accounts, false, "");
    forall i, j | 0 <= i < |first| && 0 <= j < |second| ensures first[i] != second[j] {
      NamedHas(accounts, true, first[i]);
      NamedHas(accounts, false, second[j]);
    }
    forall a | a in accounts && a.id != "" ensures a.id in InitialQueue(accounts) {
      NamedHas(accounts, a.token != "", a.id);
    }
  }

  /** A new pool nobody has called yet. */
  function Started(known: set<string>, ids: seq<string>, maxPer: int, maxQueue: int, globalMax: int): System {
    System(Pool(known, ids, map[], [], maxPer, maxQueue, globalMax), map[])
  }

  lemma StartsWell(known: set<string>, ids: seq<string>, maxPer: int, maxQueue: int, globalMax: int)
    requires Lists(known, ids)
    ensures var s := Started(known, ids, maxPer, maxQueue, globalMax); WellFormed(s) && NoLostWakeup(s)
  {
  }

  /** Whatever has happened since a pool was made: if callers are queued and nobody is awake, then
      a caller trying now would get nothing; and with callers awake, the slots that can still be
      taken are no more than they are. */
  lemma {:induction false} QueuedMeansBusy(known: set<string>, ids: seq<string>, maxPer: int, maxQueue: int,
                                           globalMax: int, es: seq<Event>)
    requires Lists(known, ids)
    requires AllEnabled(Started(known, ids, maxPer, maxQueue, globalMax), es)
    requires forall i :: 0 <= i < |es| ==> Plain(es[i])
    ensures var s := Run(Started(known, ids, maxPer, maxQueue, globalMax), es);
      s.pool.waiters != [] ==>
        && Room(s.pool) <= |WokenSet(s)|
        && (WokenSet(s) == {} ==> Acquire(s.pool, "", {}) == (s.pool, None))
  {
    hide Room, Sum, Pick, Bump, Run, AllEnabled, AllHarmless;
    var s0 := Started(known, ids, maxPer, maxQueue, globalMax);
    StartsWell(known, ids, maxPer, maxQueue, globalMax);
    PlainIsHarmless(s0, es);
    NoWakeupIsLost(s0, es);
    RoomIsAcquirable(Run(s0, es).pool);
  }

  // Steps that do lose one.

  const ONE := Pool({"a"}, ["a"], map[], [], 1, 2, 1)
  const HELD := ONE.(inUse := map["a" := 1])

  lemma SumOfOne()
    ensures Sum(map[]) == 0 && Sum(map["a" := 1]) == 1
  {
    SumUpdate(map[], "a", 1);
    assert map[]["a" := 1] == map["a" := 1];
  }

  lemma FirstTakes()
    ensures Next(System(ONE, map[]), Try(0, "", {})) == System(HELD, map[0 := Holding("a")])
  {
    SumOfOne();
    assert Bump(["a"], "a") == ["a"];
    assert Pick(ONE, {}, 0) == 0;
  }

  lemma LaterQueues(s: System, w: seq<nat>, c: nat)
    requires s.pool == HELD.(waiters := w) && |w| < 2 && Enabled(s, Try(c, "", {}))
    ensures Next(s, Try(c, "", {})) == System(HELD.(waiters := w + [c]), s.callers[c := Blocked])
  {
    SumOfOne();
    assert Pick(s.pool, {}, 0) == 1;
  }

  const ASK := [Try(0, "", {}), Try(1, "", {}), Try(2, "", {})]
  const ASKED := System(HELD.(waiters := [1, 2]), map[0 := Holding("a"), 1 := Blocked, 2 := Blocked])

  /** One account with one slot, held by caller 0; callers 1 and 2 queue. */
  lemma {:induction false} TwoAreQueued()
    ensures AllEnabled(System(ONE, map[]), ASK) && Run(System(ONE, map[]), ASK) == ASKED
    ensures WellFormed(System(ONE, map[])) && NoLostWakeup(System(ONE, map[]))
  {
    hide Next, AccountRoom;
    var s := System(ONE, map[]);
    var s1 := System(HELD, map[0 := Holding("a")]);
    FirstTakes();
    var s2 := System(HELD.(waiters := [1]), map[0 := Holding("a"), 1 := Blocked]);
    LaterQueues(s1, [], 1);
    assert s1.callers[1 := Blocked] == s2.callers && [] + [1] == [1];
    LaterQueues(s2, [1], 2);
    assert s2.callers[2 := Blocked] == ASKED.callers && [1] + [2] == [1, 2];
    assert ASK[1..] == [Try(1, "", {}), Try(2, "", {})];
    assert [Try(1, "", {}), Try(2, "", {})][1..] == [Try(2, "", {})];
    assert [Try(2, "", {})][1..] == [];
  }

  lemma RunTwo(s: System, a: Event, b: Event)
    requires Enabled(s, a) && Enabled(Next(s, a), b)
    ensures AllEnabled(s, [a, b]) && Run(s, [a, b]) == Next(Next(s, a), b)
  {
    hide Next, Enabled;
    RunOne(s, a, [b]);
    RunOne(Next(s, a), b, []);
    assert [a] + [b] == [a, b] && [b] + [] == [b];
  }

  lemma RunOne(s: System, a: Event, es: seq<Event>)
    requires Enabled(s, a)
    ensures AllEnabled(s, [a] + es) <==> AllEnabled(Next(s, a), es)
    ensures AllEnabled(Next(s, a), es) ==> Run(s, [a] + es) == Run(Next(s, a), es)
  {
    hide Next, Enabled;
    assert ([a] + es)[0] == a && ([a] + es)[1..] == es;
  }

  lemma {:induction false} RunJoin(s: System, es: seq<Event>, fs: seq<Event>)
    requires AllEnabled(s, es) && AllEnabled(Run(s, es), fs)
    ensures AllEnabled(s, es + fs) && Run(s, es + fs) == Run(Run(s, es), fs)
    decreases es
  {
    hide Next, Enabled;
    if es == [] {
      assert es + fs == fs;
    } else {
      assert (es + fs)[1..] == es[1..] + fs;
      RunJoin(Next(s, es[0]), es[1..], fs);
    }
  }

  lemma ReleaseWakesFirst()
    ensures Next(ASKED, GiveBack(0)) == System(ONE.(waiters := [2]), map[0 := Idle, 1 := Woken, 2 := Blocked])
  {
    assert map["a" := 1] - {"a"} == map[];
    assert Wake(ASKED.callers[0 := Idle], [1]) == map[0 := Idle, 1 := Woken, 2 := Blocked];
  }

  lemma RoomOfOnly(p: Pool)
    requires p == ONE.(waiters := p.waiters)
    ensures Room(p) == 1
  {
    SumOfOne();
    assert AccountRoom(p, ["a"]) == 1 + AccountRoom(p, []);
  }

  /** One account with one slot, held by caller 0; callers 1 and 2 queue; caller 0 releases, which
      wakes caller 1; caller 1 is cancelled. Caller 2 stays queued with the slot free. */
  lemma {:induction false} CancelStrandsACaller()
    ensures var es := ASK + [GiveBack(0), GiveUp(1)];
      var s := System(ONE, map[]);
      WellFormed(s) && NoLostWakeup(s) && AllEnabled(s, es)
      && var end := Run(s, es); end.pool.waiters == [2] && Room(end.pool) == 1 && WokenSet(end) == {}
  {
    hide Next, Room;
    var s := System(ONE, map[]);
    TwoAreQueued();
    ReleaseWakesFirst();
    var woken := System(ONE.(waiters := [2]), map[0 := Idle, 1 := Woken, 2 := Blocked]);
    CancelledAfterWakeup(woken);
    RunTwo(ASKED, GiveBack(0), GiveUp(1));
    RunJoin(s, ASK, [GiveBack(0), GiveUp(1)]);
    RoomOfOnly(ONE.(waiters := [2]));
  }

  lemma CancelledAfterWakeup(s: System)
    requires s == System(ONE.(waiters := [2]), map[0 := Idle, 1 := Woken, 2 := Blocked])
    ensures Next(s, GiveUp(1)) == System(ONE.(waiters := [2]), map[0 := Idle, 1 := Idle, 2 := Blocked])
  {
    assert Without([2], 1) == [2] + Without([2][1..], 1);
  }

  const RAISED := System(
    Pool({"a"}, ["a"], map["a" := 1], [2], 3, 2, 3), map[0 := Holding("a"), 1 := Woken, 2 := Blocked])

  /** The same start; the limit is raised to three slots, which wakes caller 1 alone; it takes one.
      Caller 2 stays queued with a slot free. */
  lemma {:induction false} RaisedLimitStrandsACaller()
    ensures var es := ASK + [NewLimits(1, 3, 2, 3), Try(1, "", {})];
      var s := System(ONE, map[]);
      WellFormed(s) && NoLostWakeup(s) && AllEnabled(s, es)
      && var end := Run(s, es); end.pool.waiters == [2] && Room(end.pool) == 1 && WokenSet(end) == {}
  {
    hide Next, Room;
    var s := System(ONE, map[]);
    TwoAreQueued();
    LimitRaised();
    TakesSecond();
    RunTwo(ASKED, NewLimits(1, 3, 2, 3), Try(1, "", {}));
    RunJoin(s, ASK, [NewLimits(1, 3, 2, 3), Try(1, "", {})]);
  }

  lemma LimitRaised()
    ensures Next(ASKED, NewLimits(1, 3, 2, 3)) == RAISED
  {
    assert Wake(ASKED.callers, [1]) == RAISED.callers;
  }

  lemma TakesSecond()
    ensures var end := Next(RAISED, Try(1, "", {}));
      end.pool.waiters == [2] && Room(end.pool) == 1 && WokenSet(end) == {}
  {
    SumOfOne();
    assert Bump(["a"], "a") == ["a"];
    assert Pick(RAISED.pool, {}, 0) == 0;
    var p := Take(RAISED.pool, "a");
    SumTake(RAISED.pool, "a");
    assert AccountRoom(p, ["a"]) == 1 + AccountRoom(p, []);
  }

  // A wakeup spent on a caller that cannot use it.

  const PAIR := Pool({"a", "b"}, ["a", "b"], map[], [], 1, 2, 0)
  const FULL := PAIR.(inUse := map["a" := 1, "b" := 1])

  const ASK_BOTH := [Try(0, "a", {}), Try(1, "b", {}), Try(2, "a", {}), Try(3, "", {})]
  const ALL_ASKED := System(
    FULL.(waiters := [2, 3]), map[0 := Holding("a"), 1 := Holding("b"), 2 := Blocked, 3 := Blocked])

  /** Two accounts with one slot each; callers 0 and 1 hold them; caller 2 queues for the first
      account, and caller 3 behind it for any. */
  lemma {:induction false} BothAreQueued()
    ensures AllEnabled(System(PAIR, map[]), ASK_BOTH) && Run(System(PAIR, map[]), ASK_BOTH) == ALL_ASKED
  {
    hide Next, Room, Sum, Run, AllEnabled;
    var s := System(PAIR, map[]);
    var s1 := System(PAIR.(inUse := map["a" := 1], queue := ["b", "a"]), map[0 := Holding("a")]);
    PairTakes(s, 0, "a", s1);
    var s2 := System(FULL, s1.callers[1 := Holding("b")]);
    PairTakes(s1, 1, "b", s2);
    var s3 := System(FULL.(waiters := [2]), s2.callers[2 := Blocked]);
    FullQueues(s2, 2, "a", s3);
    FullQueues(s3, 3, "", ALL_ASKED);
    RunTwo(s, Try(0, "a", {}), Try(1, "b", {}));
    RunTwo(s2, Try(2, "a", {}), Try(3, "", {}));
    RunJoin(s, [Try(0, "a", {}), Try(1, "b", {})], [Try(2, "a", {}), Try(3, "", {})]);
    assert ASK_BOTH == [Try(0, "a", {}), Try(1, "b", {})] + [Try(2, "a", {}), Try(3, "", {})];
  }

  /** The second account is released: that wakes caller 2, which cannot use it and queues again.
      Caller 3 stays queued with a slot free. */
  lemma {:induction false} TargetStrandsACaller()
    ensures var s, es := System(PAIR, map[]), ASK_BOTH + [GiveBack(1), Try(2, "a", {})];
      && WellFormed(s) && NoLostWakeup(s) && AllEnabled(s, es)
      && var end := Run(s, es); end.pool.waiters == [3, 2] && Room(end.pool) == 1 && WokenSet(end) == {}
  {
    hide Next, Room, Sum, Run, AllEnabled;
    BothAreQueued();
    var s5 := System(PAIR.(inUse := map["a" := 1], waiters := [3]), ALL_ASKED.callers[1 := Idle][2 := Woken]);
    SecondReleased(ALL_ASKED, s5);
    var s6 := System(PAIR.(inUse := map["a" := 1], waiters := [3, 2]), s5.callers[2 := Blocked]);
    FullQueues(s5, 2, "a", s6);
    RunTwo(ALL_ASKED, GiveBack(1), Try(2, "a", {}));
    RunJoin(System(PAIR, map[]), ASK_BOTH, [GiveBack(1), Try(2, "a", {})]);
    PairHasRoom(s6.pool);
  }

  lemma PairTakes(s: System, c: nat, id: string, s': System)
    requires s.pool == PAIR.(inUse := s.pool.inUse, queue := s.pool.queue) && id in s.pool.known && id !in s.pool.inUse
    requires |s.pool.queue| == 2 && s.pool.queue[0] == id && At(s, c).Idle?
    requires s'.pool == s.pool.(inUse := s.pool.inUse[id := 1], queue := [s.pool.queue[1], id])
    requires s'.callers == s.callers[c := Holding(id)]
    ensures Next(s, Try(c, id, {})) == s'
  {
    hide Sum;
    assert Eligible(s.pool, {}, id);
    assert Bump(s.pool.queue, id) == s.pool.queue[1..] + [id] == [s.pool.queue[1], id];
  }

  lemma FullQueues(s: System, c: nat, target: string, s': System)
    requires s.pool == FULL.(inUse := s.pool.inUse, waiters := s.pool.waiters) && |s.pool.waiters| < 2
    requires "a" in s.pool.inUse && s.pool.inUse["a"] == 1
    requires target == "" ==> s.pool.inUse == FULL.inUse
    requires target == "" || target == "a"
    requires At(s, c).Idle? || At(s, c).Woken?
    requires s' == System(s.pool.(waiters := s.pool.waiters + [c]), s.callers[c := Blocked])
    ensures Next(s, Try(c, target, {})) == s'
  {
    hide Sum;
    assert !Eligible(s.pool, {}, "a");
    if target == "" {
      assert !Eligible(s.pool, {}, "b");
      assert Pick(s.pool, {}, 1) == 2;
    }
  }

  lemma SecondReleased(s: System, s': System)
    requires s.pool == FULL.(waiters := [2, 3]) && At(s, 1) == Holding("b")
    requires 2 in s.callers && 3 in s.callers
    requires s' == System(PAIR.(inUse := map["a" := 1], waiters := [3]), s.callers[1 := Idle][2 := Woken])
    ensures Next(s, GiveBack(1)) == s'
  {
    assert map["a" := 1, "b" := 1] - {"b"} == map["a" := 1];
    assert Wake(s.callers[1 := Idle], [2]) == s'.callers;
  }

  lemma PairHasRoom(p: Pool)
    requires p == PAIR.(inUse := map["a" := 1], waiters := p.waiters)
    ensures Room(p) == 1
  {
    hide Sum;
    assert AccountRoom(p, ["a", "b"]) == AccountRoom(p, ["b"]) by { assert ["a", "b"][1..] == ["b"]; }
    assert AccountRoom(p, ["b"]) == 1 + AccountRoom(p, []) by { assert ["b"][1..] == []; }
  }
}
