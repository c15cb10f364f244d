/** The account pool as the source keeps it: fields changed under one mutex. Each critical section
    is proved to be one atomic step of `PoolModel`. */
module AccountPool {
  import opened Options
  import opened PoolModel

  class SlotPool {
    var known: set<string>
    var queue: seq<string>
    var inUse: map<string, nat>
    var waiters: seq<nat>
    var maxInflightPerAccount: int
    var maxQueueSize: int
    var globalMaxInflight: int

    ghost function Abs(): Pool
      reads this
    {
      Pool(known, queue, inUse, waiters, maxInflightPerAccount, maxQueueSize, globalMaxInflight)
    }

    constructor (accounts: seq<Account>, maxPer: int, maxQueue: int, globalMax: int)
      ensures Abs() == Pool(set a <- accounts :: a.id, InitialQueue(accounts), map[], [], maxPer, maxQueue, globalMax)
    {
      known := set a <- accounts :: a.id;
      queue, inUse, waiters := InitialQueue(accounts), map[], [];
      maxInflightPerAccount, maxQueueSize, globalMaxInflight := maxPer, maxQueue, globalMax;
    }

    method CurrentInUse() returns (total: nat)
      ensures total == Sum(inUse)
    {
      total := 0;
      var left := inUse;
      while left != map[]
        invariant left.Keys <= inUse.Keys && forall k :: k in left ==> left[k] == inUse[k]
        invariant total + Sum(left) == Sum(inUse)
        decreases |left|
      {
        var id :| id in left;
        SumSplit(left, id);
        total := total + left[id];
        assert (left - {id}).Keys == left.Keys - {id};
        left := left - {id};
      }
    }

    method CanAcquireID(id: string) returns (ok: bool)
      ensures ok == CanAcquire(Abs(), id)
    {
      if id == "" {
        return false;
      }
      if (if id in inUse then inUse[id] else 0) >= maxInflightPerAccount {
        return false;
      }
      if globalMaxInflight > 0 {
        var total := CurrentInUse();
        if total >= globalMaxInflight {
          return false;
        }
      }
      ok := true;
    }

    /** The rotation loop of `bumpQueue`. */
    method BumpQueue(id: string)
      modifies this`queue
      ensures queue == Bump(old(queue), id)
    {
      for i := 0 to |queue|
        invariant queue == old(queue)
        invariant Bump(queue, id) == queue[..i] + Bump(queue[i..], id)
      {
        if queue[i] == id {
          queue := queue[..i] + queue[i + 1..] + [id];
          return;
        }
        assert queue[..i + 1] == queue[..i] + [queue[i]];
      }
    }

    method TakeSlot(id: string)
      modifies this`inUse, this`queue
      ensures Abs() == Take(old(Abs()), id)
    {
      inUse := inUse[id := (if id in inUse then inUse[id] else 0) + 1];
      BumpQueue(id);
    }

    method TryAcquire(exclude: set<string>) returns (r: Option<string>)
      modifies this`inUse, this`queue
      ensures (Abs(), r) == Acquire(old(Abs()), "", exclude)
    {
      for i := 0 to |queue|
        invariant Abs() == old(Abs())
        invariant Pick(Abs(), exclude, 0) == Pick(Abs(), exclude, i)
      {
        var id := queue[i];
        if id in exclude {
          continue;
        }
        var ok := CanAcquireID(id);
        if !ok || id !in known {
          continue;
        }
        TakeSlot(id);
        return Some(id);
      }
      r := None;
    }

    method AcquireLocked(target: string, exclude: set<string>) returns (r: Option<string>)
      modifies this`inUse, this`queue
      ensures (Abs(), r) == Acquire(old(Abs()), target, exclude)
    {
      if target != "" {
        if target in exclude {
          return None;
        }
        var ok := CanAcquireID(target);
        if !ok || target !in known {
          return None;
        }
        TakeSlot(target);
        return Some(target);
      }
      r := TryAcquire(exclude);
    }

    method CanQueueLocked(target: string, exclude: set<string>) returns (ok: bool)
      ensures ok == CanQueue(Abs(), target, exclude)
    {
      if target != "" && (target in exclude || target !in known) {
        return false;
      }
      if maxQueueSize <= 0 {
        return false;
      }
      ok := |waiters| < maxQueueSize;
    }

    /** One locked section of `AcquireWait`: take a slot, or join the waiters, or give up. */
    method AcquireOrQueue(caller: nat, target: string, exclude: set<string>) returns (r: Option<string>, queued: bool)
      modifies this
      ensures var (p, got) := Acquire(old(Abs()), target, exclude);
        && r == got
        && queued == (got.None? && CanQueue(old(Abs()), target, exclude))
        && Abs() == if queued then Enqueue(p, caller) else p
    {
      queued := false;
      r := AcquireLocked(target, exclude);
      if r.None? {
        queued := CanQueueLocked(target, exclude);
        if queued {
          waiters := waiters + [caller];
        }
      }
    }

    method NotifyWaiterLocked() returns (woken: seq<nat>)
      modifies this`waiters
      ensures (Abs(), woken) == Notify(old(Abs()))
    {
      if |waiters| == 0 {
        return [];
      }
      woken := [waiters[0]];
      waiters := waiters[1..];
    }

    /** The search loop of `removeWaiterLocked`. */
    method RemoveWaiterLocked(caller: nat) returns (removed: bool)
      modifies this`waiters
      ensures Abs() == RemoveWaiter(old(Abs()), caller)
      ensures removed <==> caller in old(waiters)
    {
      for i := 0 to |waiters|
        invariant waiters == old(waiters) && caller !in waiters[..i]
        invariant Without(waiters, caller) == waiters[..i] + Without(waiters[i..], caller)
      {
        if waiters[i] == caller {
          waiters := waiters[..i] + waiters[i + 1..];
          return true;
        }
        assert waiters[..i + 1] == waiters[..i] + [waiters[i]];
      }
      removed := false;
    }

    method Release(id: string) returns (woken: seq<nat>)
      modifies this
      ensures (Abs(), woken) == PoolModel.Release(old(Abs()), id)
    {
      woken := [];
      if id == "" {
        return;
      }
      var count := if id in inUse then inUse[id] else 0;
      if count <= 0 {
        return;
      }
      if count == 1 {
        inUse := inUse - {id};
        woken := NotifyWaiterLocked();
        return;
      }
      inUse := inUse[id := count - 1];
      woken := NotifyWaiterLocked();
    }

    method Reset(accounts: seq<Account>, maxPer: int, maxQueue: int, globalMax: int) returns (woken: seq<nat>)
      modifies this
      ensures (Abs(), woken)
        == PoolModel.Reset(old(Abs()), set a <- accounts :: a.id, InitialQueue(accounts), maxPer, maxQueue, globalMax)
    {
      woken := waiters;
      waiters := [];
      known := set a <- accounts :: a.id;
      queue, inUse := InitialQueue(accounts), map[];
      maxInflightPerAccount, maxQueueSize, globalMaxInflight := maxPer, maxQueue, globalMax;
    }

    method ApplyRuntimeLimits(accounts: nat, maxPer: int, maxQueue: int, globalMax: int) returns (woken: seq<nat>)
      modifies this
      ensures (Abs(), woken) == ApplyLimits(old(Abs()), accounts, maxPer, maxQueue, globalMax)
    {
      var per, queueLimit, total := maxPer, maxQueue, globalMax;
      if per <= 0 {
        per := 1;
      }
      if queueLimit < 0 {
        queueLimit := 0;
      }
      if total <= 0 {
        total := per * accounts;
        if total <= 0 {
          total := per;
        }
      }
      maxInflightPerAccount, maxQueueSize, globalMaxInflight := per, queueLimit, total;
      woken := NotifyWaiterLocked();
    }
  }
}
