/**
 The fields of ThreadPoolExecutor and CPUThreadPoolExecutor that threadListLock_ protects, and
 what each critical section does to them.
 */
module Pool {
  import opened Wrappers

  /** A poison task stops the worker that takes it. */
  datatype Task = Poison | Job(id: nat)

  datatype Pool = Pool(
    maxThreads: nat, minThreads: nat, active: nat,
    toJoin: nat, toStop: nat, isJoin: bool,
    list: set<nat>, stopped: seq<nat>, queue: seq<Task>,
    nextId: nat, observers: nat)

  function Min(a: int, b: int): int {
    if a <= b then a else b
  }

  /** n fresh thread ids. */
  function Ids(from: nat, n: nat): set<nat> {
    if n == 0 then {} else Ids(from, n - 1) + {from + n - 1}
  }

  lemma {:induction false} IdsAre(from: nat, n: nat)
    ensures forall i: nat :: i in Ids(from, n) <==> from <= i < from + n
  {
    if n > 0 {
      IdsAre(from, n - 1);
    }
  }

  lemma {:induction false} IdsSize(from: nat, n: nat)
    ensures |Ids(from, n)| == n
  {
    if n > 0 {
      IdsSize(from, n - 1);
      IdsAre(from, n - 1);
    }
  }

  function Poisons(n: nat): (s: seq<Task>)
    ensures |s| == n && forall i :: 0 <= i < n ==> s[i] == Poison
  {
    seq(n, _ => Poison)
  }

  // Critical sections; the poison tasks of stopThreads are given separately

  function AddThreads(p: Pool, n: nat): Pool {
    p.(list := p.list + Ids(p.nextId, n), nextId := p.nextId + n)
  }

  /** Threads setNumThreads removes. */
  function Excess(p: Pool, numThreads: nat): nat {
    if p.active > numThreads then p.active - numThreads else 0
  }

  /** Threads setNumThreads adds. */
  function Missing(p: Pool, numThreads: nat): (n: nat)
    ensures p.active <= numThreads ==> p.active + n <= numThreads
  {
    var minThreads := Min(p.minThreads, numThreads);
    var pending := |p.queue|;
    if p.active > numThreads || !(pending > 0 || p.observers > 0 || p.active < minThreads) then 0
    else
      var wanted := if p.observers > 0 then numThreads - p.active else Min(pending, numThreads - p.active);
      if p.active + wanted < minThreads then minThreads - p.active else wanted
  }

  function Resize(p: Pool, numThreads: nat): Pool {
    var p1 := p.(maxThreads := numThreads, minThreads := Min(p.minThreads, numThreads));
    var k := Excess(p, numThreads);
    if k > 0 then p1.(isJoin := false, toStop := p.toStop + k, active := numThreads)
    else AddThreads(p1, Missing(p, numThreads)).(active := p.active + Missing(p, numThreads))
  }

  /** Pending tasks get threads, one each up to the maximum; observers get all; nobody gets more than that or the minimum. */
  lemma ResizeServesPending(p: Pool, n: nat)
    ensures var p' := Resize(p, n);
            && p'.maxThreads == n && p'.minThreads == Min(p.minThreads, n) && p'.active <= n
            && p'.toStop - p.toStop == (if p.active > n then p.active - n else 0)
            && |p'.list| <= |p.list| + n
            && (p.observers > 0 ==> p'.active == n)
            && (p.observers == 0 ==>
                  p'.active == Min(n, Max(p.active + |p.queue|, p.minThreads)))
  {
    IdsAre(p.nextId, Missing(p, n));
    IdsSize(p.nextId, Missing(p, n));
    assert |p.list + Ids(p.nextId, Missing(p, n))| <= |p.list| + |Ids(p.nextId, Missing(p, n))|;
  }

  function Max(a: int, b: int): int {
    if a >= b then a else b
  }

  /** The members before the constructor's body runs. */
  function Fresh(minThreads: nat): Pool {
    Pool(0, minThreads, 0, 0, 0, false, {}, [], [], 0, 0)
  }

  /** The constructor: a first resize; a minimum given as 0 becomes 1 only afterwards. */
  function Construct(numThreads: nat, minThreads: nat): Pool {
    var p := Resize(Fresh(minThreads), numThreads);
    if minThreads == 0 then p.(minThreads := 1) else p
  }

  /** stop() and join(): joins owed by the caller afterwards. */
  function ShutdownOwed(p: Pool): nat {
    |p.list| + p.toJoin
  }

  function Shutdown(p: Pool, isJoin: bool): Pool {
    p.(maxThreads := 0, active := 0, isJoin := isJoin, toStop := p.toStop + |p.list|, toJoin := 0)
  }

  /** A worker leaves the list for the stopped queue. */
  function Stopped(p: Pool, id: nat): Pool {
    p.(list := p.list - {id}, stopped := p.stopped + [id])
  }

  /** tryDecrToStop succeeds and the worker stops. */
  function StopCounted(p: Pool, id: nat): Pool
    requires p.toStop > 0
  {
    Stopped(p.(toStop := p.toStop - 1), id)
  }

  /** tryTimeoutThread: take the worker out of the active count... */
  function BeginTimeout(p: Pool): Pool
    requires p.active > 0
  {
    p.(active := p.active - 1)
  }

  /** ...and stop it unless tasks are pending. */
  function EndTimeout(p: Pool, id: nat): Pool {
    if |p.queue| > 0 then p.(active := p.active + 1) else Stopped(p.(toJoin := p.toJoin + 1), id)
  }

  /** ensureActiveThreads behind the lock. */
  function EnsureOne(p: Pool): Pool {
    if p.active >= p.maxThreads then p else AddThreads(p, 1).(active := p.active + 1)
  }

  /** The same sections as the code writes them. */
  class ThreadPoolExecutor {
    var maxThreads: nat
    var minThreads: nat
    var activeThreads: nat
    var threadsToJoin: nat
    var threadsToStop: nat
    var isJoin: bool
    var threadList: set<nat>
    var stoppedThreads: seq<nat>
    var taskQueue: seq<Task>
    var nextId: nat
    var observers: nat

    function View(): Pool
      reads this
    {
      Pool(maxThreads, minThreads, activeThreads, threadsToJoin, threadsToStop, isJoin,
           threadList, stoppedThreads, taskQueue, nextId, observers)
    }

    constructor (numThreads: nat, min: nat)
      ensures View() == Construct(numThreads, min)
    {
      maxThreads, minThreads, activeThreads := 0, min, 0;
      threadsToJoin, threadsToStop, isJoin := 0, 0, false;
      threadList, stoppedThreads, taskQueue := {}, [], [];
      nextId, observers := 0, 0;
      new;
      assert View() == Fresh(min);
      var toJoin := SetNumThreads(numThreads);
      assert toJoin == 0 && taskQueue == [];
      assert View() == Resize(Fresh(min), numThreads);
      if min == 0 {
        minThreads := 1;
      }
    }

    method MakeThreads(n: nat)
      modifies this`threadList, this`nextId
      ensures View() == AddThreads(old(View()), n)
    {
      var newThreads: seq<nat> := [];
      var start := nextId;
      for i := 0 to n
        invariant nextId == start + i && |newThreads| == i
        invariant forall j :: 0 <= j < i ==> newThreads[j] == start + j
        invariant threadList == old(threadList)
      {
        newThreads := newThreads + [nextId];
        nextId := nextId + 1;
      }
      for i := 0 to n
        invariant threadList == old(threadList) + Ids(start, i)
        invariant nextId == start + n
      {
        assert Ids(start, i + 1) == Ids(start, i) + {newThreads[i]};
        threadList := threadList + {newThreads[i]};
      }
    }

    method StopThreads(n: nat)
      modifies this`threadsToStop, this`taskQueue
      ensures View() == old(View()).(toStop := old(threadsToStop) + n, queue := old(taskQueue) + Poisons(n))
    {
      threadsToStop := threadsToStop + n;
      for i := 0 to n
        invariant threadsToStop == old(threadsToStop) + n
        invariant taskQueue == old(taskQueue) + Poisons(i)
      {
        assert Poisons(i + 1) == Poisons(i) + [Poison];
        taskQueue := taskQueue + [Poison];
      }
    }

    method RemoveThreads(n: nat, join: bool)
      modifies this`isJoin, this`threadsToStop, this`taskQueue
      ensures View() == old(View()).(isJoin := join, toStop := old(threadsToStop) + n,
                                     queue := old(taskQueue) + Poisons(n))
    {
      isJoin := join;
      StopThreads(n);
    }

    /** The branch of setNumThreads that may start threads. */
    method Grow(numThreads: nat)
      requires activeThreads <= numThreads && minThreads <= numThreads
      modifies this`threadList, this`nextId, this`activeThreads
      ensures View() == AddThreads(old(View()), Missing(old(View()), numThreads))
                        .(active := old(activeThreads) + Missing(old(View()), numThreads))
    {
      ghost var p := View();
      var pending := |taskQueue|;
      var active := activeThreads;
      if pending > 0 || observers > 0 || active < minThreads {
        var numToAdd := if pending <= numThreads - active then pending else numThreads - active;
        if observers > 0 {
          numToAdd := numThreads - active;
        }
        if active + numToAdd < minThreads {
          numToAdd := minThreads - active;
        }
        assert numToAdd == Missing(p, numThreads);
        MakeThreads(numToAdd);
        activeThreads := active + numToAdd;
      } else {
        assert Missing(p, numThreads) == 0;
      }
    }

    /** The locked part of setNumThreads; the result is how many threads the caller then joins. */
    method SetNumThreads(numThreads: nat) returns (numThreadsToJoin: nat)
      modifies this
      ensures numThreadsToJoin == Excess(old(View()), numThreads)
      ensures View() == Resize(old(View()), numThreads).(queue := old(taskQueue) + Poisons(numThreadsToJoin))
    {
      numThreadsToJoin := 0;
      maxThreads := numThreads;
      var active := activeThreads;
      var minthreads := minThreads;
      if numThreads < minthreads {
        minthreads := numThreads;
        minThreads := numThreads;
      }
      if active > numThreads {
        numThreadsToJoin := active - numThreads;
        assert numThreadsToJoin <= active - minthreads;
        RemoveThreads(numThreadsToJoin, false);
        activeThreads := numThreads;
      } else {
        Grow(numThreads);
        assert taskQueue == old(taskQueue) + Poisons(0);
      }
    }

    /** The locked part of stop() and join(). */
    method BeginShutdown(join: bool) returns (n: nat)
      modifies this
      ensures n == ShutdownOwed(old(View()))
      ensures View() == Shutdown(old(View()), join).(queue := old(taskQueue) + Poisons(|old(threadList)|))
    {
      maxThreads := 0;
      activeThreads := 0;
      n := |threadList|;
      RemoveThreads(n, join);
      n := n + threadsToJoin;
      threadsToJoin := 0;
    }

    method TryDecrToStop() returns (ok: bool)
      modifies this`threadsToStop
      ensures ok == (old(threadsToStop) > 0)
      ensures View() == old(View()).(toStop := if ok then old(threadsToStop) - 1 else old(threadsToStop))
    {
      var toStop := threadsToStop;
      if toStop <= 0 {
        return false;
      }
      threadsToStop := toStop - 1;
      return true;
    }

    /** True takes the worker out of the active count for good, and never below minThreads_. */
    method TryTimeoutThread() returns (ok: bool)
      modifies this`activeThreads, this`threadsToJoin
      ensures ok == (old(activeThreads) > minThreads && taskQueue == [])
      ensures View() == if ok then old(View()).(active := old(activeThreads) - 1, toJoin := old(threadsToJoin) + 1)
                        else old(View())
      ensures activeThreads < old(activeThreads) ==> activeThreads >= minThreads
    {
      if !(activeThreads > minThreads) {
        return false;
      }
      activeThreads := activeThreads - 1;
      if |taskQueue| > 0 {
        activeThreads := activeThreads + 1;
        return false;
      }
      threadsToJoin := threadsToJoin + 1;
      return true;
    }

    /** The locked part of threadRun after a timed-out take or a poison task. */
    method StopIfDue(thread: nat, task: Option<Task>) returns (stop: bool)
      modifies this
      ensures stop == (old(threadsToStop) > 0 || (task.None? && old(activeThreads) > minThreads && taskQueue == []))
      ensures View() == if old(threadsToStop) > 0 then StopCounted(old(View()), thread)
                        else if stop then EndTimeout(BeginTimeout(old(View())), thread)
                        else old(View())
    {
      stop := TryDecrToStop();
      if !stop && task.None? {
        stop := TryTimeoutThread();
      }
      if stop {
        threadList := threadList - {thread};
        stoppedThreads := stoppedThreads + [thread];
      }
    }

    method EnsureActiveThreadsLocked()
      modifies this
      ensures View() == EnsureOne(old(View()))
    {
      var active := activeThreads;
      var total := maxThreads;
      if active >= total {
        return;
      }
      MakeThreads(1);
      activeThreads := active + 1;
    }

    /** Threads leave while others wait: any that are to stop, and any that time out while they may. */
    method WorkersStop() returns (arrived: seq<nat>)
      modifies this
      ensures Departed(old(View()), View(), arrived)
    {
      var burst: seq<(nat, Option<Task>)> := *;
      arrived := [];
      NobodyDeparted(View());
      for i := 0 to |burst|
        invariant Departed(old(View()), View(), arrived)
      {
        if burst[i].0 in threadList {
          ghost var before := View();
          var stop := StopIfDue(burst[i].0, burst[i].1);
          if stop {
            OneDeparted(before, View(), burst[i].0);
            DepartedMore(old(View()), before, arrived, before, View(), [burst[i].0]);
            arrived := arrived + [burst[i].0];
          }
        }
      }
    }

    /**
     Joins threads in the order they stop, those that stop or time out meanwhile included. If fewer
     than n were joined the call is still waiting: nothing is left to join.
     */
    method JoinStoppedThreads(n: nat) returns (joined: seq<nat>, arrived: seq<nat>)
      modifies this
      ensures joined + stoppedThreads == old(stoppedThreads) + arrived
      ensures |joined| <= n && (|joined| < n ==> stoppedThreads == [])
      ensures Departed(old(View()), View().(stopped := old(stoppedThreads) + arrived), arrived)
    {
      joined, arrived := [], [];
      NobodyDeparted(View());
      assert stoppedThreads + [] == stoppedThreads;
      while |joined| < n
        invariant joined + stoppedThreads == old(stoppedThreads) + arrived && |joined| <= n
        invariant Departed(old(View()), View().(stopped := old(stoppedThreads) + arrived), arrived)
        decreases n - |joined|
      {
        ghost var waiting := stoppedThreads;
        ghost var before := View();
        var more := WorkersStop();
        DepartedMore(old(View()), before.(stopped := old(stoppedThreads) + arrived), arrived, before, View(), more);
        assert joined + (waiting + more) == (joined + waiting) + more;
        assert (old(stoppedThreads) + arrived) + more == old(stoppedThreads) + (arrived + more);
        arrived := arrived + more;
        if stoppedThreads == [] {
          return;
        }
        ghost var first := stoppedThreads;
        assert joined + first == (joined + [first[0]]) + first[1..];
        joined := joined + [stoppedThreads[0]];
        stoppedThreads := stoppedThreads[1..];
      }
    }
  }

  /**
   The given threads have left p, in this order: each was counted off threadsToStop_, or timed out
   and is counted in threadsToJoin_, which takes it out of the active count. Nothing else changes.
   */
  predicate Departed(p: Pool, p': Pool, gone: seq<nat>) {
    && p'.stopped == p.stopped + gone
    && |gone| == (p.toStop - p'.toStop) + (p'.toJoin - p.toJoin) && p'.toStop <= p.toStop && p.toJoin <= p'.toJoin
    && p.active - p'.active == p'.toJoin - p.toJoin
    && (p'.toJoin > p.toJoin ==> p'.active >= p.minThreads)
    && p' == p.(list := p.list - (set x | x in gone), stopped := p'.stopped,
                toStop := p'.toStop, toJoin := p'.toJoin, active := p'.active)
  }

  lemma DepartedMore(p: Pool, p1: Pool, gone: seq<nat>, q1: Pool, q2: Pool, more: seq<nat>)
    requires Departed(p, p1, gone) && Departed(q1, q2, more) && q1 == p1.(stopped := q1.stopped)
    ensures Departed(p, q2.(stopped := p.stopped + (gone + more)), gone + more)
  {
    assert (set x | x in gone + more) == (set x | x in gone) + (set x | x in more);
    assert p.list - (set x | x in gone) - (set x | x in more) == p.list - (set x | x in gone + more);
  }

  lemma OneDeparted(p: Pool, p': Pool, id: nat)
    requires (p.toStop > 0 && p' == StopCounted(p, id))
             || (p.toStop == 0 && p.active > p.minThreads && p.queue == [] && p' == EndTimeout(BeginTimeout(p), id))
    ensures Departed(p, p', [id])
  {
    assert (set x | x in [id]) == {id};
  }

  lemma NobodyDeparted(p: Pool)
    ensures Departed(p, p, [])
  {
    var nobody: seq<nat> := [];
    assert (set x | x in nobody) == {};
    assert p.stopped + [] == p.stopped;
    assert p.list - {} == p.list;
  }
}
