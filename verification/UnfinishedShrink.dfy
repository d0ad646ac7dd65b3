/**
 A run, all of its calls returned, after which stop() and join() hang: setNumThreads joins as many
 threads as it removes, but which ones is not said. It may join one that had timed out before,
 and return while the thread it removed has yet to stop.
 */
module UnfinishedShrink {
  import opened Pool
  import opened PoolRuns
  import opened PoolShutdown

  /** An executor with one observer, at most two threads wanted and one at least. */
  function TwoThreads(active: nat, toJoin: nat, list: set<nat>, stopped: seq<nat>): Pool {
    Pool(2, 1, active, toJoin, 0, false, list, stopped, [], 2, 1)
  }

  /** The same after setNumThreads(0), with one thread to stop and one timed out before. */
  function Shrunk(stopped: seq<nat>, queue: seq<Task>): Pool {
    Pool(0, 0, 0, 1, 1, false, {1}, stopped, queue, 2, 1)
  }

  function Resting(p: Pool, value: nat, workers: map<nat, Worker>): State {
    State(p, value, workers, map[], Free, {})
  }

  function Called(p: Pool, value: nat, workers: map<nat, Worker>, x: Caller, lock: Lock): State {
    State(p, value, workers, map[0 := x], lock, {})
  }

  const ONE: Pool := Pool(1, 1, 1, 0, 0, false, {0}, [], [], 1, 1)
  const BOTH: map<nat, Worker> := map[0 := Top, 1 := Top]
  const LAST: map<nat, Worker> := map[1 := Top]

  lemma FirstThread()
    ensures Constructed(1, 1, 1) == Resting(ONE, 0, map[0 := Top])
  {
    assert Ids(0, 0) == {} && Ids(0, 1) == {0};
    assert StartWorkers(map[], 0, 0) == map[] && StartWorkers(map[], 0, 1) == map[0 := Top];
  }

  lemma SecondThread()
    ensures Leads(Resting(ONE, 0, map[0 := Top]), SetNumThreads(0, 2),
                  Called(TwoThreads(2, 0, {0, 1}, []), 0, BOTH, Joining(0, false), Free))
  {
    var s := Resting(ONE, 0, map[0 := Top]);
    assert Excess(s.p, 2) == 0 && Missing(s.p, 2) == 1;
    assert Ids(1, 0) == {} && Ids(1, 1) == {1};
    assert StartWorkers(s.workers, 1, 0) == s.workers && StartWorkers(s.workers, 1, 1) == BOTH;
  }

  lemma SecondThreadDone()
    ensures Leads(Called(TwoThreads(2, 0, {0, 1}, []), 0, BOTH, Joining(0, false), Free), JoinDone(0),
                  Resting(TwoThreads(2, 0, {0, 1}, []), 0, BOTH))
  {
  }

  lemma TwoThreadsRunning()
    ensures Reachable(Resting(TwoThreads(2, 0, {0, 1}, []), 0, BOTH))
  {
    ReachConstructed(1, 1, 1);
    FirstThread();
    SecondThread();
    var s := Called(TwoThreads(2, 0, {0, 1}, []), 0, BOTH, Joining(0, false), Free);
    ReachStep(Constructed(1, 1, 1), SetNumThreads(0, 2), s);
    SecondThreadDone();
    ReachStep(s, JoinDone(0), Resting(TwoThreads(2, 0, {0, 1}, []), 0, BOTH));
  }

  // Thread 0 times out and stops; nobody has joined it yet

  lemma Waits()
    ensures Leads(Resting(TwoThreads(2, 0, {0, 1}, []), 0, BOTH), WorkerWait(0),
                  Resting(TwoThreads(2, 0, {0, 1}, []), 0, map[0 := Asleep, 1 := Top]))
  {
  }

  lemma TimesOut()
    ensures Leads(Resting(TwoThreads(2, 0, {0, 1}, []), 0, map[0 := Asleep, 1 := Top]), WorkerTimeOut(0),
                  Resting(TwoThreads(2, 0, {0, 1}, []), 0, map[0 := TimedOut, 1 := Top]))
  {
  }

  function DecidingState(): State {
    State(TwoThreads(1, 0, {0, 1}, []), 0, map[0 := Deciding, 1 := Top], map[], HeldByWorker(0), {})
  }

  lemma Locks()
    ensures Leads(Resting(TwoThreads(2, 0, {0, 1}, []), 0, map[0 := TimedOut, 1 := Top]), WorkerLock(0), DecidingState())
  {
  }

  lemma Stops()
    ensures Leads(DecidingState(), WorkerDecide(0), Resting(TwoThreads(1, 1, {1}, [0]), 0, LAST))
  {
    assert {0, 1} - {0} == {1};
    assert DecidingState().workers - {0} == LAST;
  }

  lemma OneStopped()
    ensures Reachable(Resting(TwoThreads(1, 1, {1}, [0]), 0, LAST))
  {
    TwoThreadsRunning();
    var p := TwoThreads(2, 0, {0, 1}, []);
    Waits();
    ReachStep(Resting(p, 0, BOTH), WorkerWait(0), Resting(p, 0, map[0 := Asleep, 1 := Top]));
    TimesOut();
    ReachStep(Resting(p, 0, map[0 := Asleep, 1 := Top]), WorkerTimeOut(0), Resting(p, 0, map[0 := TimedOut, 1 := Top]));
    Locks();
    ReachStep(Resting(p, 0, map[0 := TimedOut, 1 := Top]), WorkerLock(0), DecidingState());
    Stops();
    ReachStep(DecidingState(), WorkerDecide(0), Resting(TwoThreads(1, 1, {1}, [0]), 0, LAST));
  }

  // setNumThreads(0) asks thread 1 to stop, but joins thread 0 and returns

  lemma Shrinks()
    ensures Leads(Resting(TwoThreads(1, 1, {1}, [0]), 0, LAST), SetNumThreads(0, 0),
                  Called(Shrunk([0], []), 0, LAST, Poisoning(1, false, 1), HeldByCaller(0)))
  {
    var s := Resting(TwoThreads(1, 1, {1}, [0]), 0, LAST);
    assert Excess(s.p, 0) == 1;
    assert StartWorkers(s.workers, 2, 0) == s.workers;
  }

  lemma Poisons()
    ensures Leads(Called(Shrunk([0], []), 0, LAST, Poisoning(1, false, 1), HeldByCaller(0)), PoisonEnqueue(0),
                  Called(Shrunk([0], [Poison]), 0, LAST, Poisoning(0, true, 1), HeldByCaller(0)))
  {
  }

  lemma Posts()
    ensures Leads(Called(Shrunk([0], [Poison]), 0, LAST, Poisoning(0, true, 1), HeldByCaller(0)), PoisonPost(0, 0),
                  Called(Shrunk([0], [Poison]), 1, LAST, Poisoning(0, false, 1), HeldByCaller(0)))
  {
  }

  lemma Unlocks()
    ensures Leads(Called(Shrunk([0], [Poison]), 1, LAST, Poisoning(0, false, 1), HeldByCaller(0)), PoisonDone(0),
                  Called(Shrunk([0], [Poison]), 1, LAST, Joining(1, false), Free))
  {
  }

  lemma ShrinkUnlocks()
    ensures Reachable(Called(Shrunk([0], [Poison]), 1, LAST, Joining(1, false), Free))
  {
    OneStopped();
    var s0 := Called(Shrunk([0], []), 0, LAST, Poisoning(1, false, 1), HeldByCaller(0));
    var s1 := Called(Shrunk([0], [Poison]), 0, LAST, Poisoning(0, true, 1), HeldByCaller(0));
    var s2 := Called(Shrunk([0], [Poison]), 1, LAST, Poisoning(0, false, 1), HeldByCaller(0));
    Shrinks();
    ReachStep(Resting(TwoThreads(1, 1, {1}, [0]), 0, LAST), SetNumThreads(0, 0), s0);
    Poisons();
    ReachStep(s0, PoisonEnqueue(0), s1);
    Posts();
    ReachStep(s1, PoisonPost(0, 0), s2);
    Unlocks();
    ReachStep(s2, PoisonDone(0), Called(Shrunk([0], [Poison]), 1, LAST, Joining(1, false), Free));
  }

  lemma Joins()
    ensures Leads(Called(Shrunk([0], [Poison]), 1, LAST, Joining(1, false), Free), JoinOne(0),
                  Called(Shrunk([], [Poison]), 1, LAST, Joining(0, false), Free))
    ensures Leads(Called(Shrunk([], [Poison]), 1, LAST, Joining(0, false), Free), JoinDone(0),
                  Resting(Shrunk([], [Poison]), 1, LAST))
  {
  }

  lemma ShrinkReturns()
    ensures Reachable(Resting(Shrunk([], [Poison]), 1, LAST))
  {
    ShrinkUnlocks();
    var s := Called(Shrunk([], [Poison]), 1, LAST, Joining(0, false), Free);
    Joins();
    ReachStep(Called(Shrunk([0], [Poison]), 1, LAST, Joining(1, false), Free), JoinOne(0), s);
    ReachStep(s, JoinDone(0), Resting(Shrunk([], [Poison]), 1, LAST));
  }

  /** Every call has returned; stop() or join() started now never does, whatever the threads do. */
  lemma StopMayHang() returns (s: State)
    ensures Reachable(s) && s.callers == map[] && s.p.toStop == 1
    ensures forall c, isJoin, trace: seq<State>, i ::
              ShutdownRun(s, c, isJoin, trace) && 0 <= i < |trace| ==> c in trace[i].callers
  {
    ShrinkReturns();
    s := Resting(Shrunk([], [Poison]), 1, LAST);
    HangsFrom(s);
  }

  lemma HangsFrom(s: State)
    requires s.callers == map[] && s.p.toStop > 0
    ensures forall c, isJoin, trace: seq<State>, i ::
              ShutdownRun(s, c, isJoin, trace) && 0 <= i < |trace| ==> c in trace[i].callers
  {
    forall c, isJoin, trace: seq<State>, i | ShutdownRun(s, c, isJoin, trace) && 0 <= i < |trace|
      ensures c in trace[i].callers
    {
      ShutdownNeverReturns(s, c, isJoin, trace, i);
    }
  }
}
