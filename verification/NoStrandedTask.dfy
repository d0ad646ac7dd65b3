/**
 A queued task always has a worker, or somebody about to start one, although add() decides without
 the lock whether to start a thread while idle workers leave: over all runs, from the constructor or
 from any later state at rest, that do not ask for fewer than one thread and do not shut down.
 */
module NoStrandedTask {
  import opened Counting
  import opened Pool
  import opened PoolRuns

  predicate KeepsPool(step: Step) {
    !step.StopOrJoin? && (step.SetNumThreads? ==> step.n >= 1)
  }

  ghost predicate OpenStep(s: State, step: Step, s': State) {
    KeepsPool(step) && Enabled(s, step) && s' == Apply(s, step)
  }

  ghost predicate OpenNext(s: State, s': State) {
    exists step :: OpenStep(s, step, s')
  }

  ghost predicate OpenStepAt(trace: seq<State>, i: nat)
    requires i + 1 < |trace|
  {
    OpenNext(trace[i], trace[i + 1])
  }

  ghost predicate OpenSteps(trace: seq<State>) {
    |trace| > 0 && forall i: nat :: i + 1 < |trace| ==> OpenStepAt(trace, i)
  }

  /** Threads are allowed, nobody is inside add(), and no task or stop waits without an active thread. */
  ghost predicate AtRest(s: State) {
    && s.lock.Free? && s.p.maxThreads >= 1
    && (s.p.queue != [] || s.p.toStop > 0 ==> s.p.active >= 1)
    && forall c :: c in s.callers ==> s.callers[c].Joining? && !s.callers[c].resume
  }

  ghost predicate OpenRun(trace: seq<State>) {
    OpenSteps(trace) && Reachable(trace[0]) && AtRest(trace[0])
  }

  /** Between the enqueue of add() and the end of ensureActiveThreads. */
  predicate AfterEnqueue(x: Caller) {
    || x.AddUnposted? || x.EnsureStart? || x.EnsureWantsJoin? || (x.Joining? && x.resume)
    || x.EnsureLoad? || x.EnsureSawActive? || x.EnsureWantsLock?
  }

  /** There, and still bound to start a thread if it finds none active. */
  predicate WillEnsure(x: Caller) {
    AfterEnqueue(x) && (x.AddUnposted? ==> x.may) && (x.EnsureSawActive? ==> x.active == 0)
  }

  predicate WillEnsureAt(s: State, c: nat) {
    c in s.callers && WillEnsure(s.callers[c])
  }

  /** Somebody will serve the queue. */
  ghost predicate Served(s: State) {
    s.p.active >= 1 || s.lock.HeldByWorker? || exists c :: WillEnsureAt(s, c)
  }

  /** What a caller has read, without the lock, that still binds the pool. */
  predicate ViewSound(p: Pool, x: Caller) {
    match x
    case AddSawMin(_) => p.minThreads >= 1
    case AddSawActive(_, active) => p.minThreads >= 1 && (active >= 1 ==> p.active >= 1)
    case AddDecided(_, may) => may || (p.minThreads >= 1 && p.active >= 1)
    case AddUnposted(may) => may || (p.minThreads >= 1 && p.active >= 1)
    case _ => true
  }

  ghost predicate ViewsSound(s: State) {
    forall c :: c in s.callers ==> ViewSound(s.p, s.callers[c])
  }

  /** A shrink leaves a thread active, and no idle worker leaves while one is unfinished. */
  predicate Sized(s: State) {
    && s.p.maxThreads >= 1
    && (s.p.toStop > 0 ==> s.p.active >= 1 && !s.lock.HeldByWorker?)
    && (s.lock.HeldByCaller? ==> s.p.active >= 1)
  }

  ghost predicate Guarded(s: State) {
    ViewsSound(s) && Sized(s) && (s.p.queue != [] ==> Served(s))
  }

  /** The minimum, once at least one, keeps a thread active against idle timeouts and shrinks. */
  predicate Steady(p: Pool, p': Pool) {
    && (p.minThreads >= 1 ==> p'.minThreads >= 1)
    && (p.minThreads >= 1 && p.active >= 1 ==> p'.active >= 1)
  }

  lemma StepSteady(s: State, step: Step)
    requires KeepsPool(step) && Enabled(s, step)
    ensures Steady(s.p, Apply(s, step).p)
  {
  }

  lemma StepSized(s: State, step: Step)
    requires LockInv(s) && Sized(s) && KeepsPool(step) && Enabled(s, step)
    ensures Sized(Apply(s, step))
  {
    if IsWorkerStep(step) {
      WorkerStepSized(s, step);
    } else {
      CallerStepSized(s, step);
    }
  }

  lemma WorkerStepSized(s: State, step: Step)
    requires LockInv(s) && Sized(s) && IsWorkerStep(step) && Enabled(s, step)
    ensures Sized(Apply(s, step))
  {
  }

  lemma CallerStepSized(s: State, step: Step)
    requires LockInv(s) && Sized(s) && !IsWorkerStep(step) && KeepsPool(step) && Enabled(s, step)
    ensures Sized(Apply(s, step))
  {
  }

  lemma WorkerStepViews(s: State, step: Step)
    requires ViewsSound(s) && IsWorkerStep(step) && Enabled(s, step)
    ensures ViewsSound(Apply(s, step))
  {
    StepSteady(s, step);
    var s' := Apply(s, step);
    assert s'.callers == s.callers;
    forall c | c in s'.callers ensures ViewSound(s'.p, s'.callers[c]) {
      assert ViewSound(s.p, s.callers[c]);
    }
  }

  /** What the stepping caller has read is sound. */
  lemma OwnView(s: State, step: Step)
    requires !IsWorkerStep(step) && Enabled(s, step) && s.p.maxThreads >= 1 && KeepsPool(step)
    requires step.c in s.callers ==> ViewSound(s.p, s.callers[step.c])
    ensures step.c in Apply(s, step).callers ==> ViewSound(Apply(s, step).p, Apply(s, step).callers[step.c])
  {
  }

  /** The others' views are kept by Steady. */
  lemma CallerStepViews(s: State, step: Step)
    requires ViewsSound(s) && s.p.maxThreads >= 1 && !IsWorkerStep(step) && KeepsPool(step) && Enabled(s, step)
    ensures ViewsSound(Apply(s, step))
  {
    var s' := Apply(s, step);
    StepSteady(s, step);
    OwnView(s, step);
    forall c | c in s'.callers ensures ViewSound(s'.p, s'.callers[c]) {
      if c != step.c {
        assert c in s.callers && s'.callers[c] == s.callers[c] && ViewSound(s.p, s.callers[c]);
      }
    }
  }

  lemma WorkerStepServed(s: State, step: Step)
    requires LockInv(s) && Guarded(s) && IsWorkerStep(step) && Enabled(s, step)
    ensures Apply(s, step).p.queue != [] ==> Served(Apply(s, step))
  {
    var s' := Apply(s, step);
    assert s'.callers == s.callers;
    assert s'.p.queue != [] ==> s.p.queue != [];
    if c :| WillEnsureAt(s, c) {
      assert WillEnsureAt(s', c);
    }
  }

  /** A sleeper that is woken is a live thread. */
  lemma WokenIsLive(s: State, w: nat)
    requires Shape(s) && Conserved(s, 0) && Sized(s) && w in s.workers
    ensures s.p.active >= 1 || s.lock.HeldByWorker?
  {
    assert w in s.p.list;
    assert |s.p.list| > 0;
  }

  /** Callers never lower the active count to zero, nor take the lock from a worker. */
  lemma CallerKeepsActive(s: State, step: Step)
    requires LockInv(s) && !IsWorkerStep(step) && KeepsPool(step) && Enabled(s, step)
    ensures var s' := Apply(s, step);
            && (s.p.active >= 1 ==> s'.p.active >= 1)
            && (s.lock.HeldByWorker? ==> s'.lock.HeldByWorker?)
            && (step.AddEnqueue? || step.PoisonEnqueue? || s'.p.queue == s.p.queue)
  {
  }

  lemma EnqueueServed(s: State, step: Step)
    requires LockInv(s) && ViewsSound(s) && Sized(s) && (step.AddEnqueue? || step.PoisonEnqueue?) && Enabled(s, step)
    ensures Served(Apply(s, step))
  {
    assert ViewSound(s.p, s.callers[step.c]);
    assert step.AddEnqueue? && s.callers[step.c].may ==> WillEnsureAt(Apply(s, step), step.c);
  }

  lemma CallerStepServed(s: State, step: Step)
    requires Shape(s) && LockInv(s) && Conserved(s, 0) && Guarded(s)
    requires !IsWorkerStep(step) && KeepsPool(step) && Enabled(s, step)
    ensures Apply(s, step).p.queue != [] ==> Served(Apply(s, step))
  {
    CallerKeepsActive(s, step);
    if step.AddEnqueue? || step.PoisonEnqueue? {
      EnqueueServed(s, step);
    } else if s.p.active == 0 && !s.lock.HeldByWorker? && s.p.queue != [] {
      assert forall w :: w !in s.workers by {
        forall w | w in s.workers ensures false {
          WokenIsLive(s, w);
        }
      }
      var c :| WillEnsureAt(s, c);
      OthersStillEnsure(s, step, c);
    }
  }

  /** A caller bound to start a thread stays so until there is one. */
  lemma OthersStillEnsure(s: State, step: Step, c: nat)
    requires !IsWorkerStep(step) && KeepsPool(step) && Enabled(s, step) && WillEnsureAt(s, c) && Sized(s)
    requires forall w :: w !in s.workers
    ensures Served(Apply(s, step))
  {
    var s' := Apply(s, step);
    assert c != step.c ==> WillEnsureAt(s', c);
    if c == step.c && c in s'.callers {
      assert WillEnsureAt(s', c) || s'.p.active >= 1;
    }
  }

  lemma StepGuarded(s: State, step: Step)
    requires Inv(s) && Guarded(s) && KeepsPool(step) && Enabled(s, step)
    ensures Inv(Apply(s, step)) && Guarded(Apply(s, step))
  {
    StepInv(s, step);
    StepSized(s, step);
    if IsWorkerStep(step) {
      WorkerStepViews(s, step);
      WorkerStepServed(s, step);
    } else {
      CallerStepViews(s, step);
      CallerStepServed(s, step);
    }
  }

  lemma RestGuarded(s: State)
    requires AtRest(s)
    ensures Guarded(s)
  {
  }

  ghost predicate GuardedAt(trace: seq<State>, i: nat) {
    i < |trace| && Inv(trace[i]) && Guarded(trace[i])
  }

  lemma GuardedNext(trace: seq<State>, i: nat)
    requires i + 1 < |trace| && OpenStepAt(trace, i) && GuardedAt(trace, i)
    ensures GuardedAt(trace, i + 1)
  {
    var step :| OpenStep(trace[i], step, trace[i + 1]);
    StepGuarded(trace[i], step);
  }

  lemma GuardedThroughout(trace: seq<State>, i: nat)
    requires OpenSteps(trace) && i < |trace| && GuardedAt(trace, 0)
    ensures GuardedAt(trace, i)
  {
    var j := 0;
    while j < i
      invariant j <= i && GuardedAt(trace, j)
    {
      GuardedNext(trace, j);
      j := j + 1;
    }
  }

  lemma OpenRunInv(trace: seq<State>, i: nat)
    requires OpenRun(trace) && i < |trace|
    ensures Inv(trace[i]) && Guarded(trace[i])
  {
    ReachableInv(trace[0]);
    RestGuarded(trace[0]);
    assert GuardedAt(trace, 0);
    GuardedThroughout(trace, i);
  }

  /** All calls of add() that have enqueued their task have also finished ensureActiveThreads. */
  ghost predicate AddsSettled(s: State) {
    forall c :: c in s.callers ==> !AfterEnqueue(s.callers[c])
  }

  /** No stranded task: a queued task nobody is still adding has an active worker. */
  lemma QueuedTaskHasWorker(trace: seq<State>, i: nat)
    requires OpenRun(trace) && i < |trace|
    requires trace[i].p.queue != [] && AddsSettled(trace[i]) && !trace[i].lock.HeldByWorker?
    ensures trace[i].p.active >= 1 && trace[i].p.list != {}
  {
    OpenRunInv(trace, i);
  }

  /** And the wakeup is not lost: some worker is awake and can step towards the task. */
  lemma QueuedTaskIsServed(trace: seq<State>, i: nat) returns (step: Step)
    requires OpenRun(trace) && i < |trace|
    requires trace[i].p.queue != [] && AddsSettled(trace[i]) && trace[i].lock.Free?
    ensures IsWorkerStep(step) && !step.WorkerTimeOut? && Enabled(trace[i], step)
    ensures !trace[i].workers[step.w].Asleep?
  {
    QueuedTaskHasWorker(trace, i);
    OpenRunInv(trace, i);
    step := AwakeWorkerSteps(trace[i]);
  }

  lemma AwakeWorkerSteps(s: State) returns (step: Step)
    requires Inv(s) && s.p.queue != [] && AddsSettled(s) && s.lock.Free? && s.p.list != {}
    ensures IsWorkerStep(step) && !step.WorkerTimeOut? && Enabled(s, step) && !s.workers[step.w].Asleep?
    ensures step.WorkerWait? ==> s.value > 0
  {
    SumZero(s.callers, UnpostedOf());
    var w :| w in s.p.list;
    if s.value == 0 {
      w := SumPositive(s.workers, TokenOf());
    }
    match s.workers[w]
    case Top => step := WorkerWait(w);
    case HasToken => step := WorkerDequeue(w);
    case Running(_) => step := WorkerFinish(w);
    case AfterTask => step := WorkerLoadToStop(w);
    case SawStop => step := WorkerLoadIsJoin(w);
    case WantsStop => step := WorkerLock(w);
    case HasPoison => step := WorkerLock(w);
    case TimedOut => step := WorkerLock(w);
    case Asleep => assert false;
    case Deciding => assert false;
  }

  // The queued tasks can be finished by the workers there are

  ghost predicate WorkStep(s: State, step: Step, s': State) {
    IsWorkerStep(step) && !step.WorkerTimeOut? && Enabled(s, step) && s' == Apply(s, step)
  }

  ghost predicate WorkNext(s: State, s': State) {
    exists step :: WorkStep(s, step, s')
  }

  ghost predicate WorkAt(run: seq<State>, i: nat)
    requires i + 1 < |run|
  {
    WorkNext(run[i], run[i + 1])
  }

  /** Worker steps only, and no take that times out. */
  ghost predicate WorkSteps(run: seq<State>) {
    |run| > 0 && forall i: nat :: i + 1 < |run| ==> WorkAt(run, i)
  }

  ghost predicate Runs(s: State, job: nat) {
    exists w :: WorkerAt(s, w, Running(job))
  }

  ghost predicate Submitted(s: State, job: nat) {
    job in s.done || Runs(s, job) || Job(job) in s.p.queue
  }

  /** All adds are settled, and nobody but workers keeps the lock. */
  ghost predicate Serving(s: State) {
    Inv(s) && Guarded(s) && AddsSettled(s) && !s.lock.HeldByCaller?
  }

  /** How far a worker is from its next take. */
  function StepsToTake(): Worker -> nat {
    (x: Worker) =>
      match x
      case Running(_) => 6
      case AfterTask => 5
      case SawStop => 4
      case TimedOut => 4
      case WantsStop => 3
      case HasPoison => 3
      case Deciding => 3
      case Top => 2
      case HasToken => 1
      case Asleep => 0
  }

  /** A task waits or runs. */
  ghost predicate Unfinished(s: State) {
    s.p.queue != [] || exists job :: Runs(s, job)
  }

  /** The step of a schedule that goes on: a task is finished, or a worker gets nearer to the next one. */
  lemma WorkerGoesOn(s: State) returns (step: Step)
    requires Serving(s) && Unfinished(s)
    ensures IsWorkerStep(step) && !step.WorkerTimeOut? && Enabled(s, step)
    ensures step.WorkerWait? ==> s.value > 0
    ensures step.WorkerFinish? || s.p.queue != []
  {
    if w, job :| WorkerAt(s, w, Running(job)) {
      step := WorkerFinish(w);
    } else {
      assert !exists job :: Runs(s, job);
      if s.lock.HeldByWorker? {
        step := WorkerDecide(s.lock.w);
      } else {
        HasActive(s);
        step := AwakeWorkerSteps(s);
      }
    }
  }

  lemma HasActive(s: State)
    requires Serving(s) && s.p.queue != [] && s.lock.Free?
    ensures s.p.list != {}
  {
    assert s.p.active >= 1;
    assert |s.p.list| > 0;
  }

  lemma GoingOnFalls(s: State, step: Step, s': State)
    requires WorkStep(s, step, s') && (step.WorkerWait? ==> s.value > 0) && (step.WorkerFinish? || s.p.queue != [])
    ensures |s'.p.queue| <= |s.p.queue|
    ensures |s'.p.queue| == |s.p.queue| ==> WorkerHolds(s', step.w, StepsToTake()) < StepsToTake()(s.workers[step.w])
  {
  }

  ghost predicate KeepsTasks(s: State, s': State) {
    forall job :: Submitted(s, job) ==> Submitted(s', job)
  }

  lemma SubmittedStays(s: State, step: Step, s': State, job: nat)
    requires WorkStep(s, step, s') && Submitted(s, job)
    ensures Submitted(s', job)
  {
    if Runs(s, job) {
      var w :| WorkerAt(s, w, Running(job));
      assert step.w == w ==> job in s'.done;
      assert step.w != w ==> WorkerAt(s', w, Running(job));
    } else if Job(job) in s.p.queue && step.WorkerDequeue? {
      assert s.p.queue == [s.p.queue[0]] + s.p.queue[1..];
      assert s.p.queue[0] == Job(job) ==> WorkerAt(s', step.w, Running(job));
    }
  }

  lemma ServingStays(s: State, step: Step, s': State)
    requires Serving(s) && WorkStep(s, step, s')
    ensures Serving(s')
  {
    StepGuarded(s, step);
    WorkerStepFrame(s, step);
  }

  lemma GoesOn(s: State) returns (s': State)
    requires Serving(s) && Unfinished(s)
    ensures WorkNext(s, s') && Serving(s') && KeepsTasks(s, s')
    ensures |s'.p.queue| <= |s.p.queue|
    ensures |s'.p.queue| == |s.p.queue| ==> Sum(s'.workers, StepsToTake()) < Sum(s.workers, StepsToTake())
  {
    var step := WorkerGoesOn(s);
    s' := Apply(s, step);
    assert WorkStep(s, step, s');
    ServingStays(s, step, s');
    forall job | Submitted(s, job) ensures Submitted(s', job) {
      SubmittedStays(s, step, s', job);
    }
    GoingOnFalls(s, step, s');
    WorkerSum(s, step, s');
  }

  lemma WorkerSum(s: State, step: Step, s': State)
    requires WorkStep(s, step, s')
    ensures Sum(s'.workers, StepsToTake()) + StepsToTake()(s.workers[step.w])
            == Sum(s.workers, StepsToTake()) + WorkerHolds(s', step.w, StepsToTake())
  {
    WorkerStepFrame(s, step);
    if step.w in s'.workers {
      SumSet(s.workers, StepsToTake(), step.w, s'.workers[step.w]);
    } else {
      SumDrop(s.workers, StepsToTake(), step.w);
    }
  }

  /** A run of the workers from s to where nothing waits or runs; no task is lost on the way. */
  ghost predicate Finishes(s: State, run: seq<State>) {
    WorkSteps(run) && run[0] == s && !Unfinished(run[|run| - 1]) && KeepsTasks(s, run[|run| - 1])
  }

  lemma FinishesLater(s: State, rest: seq<State>)
    requires rest != [] && Finishes(rest[0], rest) && WorkNext(s, rest[0]) && KeepsTasks(s, rest[0])
    ensures Finishes(s, [s] + rest)
  {
    var run := [s] + rest;
    forall i: nat | i + 1 < |run| ensures WorkAt(run, i) {
      if i > 0 {
        assert WorkAt(rest, i - 1);
      }
    }
  }

  lemma {:induction false} WorkToTheEnd(s: State) returns (run: seq<State>)
    requires Serving(s)
    ensures Finishes(s, run)
    decreases |s.p.queue|, Sum(s.workers, StepsToTake())
  {
    if Unfinished(s) {
      var s' := GoesOn(s);
      var rest := WorkToTheEnd(s');
      run := [s] + rest;
      FinishesLater(s, rest);
    } else {
      run := [s];
    }
  }

  /**
   No stranded task, to the end: from every state of such a run in which the adds are settled and no
   resizer holds the lock, the workers there are can finish every queued task, without anyone's help.
   */
  lemma QueuedTasksFinish(trace: seq<State>, i: nat) returns (run: seq<State>)
    requires OpenRun(trace) && i < |trace| && AddsSettled(trace[i]) && !trace[i].lock.HeldByCaller?
    ensures WorkSteps(run) && run[0] == trace[i] && run[|run| - 1].p.queue == []
    ensures forall job :: Job(job) in trace[i].p.queue ==> job in run[|run| - 1].done
  {
    OpenRunInv(trace, i);
    run := WorkToTheEnd(trace[i]);
    var e := run[|run| - 1];
    forall job | Job(job) in trace[i].p.queue ensures job in e.done {
      assert Submitted(trace[i], job);
      assert Submitted(e, job) && !Runs(e, job);
    }
  }

  // Where such runs start

  /** Every constructor that allows a thread leaves the executor at rest. */
  lemma ConstructedAtRest(minThreads: nat, numThreads: nat, observers: nat)
    requires numThreads >= 1
    ensures var s := Constructed(minThreads, numThreads, observers); Reachable(s) && AtRest(s)
  {
    ReachConstructed(minThreads, numThreads, observers);
  }

  /** The default one without any thread: the first task depends on the adder alone. */
  lemma DefaultPoolIsEmpty(numThreads: nat)
    requires numThreads >= 1
    ensures var s := Constructed(0, numThreads, 0);
            && Reachable(s) && AtRest(s)
            && s.workers == map[] && s.p.active == 0 && s.p.minThreads == 1 && s.p.maxThreads == numThreads
  {
    ConstructedAtRest(0, numThreads, 0);
  }

  /** With a minimum of 0, which resizing to 0 and back leaves, threads come and go throughout. */
  lemma MinimumMayBeZero(numThreads: nat)
    requires numThreads >= 1
    ensures var s := Empty(numThreads, 0, map[]); Reachable(s) && AtRest(s)
  {
    ReachConstructed(0, 0, 0);
    assert Constructed(0, 0, 0) == Empty(0, 1, map[]);
    var done: map<nat, Caller> := map[0 := Joining(0, false)];
    EmptyResizes(0, 1, 0);
    ReachStep(Empty(0, 1, map[]), SetNumThreads(0, 0), Empty(0, 0, done));
    EmptyReturns(0);
    ReachStep(Empty(0, 0, done), JoinDone(0), Empty(0, 0, map[]));
    EmptyResizes(0, 0, numThreads);
    ReachStep(Empty(0, 0, map[]), SetNumThreads(0, numThreads), Empty(numThreads, 0, done));
    EmptyReturns(numThreads);
    ReachStep(Empty(numThreads, 0, done), JoinDone(0), Empty(numThreads, 0, map[]));
  }

  /** An executor that has no threads. */
  function Empty(maxThreads: nat, minThreads: nat, callers: map<nat, Caller>): State {
    State(Pool(maxThreads, minThreads, 0, 0, 0, false, {}, [], [], 0, 0), 0, map[], callers, Free, {})
  }

  lemma EmptyResizes(maxThreads: nat, minThreads: nat, n: nat)
    requires minThreads <= 1 && (minThreads == 1 ==> n == 0)
    ensures Leads(Empty(maxThreads, minThreads, map[]), SetNumThreads(0, n), Empty(n, 0, map[0 := Joining(0, false)]))
  {
    assert Ids(0, 0) == {};
  }

  lemma EmptyReturns(n: nat)
    ensures Leads(Empty(n, 0, map[0 := Joining(0, false)]), JoinDone(0), Empty(n, 0, map[]))
  {
  }
}
