/** What the pool's runs guarantee: thread conservation, and that stop() and join() finish cleanly. */
module PoolShutdown {
  import opened Counting
  import opened Pool
  import opened PoolRuns

  /** Thread conservation at every release of the lock, in every run. */
  lemma ThreadsConserved(trace: seq<State>, i: nat)
    requires Run(trace) && i < |trace| && !trace[i].lock.HeldByWorker?
    ensures var s := trace[i];
            && |s.p.list| == s.p.active + s.p.toStop
            && |s.p.stopped| + s.p.toStop == s.p.toJoin + Sum(s.callers, OwedOf())
            && s.p.active <= s.p.maxThreads
            && s.workers.Keys == s.p.list
  {
    RunInv(trace, i);
  }

  /** Threads still to stop never outnumber the poison tasks queued or held when the lock is free. */
  lemma PoisonForEveryStop(trace: seq<State>, i: nat)
    requires Run(trace) && i < |trace| && trace[i].lock.Free?
    ensures var s := trace[i]; s.p.toStop <= CountPoison(s.p.queue) + Sum(s.workers, PoisonedOf())
  {
    RunInv(trace, i);
    SumZero(trace[i].callers, PoisonLeftOf());
  }

  // The minimum

  ghost predicate NoShutdownAt(trace: seq<State>, i: nat)
    requires i + 1 < |trace|
  {
    exists step :: Enabled(trace[i], step) && !step.StopOrJoin? && trace[i + 1] == Apply(trace[i], step)
  }

  lemma NoShutdownKeepsMinimum(s: State, step: Step)
    requires Enabled(s, step) && !step.StopOrJoin? && s.p.active >= s.p.minThreads
    ensures Apply(s, step).p.active >= Apply(s, step).p.minThreads
  {
    if step.SetNumThreads? {
      ResizeReachesMinimum(s.p, step.n);
    } else {
      assert Apply(s, step).p.minThreads == s.p.minThreads;
    }
  }

  lemma ResizeReachesMinimum(p: Pool, n: nat)
    ensures Resize(p, n).active >= Resize(p, n).minThreads
  {
  }

  /**
   Idle timeouts never take the active count below the minimum, not even between the two halves of
   tryTimeoutThread: once the minimum is reached it is kept until a shutdown, over all resizes.
   */
  lemma {:induction false} MinimumKept(trace: seq<State>, i: nat)
    requires |trace| > 0 && trace[0].p.active >= trace[0].p.minThreads
    requires forall k: nat :: k + 1 < |trace| ==> NoShutdownAt(trace, k)
    requires i < |trace|
    ensures trace[i].p.active >= trace[i].p.minThreads
  {
    if i > 0 {
      MinimumKept(trace, i - 1);
      assert NoShutdownAt(trace, i - 1);
      var s := trace[i - 1];
      var step :| Enabled(s, step) && !step.StopOrJoin? && trace[i] == Apply(s, step);
      NoShutdownKeepsMinimum(s, step);
    }
  }

  // From the locked section of stop() or join() on

  /** Steps after a shutdown has begun, as long as nobody resizes or shuts down again. */
  ghost predicate AfterShutdownStep(s: State, step: Step, s': State) {
    Enabled(s, step) && !step.SetNumThreads? && !step.StopOrJoin? && s' == Apply(s, step)
  }

  ghost predicate AfterShutdownNext(s: State, s': State) {
    exists step :: AfterShutdownStep(s, step, s')
  }

  ghost predicate NoOtherOwed(s: State, c: nat) {
    forall d :: d in s.callers && d != c ==> OwedOf()(s.callers[d]) == 0
  }

  /** No thread is active, wanted or about to time out. */
  predicate Quiet(s: State) {
    s.p.maxThreads == 0 && s.p.active == 0 && s.p.toJoin == 0 && !s.lock.HeldByWorker?
  }

  /** Caller c is in its stop() or join() and owes all the joins there are. */
  ghost predicate OwesAll(s: State, c: nat) {
    && NoOtherOwed(s, c)
    && (c in s.callers ==> s.callers[c].Poisoning? || (s.callers[c].Joining? && !s.callers[c].resume))
  }

  ghost predicate ShuttingDownWith(s: State, c: nat, extra: nat) {
    InvWith(s, extra) && Quiet(s) && OwesAll(s, c)
  }

  ghost predicate ShuttingDown(s: State, c: nat) {
    ShuttingDownWith(s, c, 0)
  }

  ghost predicate AfterShutdownAt(trace: seq<State>, i: nat)
    requires i + 1 < |trace|
  {
    AfterShutdownNext(trace[i], trace[i + 1])
  }

  ghost predicate AfterShutdown(trace: seq<State>) {
    |trace| > 0 && forall i: nat :: i + 1 < |trace| ==> AfterShutdownAt(trace, i)
  }

  /** A run from the locked section of a stop() or join() that caller c starts in s. */
  ghost predicate ShutdownRun(s: State, c: nat, isJoin: bool, trace: seq<State>) {
    && Inv(s) && Enabled(s, StopOrJoin(c, isJoin))
    && AfterShutdown(trace) && trace[0] == Apply(s, StopOrJoin(c, isJoin))
  }

  lemma QuietStep(s: State, step: Step)
    requires Quiet(s) && LockInv(s) && Enabled(s, step) && !step.SetNumThreads? && !step.StopOrJoin?
    ensures Quiet(Apply(s, step))
  {
    assert !step.WorkerDecide?;
    if IsWorkerStep(step) {
      QuietWorkerStep(s, step);
    } else {
      QuietCallerStep(s, step);
    }
  }

  lemma QuietWorkerStep(s: State, step: Step)
    requires Quiet(s) && IsWorkerStep(step) && !step.WorkerDecide? && Enabled(s, step)
    ensures Quiet(Apply(s, step))
  {
  }

  lemma QuietCallerStep(s: State, step: Step)
    requires Quiet(s) && !IsWorkerStep(step) && Enabled(s, step) && !step.SetNumThreads? && !step.StopOrJoin?
    ensures Quiet(Apply(s, step))
  {
  }

  lemma AfterShutdownKeeps(s: State, s': State, extra: nat)
    requires InvWith(s, extra) && Quiet(s) && AfterShutdownNext(s, s')
    ensures InvWith(s', extra) && Quiet(s')
  {
    var step :| AfterShutdownStep(s, step, s');
    StepKeeps(s, step, extra);
    QuietStep(s, step);
  }

  lemma ShutdownBegins(s: State, c: nat, isJoin: bool)
    requires Inv(s) && Enabled(s, StopOrJoin(c, isJoin))
    ensures var s' := Apply(s, StopOrJoin(c, isJoin));
            InvWith(s', s.p.toStop) && Quiet(s') && (NoOtherOwed(s, c) ==> OwesAll(s', c)) && c in s'.callers
  {
    ShutdownStepInv(s, StopOrJoin(c, isJoin), 0);
  }

  ghost predicate QuietAt(trace: seq<State>, extra: nat, i: nat) {
    i < |trace| && InvWith(trace[i], extra) && Quiet(trace[i])
  }

  lemma QuietAtNext(trace: seq<State>, extra: nat, i: nat)
    requires i + 1 < |trace| && AfterShutdownAt(trace, i) && QuietAt(trace, extra, i)
    ensures QuietAt(trace, extra, i + 1)
  {
    AfterShutdownKeeps(trace[i], trace[i + 1], extra);
  }

  lemma QuietThroughout(trace: seq<State>, extra: nat, i: nat)
    requires AfterShutdown(trace) && i < |trace| && QuietAt(trace, extra, 0)
    ensures QuietAt(trace, extra, i)
  {
    var j := 0;
    while j < i
      invariant j <= i && QuietAt(trace, extra, j)
    {
      QuietAtNext(trace, extra, j);
      j := j + 1;
    }
  }

  lemma ShutdownRunQuiet(s: State, c: nat, isJoin: bool, trace: seq<State>, i: nat)
    requires ShutdownRun(s, c, isJoin, trace) && i < |trace|
    ensures InvWith(trace[i], s.p.toStop) && Quiet(trace[i])
  {
    ShutdownBegins(s, c, isJoin);
    assert QuietAt(trace, s.p.toStop, 0);
    QuietThroughout(trace, s.p.toStop, i);
  }

  /**
   However a shutdown goes on, the threads that were still to stop when it began remain one join too
   many each: that many joins stay owed beyond the threads there are.
   */
  lemma JoinsStayOwed(s: State, c: nat, isJoin: bool, trace: seq<State>, i: nat)
    requires ShutdownRun(s, c, isJoin, trace) && i < |trace|
    ensures |trace[i].p.list| + s.p.toStop == trace[i].p.toStop
    ensures Sum(trace[i].callers, OwedOf()) == |trace[i].p.list| + |trace[i].p.stopped| + s.p.toStop
  {
    ShutdownRunQuiet(s, c, isJoin, trace, i);
  }

  lemma OwesAllStep(s: State, step: Step, c: nat)
    requires OwesAll(s, c) && s.p.toJoin == 0 && c in s.callers
    requires Enabled(s, step) && !step.SetNumThreads? && !step.StopOrJoin?
    ensures OwesAll(Apply(s, step), c)
    ensures c !in Apply(s, step).callers ==> Returns(s, Apply(s, step), c)
  {
    var s' := Apply(s, step);
    if IsWorkerStep(step) {
      assert s'.callers == s.callers;
    } else {
      OwesAllCallerStep(s, step, c);
    }
  }

  lemma OwesAllCallerStep(s: State, step: Step, c: nat)
    requires OwesAll(s, c) && s.p.toJoin == 0 && c in s.callers && !IsWorkerStep(step)
    requires Enabled(s, step) && !step.SetNumThreads? && !step.StopOrJoin?
    ensures OwesAll(Apply(s, step), c)
    ensures c !in Apply(s, step).callers ==> Returns(s, Apply(s, step), c)
  {
    var s' := Apply(s, step);
    forall d | d in s'.callers && d != c ensures OwedOf()(s'.callers[d]) == 0 {
      if d in s.callers {
        assert OwedOf()(s.callers[d]) == 0;
      }
    }
  }

  /** The last step of stop() or join(): all its joins are done. */
  predicate Returns(s: State, s': State, c: nat) {
    c in s.callers && s.callers[c] == Joining(0, false) && s' == DropCaller(s, c)
  }

  lemma ShuttingDownStep(s: State, s': State, c: nat, extra: nat)
    requires ShuttingDownWith(s, c, extra) && c in s.callers && AfterShutdownNext(s, s')
    ensures ShuttingDownWith(s', c, extra)
    ensures c !in s'.callers ==> Returns(s, s', c)
  {
    AfterShutdownKeeps(s, s', extra);
    var step :| AfterShutdownStep(s, step, s');
    OwesAllStep(s, step, c);
  }

  ghost predicate ShuttingDownAt(trace: seq<State>, c: nat, extra: nat, i: nat) {
    i < |trace| && ShuttingDownWith(trace[i], c, extra)
  }

  lemma ShuttingDownAtNext(trace: seq<State>, c: nat, extra: nat, i: nat)
    requires i + 1 < |trace| && AfterShutdownAt(trace, i) && ShuttingDownAt(trace, c, extra, i) && c in trace[i].callers
    ensures ShuttingDownAt(trace, c, extra, i + 1)
  {
    ShuttingDownStep(trace[i], trace[i + 1], c, extra);
  }

  lemma ShuttingDownThroughout(trace: seq<State>, c: nat, extra: nat, i: nat)
    requires AfterShutdown(trace) && i < |trace| && ShuttingDownAt(trace, c, extra, 0)
    requires forall k :: 0 <= k < i ==> c in trace[k].callers
    ensures ShuttingDownAt(trace, c, extra, i)
  {
    var j := 0;
    while j < i
      invariant j <= i && ShuttingDownAt(trace, c, extra, j)
    {
      ShuttingDownAtNext(trace, c, extra, j);
      j := j + 1;
    }
  }

  lemma ShutdownRunInv(s: State, c: nat, isJoin: bool, trace: seq<State>, i: nat)
    requires ShutdownRun(s, c, isJoin, trace) && NoOtherOwed(s, c) && i < |trace|
    requires forall j :: 0 <= j < i ==> c in trace[j].callers
    ensures ShuttingDownWith(trace[i], c, s.p.toStop)
  {
    ShutdownBegins(s, c, isJoin);
    assert ShuttingDownAt(trace, c, s.p.toStop, 0);
    ShuttingDownThroughout(trace, c, s.p.toStop, i);
  }

  /** Once c has returned nobody owes a join. */
  lemma NothingOwed(s: State, c: nat)
    requires NoOtherOwed(s, c) && c !in s.callers
    ensures Sum(s.callers, OwedOf()) == 0
  {
    forall d | d in s.callers ensures OwedOf()(s.callers[d]) == 0 {
    }
    SumZero(s.callers, OwedOf());
  }

  /**
   A stop() or join() that returns had no earlier shrink unfinished, and leaves no live thread, no
   stopped thread unjoined, nothing to stop and nothing active: the closing checks and the
   destructor's check hold.
   */
  lemma ShutdownLeavesNothing(s: State, c: nat, isJoin: bool, trace: seq<State>, i: nat)
    requires ShutdownRun(s, c, isJoin, trace) && NoOtherOwed(s, c) && i < |trace|
    requires c !in trace[i].callers && forall j :: 0 <= j < i ==> c in trace[j].callers
    ensures s.p.toStop == 0
    ensures var p := trace[i].p;
            p.list == {} && p.stopped == [] && p.toStop == 0 && p.active == 0 && p.toJoin == 0
    ensures trace[i].workers == map[]
  {
    ShutdownRunInv(s, c, isJoin, trace, i);
    NothingOwed(trace[i], c);
    assert |trace[i].p.list| == 0;
    assert trace[i].workers.Keys == {};
  }

  /** So a shutdown that starts with a shrink unfinished, nobody else joining, never returns. */
  lemma {:induction false} ShutdownNeverReturns(s: State, c: nat, isJoin: bool, trace: seq<State>, i: nat)
    requires ShutdownRun(s, c, isJoin, trace) && NoOtherOwed(s, c) && s.p.toStop > 0 && i < |trace|
    ensures c in trace[i].callers && OwedOf()(trace[i].callers[c]) > 0
  {
    forall j | 0 <= j < i ensures c in trace[j].callers {
      ShutdownNeverReturns(s, c, isJoin, trace, j);
    }
    ShutdownRunInv(s, c, isJoin, trace, i);
    if c !in trace[i].callers || OwedOf()(trace[i].callers[c]) == 0 {
      SumZero(trace[i].callers, OwedOf());
    }
  }

  // Shutdown cannot get stuck

  /** Work left in a worker's hands: more for what is further from done. */
  function WeightOf(): Worker -> nat {
    (x: Worker) =>
      match x
      case HasToken => 1
      case Running(_) => 8
      case AfterTask => 7
      case SawStop => 6
      case WantsStop => 5
      case HasPoison => 5
      case _ => 2
  }

  ghost function Measure(s: State): nat {
    9 * (|s.p.queue| + Sum(s.callers, PoisonLeftOf())) + Sum(s.workers, WeightOf()) + Sum(s.callers, OwedOf())
  }

  /** Takes, finished tasks, stops, discarded poison, and joins. */
  ghost predicate IsProgress(s: State, step: Step)
    requires Enabled(s, step)
  {
    || (step.WorkerWait? && s.value > 0) || step.WorkerDequeue? || step.WorkerFinish? || step.WorkerLoadToStop?
    || step.WorkerLoadIsJoin?
    || (step.WorkerLock? && (s.p.toStop > 0 || !s.workers[step.w].TimedOut?))
    || step.JoinOne?
  }

  lemma WorkerStepWeight(s: State, step: Step)
    requires IsWorkerStep(step) && Enabled(s, step)
    ensures var s' := Apply(s, step);
            var before := 9 * |s.p.queue| + WeightOf()(s.workers[step.w]);
            var after := 9 * |s'.p.queue| + WorkerHolds(s', step.w, WeightOf());
            after <= before && (IsProgress(s, step) ==> after < before)
  {
  }

  lemma WorkerStepMeasure(s: State, step: Step)
    requires IsWorkerStep(step) && Enabled(s, step)
    ensures Measure(Apply(s, step)) <= Measure(s)
    ensures IsProgress(s, step) ==> Measure(Apply(s, step)) < Measure(s)
  {
    var s' := Apply(s, step);
    WorkerStepFrame(s, step);
    WorkerStepWeight(s, step);
    if step.w in s'.workers {
      SumSet(s.workers, WeightOf(), step.w, s'.workers[step.w]);
    } else {
      SumDrop(s.workers, WeightOf(), step.w);
    }
  }

  lemma PostStepMeasure(s: State, step: Step)
    requires (step.AddPost? || step.PoisonPost?) && Enabled(s, step)
    ensures Measure(Apply(s, step)) <= Measure(s)
  {
    PostStepFrame(s, step);
    CallerStepSums(s, Apply(s, step), step.c);
    SumSet(s.workers, WeightOf(), step.wake, HasToken);
  }

  lemma CallerStepMeasure(s: State, step: Step)
    requires !IsWorkerStep(step) && Enabled(s, step) && Quiet(s)
    requires !step.SetNumThreads? && !step.StopOrJoin? && !step.AddEnqueue?
    ensures Measure(Apply(s, step)) <= Measure(s)
    ensures IsProgress(s, step) ==> Measure(Apply(s, step)) < Measure(s)
  {
    var s' := Apply(s, step);
    if step.AddPost? || step.PoisonPost? {
      PostStepMeasure(s, step);
    } else {
      assert s'.workers == s.workers;
      CallerStepSums(s, s', step.c);
    }
  }

  /** With no new tasks, no step of a shutdown raises the measure and every progress step lowers it. */
  lemma ShutdownMeasureFalls(s: State, step: Step)
    requires Quiet(s) && Enabled(s, step)
    requires !step.SetNumThreads? && !step.StopOrJoin? && !step.AddEnqueue?
    ensures Measure(Apply(s, step)) <= Measure(s)
    ensures IsProgress(s, step) ==> Measure(Apply(s, step)) < Measure(s)
  {
    if IsWorkerStep(step) {
      WorkerStepMeasure(s, step);
    } else {
      CallerStepMeasure(s, step);
    }
  }

  /** While joins are owed, either a stopped thread waits to be joined, or a worker and a poison task remain. */
  lemma OwedMeansWork(s: State, c: nat)
    requires ShuttingDown(s, c) && s.lock.Free? && c in s.callers && s.callers[c].Joining? && s.callers[c].left > 0
    ensures s.p.stopped != [] ||
            (s.p.list != {} && s.p.toStop > 0 && CountPoison(s.p.queue) + Sum(s.workers, PoisonedOf()) > 0)
  {
    SumAtLeast(s.callers, OwedOf(), c);
    SumZero(s.callers, PoisonLeftOf());
  }

  /** A worker that has a poison task still to take is never without a step of progress. */
  lemma WorkerCanProgress(s: State, w: nat) returns (step: Step)
    requires Inv(s) && s.lock.Free? && w in s.workers && s.p.toStop > 0 && s.p.queue != []
    requires forall d :: d in s.callers ==> UnpostedOf()(s.callers[d]) == 0
    ensures Enabled(s, step) && IsProgress(s, step)
  {
    SumZero(s.callers, UnpostedOf());
    if s.value == 0 {
      var t := SumPositive(s.workers, TokenOf());
      step := WorkerDequeue(t);
    } else {
      match s.workers[w]
      case Top => step := WorkerWait(w);
      case HasToken => step := WorkerDequeue(w);
      case Running(_) => step := WorkerFinish(w);
      case AfterTask => step := WorkerLoadToStop(w);
      case SawStop => step := WorkerLoadIsJoin(w);
      case WantsStop => step := WorkerLock(w);
      case HasPoison => step := WorkerLock(w);
      case TimedOut => step := WorkerLock(w);
      case Asleep => assert false;
      case Deciding => assert false;
    }
  }

  lemma {:induction false} PoisonMeansTask(queue: seq<Task>)
    ensures CountPoison(queue) > 0 ==> queue != []
  {
  }

  /** Shutdown cannot get stuck: while joins are owed and no add is in flight some progress is possible. */
  lemma ShutdownCanProgress(s: State, c: nat) returns (step: Step)
    requires ShuttingDown(s, c) && s.lock.Free? && c in s.callers && s.callers[c].Joining? && s.callers[c].left > 0
    requires forall d :: d in s.callers ==> UnpostedOf()(s.callers[d]) == 0
    ensures Enabled(s, step) && IsProgress(s, step)
  {
    OwedMeansWork(s, c);
    if s.p.stopped != [] {
      step := JoinOne(c);
    } else if Sum(s.workers, PoisonedOf()) > 0 {
      var w := SumPositive(s.workers, PoisonedOf());
      step := WorkerLock(w);
    } else {
      PoisonMeansTask(s.p.queue);
      var w :| w in s.p.list;
      step := WorkerCanProgress(s, w);
    }
  }

  // The run to the return

  function AddingOf(): Caller -> nat {
    (x: Caller) => if x.AddUnposted? then 1 else 0
  }

  function PoisonRank(x: Caller): nat {
    if x.Poisoning? then 2 * x.left + (if x.unposted then 2 else 1) else 0
  }

  /** A shutdown by c that nobody else keeps from the lock. */
  ghost predicate Unhindered(s: State, c: nat) {
    ShuttingDown(s, c) && (s.lock.Free? || s.lock == HeldByCaller(c))
  }

  lemma Wakeable(s: State) returns (wake: nat)
    ensures CanPost(s, wake)
  {
    if w :| WorkerAt(s, w, Asleep) {
      wake := w;
    } else {
      wake := 0;
      forall w | w in s.workers ensures !s.workers[w].Asleep? {
        assert !WorkerAt(s, w, Asleep);
      }
    }
  }

  /** The step a schedule towards the return takes: first posts, then the poison, then progress. */
  lemma TowardsReturn(s: State, c: nat) returns (step: Step)
    requires Unhindered(s, c) && c in s.callers
    ensures Enabled(s, step) && !step.SetNumThreads? && !step.StopOrJoin? && !step.AddEnqueue?
    ensures var x := s.callers[c];
            if Sum(s.callers, AddingOf()) > 0 then step.AddPost?
            else if x.Poisoning? then (step.PoisonPost? || step.PoisonEnqueue? || step.PoisonDone?) && step.c == c
            else if x.left == 0 then step == JoinDone(c)
            else IsProgress(s, step)
  {
    var x := s.callers[c];
    if Sum(s.callers, AddingOf()) > 0 {
      var d := SumPositive(s.callers, AddingOf());
      var wake := Wakeable(s);
      step := AddPost(d, wake);
    } else if x.Poisoning? {
      var wake := Wakeable(s);
      step := if x.unposted then PoisonPost(c, wake) else if x.left > 0 then PoisonEnqueue(c) else PoisonDone(c);
    } else if x.left == 0 {
      step := JoinDone(c);
    } else {
      NoneUnposted(s, c);
      step := ShutdownCanProgress(s, c);
    }
  }

  lemma NoneUnposted(s: State, c: nat)
    requires Unhindered(s, c) && c in s.callers && !s.callers[c].Poisoning? && Sum(s.callers, AddingOf()) == 0
    ensures s.lock.Free? && forall d :: d in s.callers ==> UnpostedOf()(s.callers[d]) == 0
  {
    forall d | d in s.callers ensures UnpostedOf()(s.callers[d]) == 0 {
      SumAtLeast(s.callers, AddingOf(), d);
    }
  }

  /** Such a step keeps the lock from others. */
  lemma TowardsReturnLock(s: State, c: nat, step: Step)
    requires LockInv(s) && Quiet(s) && (s.lock.Free? || s.lock == HeldByCaller(c)) && Enabled(s, step)
    requires !step.SetNumThreads? && !step.StopOrJoin?
    ensures Apply(s, step).lock.Free? || Apply(s, step).lock == HeldByCaller(c)
  {
    QuietStep(s, step);
  }

  /** Adds still to post, then c's poison, then the measure. */
  ghost function ReturnRank(s: State, c: nat): (nat, nat, nat)
    requires c in s.callers
  {
    (Sum(s.callers, AddingOf()), PoisonRank(s.callers[c]), Measure(s))
  }

  predicate Below(x: (nat, nat, nat), y: (nat, nat, nat)) {
    x.0 < y.0 || (x.0 == y.0 && (x.1 < y.1 || (x.1 == y.1 && x.2 < y.2)))
  }

  lemma OnlyCallerSum(s: State, s': State, c: nat, f: Caller -> nat)
    requires OnlyCaller(s, s', c)
    ensures Sum(s'.callers, f) + CallerAt(s, c, f) == Sum(s.callers, f) + CallerAt(s', c, f)
  {
    if c in s'.callers {
      SumSet(s.callers, f, c, s'.callers[c]);
    } else {
      SumDrop(s.callers, f, c);
    }
  }

  /** Adds to post change only by being posted. */
  lemma AddingStep(s: State, step: Step)
    requires Enabled(s, step) && !step.SetNumThreads? && !step.StopOrJoin? && !step.AddEnqueue?
    ensures Sum(Apply(s, step).callers, AddingOf()) + (if step.AddPost? then 1 else 0) == Sum(s.callers, AddingOf())
  {
    var s' := Apply(s, step);
    if IsWorkerStep(step) {
      assert s'.callers == s.callers;
    } else {
      assert OnlyCaller(s, s', step.c);
      assert CallerAt(s', step.c, AddingOf()) + (if step.AddPost? then 1 else 0) == CallerAt(s, step.c, AddingOf());
      OnlyCallerSum(s, s', step.c, AddingOf());
    }
  }

  lemma OwnRankStep(s: State, c: nat, step: Step)
    requires c in s.callers && Enabled(s, step) && c in Apply(s, step).callers
    requires s.callers[c].Poisoning? || (s.callers[c].Joining? && !s.callers[c].resume)
    requires !step.SetNumThreads? && !step.StopOrJoin?
    ensures var r, r' := PoisonRank(s.callers[c]), PoisonRank(Apply(s, step).callers[c]);
            if (step.PoisonPost? || step.PoisonEnqueue? || step.PoisonDone?) && step.c == c then r' < r else r' == r
  {
    if IsWorkerStep(step) {
      assert Apply(s, step).callers == s.callers;
    }
  }

  lemma TowardsReturnFalls(s: State, c: nat, step: Step)
    requires Unhindered(s, c) && c in s.callers && Enabled(s, step) && c in Apply(s, step).callers
    requires !step.SetNumThreads? && !step.StopOrJoin? && !step.AddEnqueue?
    requires step.AddPost? || IsProgress(s, step)
             || ((step.PoisonPost? || step.PoisonEnqueue? || step.PoisonDone?) && step.c == c)
    ensures Below(ReturnRank(Apply(s, step), c), ReturnRank(s, c))
  {
    AddingStep(s, step);
    OwnRankStep(s, c, step);
    ShutdownMeasureFalls(s, step);
  }

  /** One step of that schedule: back in an unhindered shutdown with a lower rank, or returned. */
  lemma StepTowardsReturn(s: State, c: nat) returns (s': State)
    requires Unhindered(s, c) && c in s.callers
    ensures AfterShutdownNext(s, s')
    ensures c in s'.callers ==> Unhindered(s', c) && Below(ReturnRank(s', c), ReturnRank(s, c))
  {
    var step := TowardsReturn(s, c);
    s' := Apply(s, step);
    assert AfterShutdownStep(s, step, s');
    ShuttingDownStep(s, s', c, 0);
    if c in s'.callers {
      TowardsReturnLock(s, c, step);
      TowardsReturnFalls(s, c, step);
    }
  }

  /** From every state of an unhindered shutdown there is a run to its return, the poisoning included. */
  lemma {:induction false} RunToReturn(s: State, c: nat) returns (trace: seq<State>)
    requires Unhindered(s, c) && c in s.callers
    ensures AfterShutdown(trace) && trace[0] == s && c !in trace[|trace| - 1].callers
    decreases ReturnRank(s, c).0, ReturnRank(s, c).1, ReturnRank(s, c).2
  {
    var s' := StepTowardsReturn(s, c);
    if c !in s'.callers {
      trace := [s, s'];
      assert AfterShutdownAt(trace, 0);
    } else {
      var rest := RunToReturn(s', c);
      trace := [s] + rest;
      PrependStep(s, rest);
    }
  }

  lemma PrependStep(s: State, rest: seq<State>)
    requires AfterShutdown(rest) && AfterShutdownNext(s, rest[0])
    ensures AfterShutdown([s] + rest)
  {
    var trace := [s] + rest;
    forall i: nat | i + 1 < |trace| ensures AfterShutdownAt(trace, i) {
      if i > 0 {
        assert AfterShutdownAt(rest, i - 1);
      }
    }
  }

  ghost predicate ReturnsIn(s: State, c: nat, isJoin: bool, trace: seq<State>) {
    ShutdownRun(s, c, isJoin, trace) && c !in trace[|trace| - 1].callers
  }

  /** A stop() or join() that nobody else's join mixes with can return if and only if no thread was still to stop. */
  lemma ShutdownReturnsIff(s: State, c: nat, isJoin: bool)
    requires Inv(s) && Enabled(s, StopOrJoin(c, isJoin)) && NoOtherOwed(s, c)
    ensures (exists trace :: ReturnsIn(s, c, isJoin, trace)) <==> s.p.toStop == 0
  {
    if s.p.toStop == 0 {
      ShutdownBegins(s, c, isJoin);
      var trace := RunToReturn(Apply(s, StopOrJoin(c, isJoin)), c);
      assert ReturnsIn(s, c, isJoin, trace);
    } else {
      forall trace | ShutdownRun(s, c, isJoin, trace) ensures !ReturnsIn(s, c, isJoin, trace) {
        ShutdownNeverReturns(s, c, isJoin, trace, |trace| - 1);
      }
    }
  }
}
