/** join() lets the workers finish the tasks queued before it: exactly when, and what is left over. */
module JoinDrain {
  import opened Counting
  import opened Pool
  import opened PoolRuns
  import opened PoolShutdown

  /** Not already on the way to stopping. */
  predicate Calm(x: Worker) {
    !x.TimedOut? && !x.WantsStop? && !x.Deciding?
  }

  predicate CalmAt(s: State, w: nat) {
    w in s.workers && Calm(s.workers[w])
  }

  /** No poison task is queued or held. */
  ghost predicate NoPoison(s: State) {
    CountPoison(s.p.queue) == 0 && forall w :: w in s.workers ==> !s.workers[w].HasPoison?
  }

  /** Steps after the locked section of join(): no new tasks, no resizing; takes may time out. */
  ghost predicate DrainStep(s: State, step: Step, s': State) {
    && !step.SetNumThreads? && !step.StopOrJoin? && !step.AddEnqueue?
    && Enabled(s, step) && s' == Apply(s, step)
  }

  ghost predicate DrainNext(s: State, s': State) {
    exists step :: DrainStep(s, step, s')
  }

  ghost predicate DrainAt(trace: seq<State>, i: nat)
    requires i + 1 < |trace|
  {
    DrainNext(trace[i], trace[i + 1])
  }

  ghost predicate DrainSteps(trace: seq<State>) {
    |trace| > 0 && forall i: nat :: i + 1 < |trace| ==> DrainAt(trace, i)
  }

  /** Caller c may start join() here, with no poison about, no thread still to stop and no other join owed. */
  ghost predicate MayJoin(s: State, c: nat) {
    Inv(s) && Legal(s, StopOrJoin(c, true)) && NoOtherOwed(s, c) && NoPoison(s)
  }

  function Last(trace: seq<State>): State
    requires |trace| > 0
  {
    trace[|trace| - 1]
  }

  /** Caller c is in its call throughout and has returned at the end. */
  ghost predicate UntilReturn(c: nat, trace: seq<State>)
    requires |trace| > 0
  {
    (forall i :: 0 <= i < |trace| - 1 ==> c in trace[i].callers) && c !in Last(trace).callers
  }

  /** A run from the start s of c's join() to its return: the states after the locked section. */
  ghost predicate JoinRun(s: State, c: nat, trace: seq<State>) {
    && MayJoin(s, c) && DrainSteps(trace) && trace[0] == Apply(s, StopOrJoin(c, true)) && UntilReturn(c, trace)
  }

  lemma DrainIsAfterShutdown(trace: seq<State>)
    requires DrainSteps(trace)
    ensures AfterShutdown(trace)
  {
    forall i: nat | i + 1 < |trace| ensures AfterShutdownAt(trace, i) {
      assert DrainAt(trace, i);
      var step :| DrainStep(trace[i], step, trace[i + 1]);
      assert AfterShutdownStep(trace[i], step, trace[i + 1]);
    }
  }

  lemma JoinRunEndsEmpty(s: State, c: nat, trace: seq<State>)
    requires JoinRun(s, c, trace)
    ensures Last(trace).workers == map[] && Last(trace).p.toStop == 0
  {
    DrainIsAfterShutdown(trace);
    ShutdownLeavesNothing(s, c, true, trace, |trace| - 1);
  }

  // The queue while join() is under way

  /** Poison tasks are behind all jobs. */
  ghost predicate JobsFirst(queue: seq<Task>) {
    forall i, j :: 0 <= i < j < |queue| && queue[i].Poison? ==> queue[j].Poison?
  }

  predicate JobWaits(queue: seq<Task>) {
    queue != [] && queue[0].Job?
  }

  ghost predicate Draining(s: State) {
    && Inv(s) && Quiet(s) && s.p.isJoin && JobsFirst(s.p.queue)
    && (JobWaits(s.p.queue) ==> forall w :: w in s.workers ==> !s.workers[w].HasPoison?)
  }

  lemma {:induction false} NoPoisonNoneAt(queue: seq<Task>, i: nat)
    requires CountPoison(queue) == 0 && i < |queue|
    ensures queue[i].Job?
  {
    if i > 0 {
      NoPoisonNoneAt(queue[1..], i - 1);
    }
  }

  lemma DrainBegins(s: State, c: nat)
    requires MayJoin(s, c)
    ensures Draining(Apply(s, StopOrJoin(c, true)))
  {
    ShutdownBegins(s, c, true);
    forall i | 0 <= i < |s.p.queue| ensures s.p.queue[i].Job? {
      NoPoisonNoneAt(s.p.queue, i);
    }
  }

  /** Callers leave the queue alone here, except for poison at its end, and touch no worker but a sleeper. */
  predicate CallerFrame(s: State, step: Step, s': State) {
    && s'.p.queue == (if step.PoisonEnqueue? then s.p.queue + [Poison] else s.p.queue)
    && s'.p.toStop == s.p.toStop && s'.done == s.done
    && (s'.workers == s.workers
        || ((step.AddPost? || step.PoisonPost?) && WorkerAt(s, step.wake, Asleep)
            && s'.workers == s.workers[step.wake := HasToken]))
  }

  lemma CallerStepFrame(s: State, step: Step, s': State)
    requires Quiet(s) && !IsWorkerStep(step) && DrainStep(s, step, s')
    ensures CallerFrame(s, step, s')
  {
  }

  lemma CallerStepDrains(s: State, step: Step, s': State)
    requires Draining(s) && !IsWorkerStep(step) && DrainStep(s, step, s')
    ensures JobsFirst(s'.p.queue)
    ensures JobWaits(s'.p.queue) ==> forall w :: w in s'.workers ==> !s'.workers[w].HasPoison?
  {
    CallerStepFrame(s, step, s');
  }

  lemma WorkerStepDrains(s: State, step: Step, s': State)
    requires Draining(s) && IsWorkerStep(step) && DrainStep(s, step, s')
    ensures JobsFirst(s'.p.queue)
    ensures JobWaits(s'.p.queue) ==> forall w :: w in s'.workers ==> !s'.workers[w].HasPoison?
  {
    WorkerStepFrame(s, step);
    if step.WorkerDequeue? {
      assert s'.p.queue == s.p.queue[1..];
    }
  }

  lemma IsJoinStays(s: State, step: Step, s': State)
    requires DrainStep(s, step, s')
    ensures s'.p.isJoin == s.p.isJoin
  {
  }

  lemma DrainStepKeeps(s: State, step: Step, s': State)
    requires Draining(s) && DrainStep(s, step, s')
    ensures Draining(s')
  {
    StepKeeps(s, step, 0);
    QuietStep(s, step);
    IsJoinStays(s, step, s');
    if IsWorkerStep(step) {
      WorkerStepDrains(s, step, s');
    } else {
      CallerStepDrains(s, step, s');
    }
  }

  // Tasks are finished as long as some worker is calm

  ghost function Unposted(s: State): nat {
    Sum(s.callers, UnpostedOf())
  }

  /** More tasks are queued from place i on than adds have still to post: the token for this one is there. */
  ghost predicate FundedAt(s: State, job: nat, i: nat) {
    i + Unposted(s) < |s.p.queue| && s.p.queue[i] == Job(job)
  }

  ghost predicate Funded(s: State, job: nat) {
    exists i: nat :: FundedAt(s, job, i)
  }

  ghost predicate SomeCalm(s: State) {
    exists w :: CalmAt(s, w)
  }

  ghost predicate Runs(s: State, job: nat) {
    exists w :: WorkerAt(s, w, Running(job))
  }

  /** The job is done, running, or queued with its token there and a calm worker to take it. */
  ghost predicate Served(s: State, job: nat) {
    job in s.done || Runs(s, job) || (Funded(s, job) && SomeCalm(s))
  }

  lemma CallerUnposted(s: State, step: Step, s': State)
    requires !IsWorkerStep(step) && DrainStep(s, step, s')
    ensures Unposted(s') == Unposted(s) + (if step.PoisonEnqueue? then 1 else if step.AddPost? || step.PoisonPost? then -1 else 0)
  {
    assert OnlyCaller(s, s', step.c);
    OnlyCallerSum(s, s', step.c, UnpostedOf());
  }

  /** A task with its token keeps it until it is taken. */
  lemma FundedStep(s: State, step: Step, s': State, job: nat, i: nat)
    requires Quiet(s) && DrainStep(s, step, s') && FundedAt(s, job, i)
    ensures Funded(s', job) || Runs(s', job)
  {
    if !IsWorkerStep(step) {
      CallerUnposted(s, step, s');
      CallerStepFrame(s, step, s');
      assert FundedAt(s', job, i);
    } else {
      assert s'.callers == s.callers;
      if !step.WorkerDequeue? {
        assert FundedAt(s', job, i);
      } else if i > 0 {
        assert FundedAt(s', job, i - 1);
      } else {
        assert WorkerAt(s', step.w, Running(job));
      }
    }
  }

  lemma RunningStep(s: State, step: Step, s': State, job: nat)
    requires Quiet(s) && DrainStep(s, step, s') && Runs(s, job)
    ensures Runs(s', job) || job in s'.done
  {
    var w :| WorkerAt(s, w, Running(job));
    if IsWorkerStep(step) {
      assert step.w == w ==> job in s'.done;
      assert step.w != w ==> WorkerAt(s', w, Running(job));
    } else {
      CallerStepFrame(s, step, s');
      assert WorkerAt(s', w, Running(job));
    }
  }

  /** A worker whose take times out leaves someone with a token behind, while a task with its token waits. */
  lemma TokenHeld(s: State, w: nat) returns (t: nat)
    requires TokensMatch(s) && WorkerAt(s, w, Asleep) && Unposted(s) < |s.p.queue|
    ensures WorkerAt(s, t, HasToken)
  {
    t := SumPositive(s.workers, TokenOf());
  }

  lemma WorkerStepCalm(s: State, step: Step, s': State)
    requires Draining(s) && IsWorkerStep(step) && DrainStep(s, step, s')
    requires JobWaits(s.p.queue) && Unposted(s) < |s.p.queue| && SomeCalm(s)
    ensures SomeCalm(s')
  {
    assert !step.WorkerDecide?;
    if step.WorkerTimeOut? {
      var t := TokenHeld(s, step.w);
      assert CalmAt(s', t);
    } else {
      var w :| CalmAt(s, w);
      assert CalmAt(s', w);
    }
  }

  lemma CalmStep(s: State, step: Step, s': State)
    requires Draining(s) && DrainStep(s, step, s')
    requires JobWaits(s.p.queue) && Unposted(s) < |s.p.queue| && SomeCalm(s)
    ensures SomeCalm(s')
  {
    if IsWorkerStep(step) {
      WorkerStepCalm(s, step, s');
    } else {
      CallerStepFrame(s, step, s');
      var w :| CalmAt(s, w);
      assert CalmAt(s', w);
    }
  }

  lemma ServedStep(s: State, step: Step, s': State, job: nat)
    requires Draining(s) && DrainStep(s, step, s') && Served(s, job)
    ensures Served(s', job)
  {
    DoneStays(s, step, s');
    if Runs(s, job) {
      RunningStep(s, step, s', job);
    } else if job !in s.done {
      FundedServedStep(s, step, s', job);
    }
  }

  lemma DoneStays(s: State, step: Step, s': State)
    requires DrainStep(s, step, s')
    ensures s.done <= s'.done
  {
  }

  lemma FundedServedStep(s: State, step: Step, s': State, job: nat)
    requires Draining(s) && DrainStep(s, step, s') && Funded(s, job) && SomeCalm(s)
    ensures Runs(s', job) || (Funded(s', job) && SomeCalm(s'))
  {
    var i: nat :| FundedAt(s, job, i);
    assert JobWaits(s.p.queue);
    CalmStep(s, step, s');
    FundedStep(s, step, s', job, i);
  }

  ghost predicate ServedAt(trace: seq<State>, i: nat, job: nat) {
    i < |trace| && Draining(trace[i]) && Served(trace[i], job)
  }

  lemma ServedNext(trace: seq<State>, i: nat, job: nat)
    requires i + 1 < |trace| && DrainAt(trace, i) && ServedAt(trace, i, job)
    ensures ServedAt(trace, i + 1, job)
  {
    var step :| DrainStep(trace[i], step, trace[i + 1]);
    DrainStepKeeps(trace[i], step, trace[i + 1]);
    ServedStep(trace[i], step, trace[i + 1], job);
  }

  lemma ServedThroughout(trace: seq<State>, job: nat, i: nat)
    requires DrainSteps(trace) && i < |trace| && ServedAt(trace, 0, job)
    ensures ServedAt(trace, i, job)
  {
    var j := 0;
    while j < i
      invariant j <= i && ServedAt(trace, j, job)
    {
      ServedNext(trace, j, job);
      j := j + 1;
    }
  }

  lemma ServedBegins(s: State, c: nat, job: nat)
    requires MayJoin(s, c) && (Runs(s, job) || (Funded(s, job) && SomeCalm(s)))
    ensures Served(Apply(s, StopOrJoin(c, true)), job)
  {
    var s' := Apply(s, StopOrJoin(c, true));
    if Runs(s, job) {
      var w :| WorkerAt(s, w, Running(job));
      assert WorkerAt(s', w, Running(job));
    } else {
      var w :| CalmAt(s, w);
      assert CalmAt(s', w);
      var i: nat :| FundedAt(s, job, i);
      ShutdownUnposted(s, c);
      assert FundedAt(s', job, i);
    }
  }

  lemma ShutdownUnposted(s: State, c: nat)
    requires Enabled(s, StopOrJoin(c, true))
    ensures Unposted(Apply(s, StopOrJoin(c, true))) == Unposted(s)
  {
    SumSet(s.callers, UnpostedOf(), c, Poisoning(|s.p.list|, false, ShutdownOwed(s.p)));
  }

  /**
   A task that is running, or queued with its token there and one calm worker, when join() starts
   is finished when join() returns, also if takes time out meanwhile.
   */
  lemma JoinFinishesTasks(s: State, c: nat, trace: seq<State>, job: nat)
    requires JoinRun(s, c, trace) && (Runs(s, job) || (Funded(s, job) && SomeCalm(s)))
    ensures job in Last(trace).done
  {
    ServedKept(s, c, trace, job, |trace| - 1);
    JoinRunEndsEmpty(s, c, trace);
  }

  lemma ServedStarts(s: State, c: nat, trace: seq<State>, job: nat)
    requires MayJoin(s, c) && (Runs(s, job) || (Funded(s, job) && SomeCalm(s)))
    requires |trace| > 0 && trace[0] == Apply(s, StopOrJoin(c, true))
    ensures ServedAt(trace, 0, job)
  {
    DrainBegins(s, c);
    ServedBegins(s, c, job);
  }

  lemma ServedKept(s: State, c: nat, trace: seq<State>, job: nat, i: nat)
    requires MayJoin(s, c) && (Runs(s, job) || (Funded(s, job) && SomeCalm(s)))
    requires DrainSteps(trace) && trace[0] == Apply(s, StopOrJoin(c, true)) && i < |trace|
    ensures ServedAt(trace, i, job)
  {
    ServedStarts(s, c, trace, job);
    ServedThroughout(trace, job, i);
  }

  // How much poison is left over

  /** Workers about to stop: those that hold poison, and those that will stop without any. */
  function LeavingOf(): Worker -> nat {
    (x: Worker) => if x.HasPoison? || !Calm(x) then 1 else 0
  }

  ghost function Leaving(s: State): nat {
    Sum(s.workers, LeavingOf())
  }

  /** The step is a take that times out. */
  ghost predicate TakeTimesOut(s: State, s': State) {
    exists w :: WorkerAt(s, w, Asleep) && WorkerAt(s', w, TimedOut)
  }

  /** Takes that time out among the first i steps. */
  ghost function TimeOuts(trace: seq<State>, i: nat): nat
    requires i < |trace|
  {
    if i == 0 then 0 else TimeOuts(trace, i - 1) + if TakeTimesOut(trace[i - 1], trace[i]) then 1 else 0
  }

  /** Poison queued, to be queued, or no longer needed, beyond the threads still to stop. */
  ghost predicate Surplus(s: State, c: nat, extra: nat) {
    && CountPoison(s.p.queue) + Leaving(s) + Sum(s.callers, PoisonLeftOf()) == s.p.toStop + extra
    && forall d :: d in s.callers && s.callers[d].Poisoning? ==> d == c
  }

  lemma SurplusBegins(s: State, c: nat)
    requires LockInv(s) && Legal(s, StopOrJoin(c, true)) && CountPoison(s.p.queue) == 0
    ensures Surplus(Apply(s, StopOrJoin(c, true)), c, Leaving(s))
  {
    SumZero(s.callers, PoisonLeftOf());
    SumSet(s.callers, PoisonLeftOf(), c, Poisoning(|s.p.list|, false, ShutdownOwed(s.p)));
  }

  /** What a worker's step does to the poison and the stops: only a timeout adds to the surplus. */
  lemma WorkerLeaves(s: State, step: Step, s': State)
    requires IsWorkerStep(step) && DrainStep(s, step, s') && s.p.isJoin && s.p.toStop > 0 && !step.WorkerDecide?
    ensures CountPoison(s'.p.queue) + WorkerHolds(s', step.w, LeavingOf()) + s.p.toStop
            == CountPoison(s.p.queue) + LeavingOf()(s.workers[step.w]) + s'.p.toStop + if step.WorkerTimeOut? then 1 else 0
  {
  }

  lemma WorkerSurplus(s: State, step: Step, s': State, c: nat, extra: nat)
    requires Draining(s) && Surplus(s, c, extra) && IsWorkerStep(step) && DrainStep(s, step, s')
    ensures Surplus(s', c, extra + if step.WorkerTimeOut? then 1 else 0)
  {
    assert !step.WorkerDecide?;
    HasStops(s, step.w);
    WorkerStepFrame(s, step);
    WorkerLeaves(s, step, s');
    if step.w in s'.workers {
      SumSet(s.workers, LeavingOf(), step.w, s'.workers[step.w]);
    } else {
      SumDrop(s.workers, LeavingOf(), step.w);
    }
  }

  lemma HasStops(s: State, w: nat)
    requires Inv(s) && Quiet(s) && w in s.workers
    ensures s.p.toStop > 0
  {
    assert w in s.p.list;
    assert |s.p.list| > 0;
  }

  lemma CallerSurplus(s: State, step: Step, s': State, c: nat, extra: nat)
    requires Quiet(s) && Surplus(s, c, extra) && !IsWorkerStep(step) && DrainStep(s, step, s')
    ensures Surplus(s', c, extra)
  {
    CallerStepFrame(s, step, s');
    CallerPoisonLeft(s, step, s');
    CountPoisonAppend(s.p.queue, Poison);
    if step.AddPost? || step.PoisonPost? {
      SumSet(s.workers, LeavingOf(), step.wake, HasToken);
    }
    NoNewPoisoner(s, step, s');
  }

  lemma NoNewPoisoner(s: State, step: Step, s': State)
    requires !IsWorkerStep(step) && DrainStep(s, step, s')
    ensures forall d :: d in s'.callers && s'.callers[d].Poisoning? ==> d in s.callers && s.callers[d].Poisoning?
  {
  }

  /** Poison not yet queued becomes poison queued. */
  lemma CallerPoisonLeft(s: State, step: Step, s': State)
    requires !IsWorkerStep(step) && DrainStep(s, step, s')
    ensures Sum(s'.callers, PoisonLeftOf()) + (if step.PoisonEnqueue? then 1 else 0) == Sum(s.callers, PoisonLeftOf())
  {
    assert OnlyCaller(s, s', step.c);
    OnlyCallerSum(s, s', step.c, PoisonLeftOf());
  }

  lemma TimeOutSeen(s: State, step: Step, s': State)
    requires Quiet(s) && DrainStep(s, step, s')
    ensures TakeTimesOut(s, s') <==> step.WorkerTimeOut?
  {
    if step.WorkerTimeOut? {
      assert WorkerAt(s, step.w, Asleep) && WorkerAt(s', step.w, TimedOut);
    } else if IsWorkerStep(step) {
      WorkerStepFrame(s, step);
    } else {
      CallerStepFrame(s, step, s');
    }
  }

  ghost predicate SurplusAt(trace: seq<State>, i: nat, c: nat, extra: nat) {
    i < |trace| && Draining(trace[i]) && Surplus(trace[i], c, extra + TimeOuts(trace, i))
  }

  lemma SurplusNext(trace: seq<State>, i: nat, c: nat, extra: nat)
    requires i + 1 < |trace| && DrainAt(trace, i) && SurplusAt(trace, i, c, extra)
    ensures SurplusAt(trace, i + 1, c, extra)
  {
    SurplusStep(trace[i], trace[i + 1], c, extra + TimeOuts(trace, i));
  }

  lemma SurplusStep(s: State, s': State, c: nat, extra: nat)
    requires Draining(s) && Surplus(s, c, extra) && DrainNext(s, s')
    ensures Draining(s') && Surplus(s', c, extra + if TakeTimesOut(s, s') then 1 else 0)
  {
    var step :| DrainStep(s, step, s');
    DrainStepKeeps(s, step, s');
    TimeOutSeen(s, step, s');
    if IsWorkerStep(step) {
      WorkerSurplus(s, step, s', c, extra);
    } else {
      CallerSurplus(s, step, s', c, extra);
    }
  }

  lemma SurplusThroughout(trace: seq<State>, c: nat, extra: nat, i: nat)
    requires DrainSteps(trace) && i < |trace| && SurplusAt(trace, 0, c, extra)
    ensures SurplusAt(trace, i, c, extra)
  {
    var j := 0;
    while j < i
      invariant j <= i && SurplusAt(trace, j, c, extra)
    {
      SurplusNext(trace, j, c, extra);
      j := j + 1;
    }
  }

  /**
   The poison tasks left in the queue when join() returns are exactly as many as the workers that
   were already on their way to stopping when it started, plus the takes that timed out since.
   */
  lemma JoinLeftoverPoison(s: State, c: nat, trace: seq<State>)
    requires JoinRun(s, c, trace)
    ensures CountPoison(Last(trace).p.queue) == Leaving(s) + TimeOuts(trace, |trace| - 1)
  {
    SurplusKept(s, c, trace, |trace| - 1);
    JoinRunEndsEmpty(s, c, trace);
    SurplusEnds(trace, c, Leaving(s));
  }

  lemma SurplusKept(s: State, c: nat, trace: seq<State>, i: nat)
    requires MayJoin(s, c) && DrainSteps(trace) && trace[0] == Apply(s, StopOrJoin(c, true)) && i < |trace|
    ensures SurplusAt(trace, i, c, Leaving(s))
  {
    SurplusStarts(s, c, trace);
    SurplusThroughout(trace, c, Leaving(s), i);
  }

  lemma SurplusStarts(s: State, c: nat, trace: seq<State>)
    requires MayJoin(s, c) && |trace| > 0 && trace[0] == Apply(s, StopOrJoin(c, true))
    ensures SurplusAt(trace, 0, c, Leaving(s))
  {
    DrainBegins(s, c);
    SurplusBegins(s, c);
  }

  lemma SurplusEnds(trace: seq<State>, c: nat, extra: nat)
    requires |trace| > 0 && SurplusAt(trace, |trace| - 1, c, extra)
    requires Last(trace).workers == map[] && Last(trace).p.toStop == 0 && c !in Last(trace).callers
    ensures CountPoison(Last(trace).p.queue) == extra + TimeOuts(trace, |trace| - 1)
  {
    SumZero(Last(trace).callers, PoisonLeftOf());
  }

  /** So none is left over if and only if all workers were calm and no take timed out. */
  lemma JoinLeavesNoPoisonIff(s: State, c: nat, trace: seq<State>)
    requires JoinRun(s, c, trace)
    ensures CountPoison(Last(trace).p.queue) == 0 <==>
            (forall w :: w in s.workers ==> Calm(s.workers[w])) && TimeOuts(trace, |trace| - 1) == 0
  {
    JoinLeftoverPoison(s, c, trace);
    if forall w :: w in s.workers ==> Calm(s.workers[w]) {
      SumZero(s.workers, LeavingOf());
    } else {
      var w :| w in s.workers && !Calm(s.workers[w]);
      SumAtLeast(s.workers, LeavingOf(), w);
    }
  }

  // The queue is left without tasks

  /** Every queued job has its token there, and the first one a calm worker. */
  ghost predicate AllServed(s: State) {
    && (forall i: nat :: i < |s.p.queue| && s.p.queue[i].Job? ==> i + Unposted(s) < |s.p.queue|)
    && (JobWaits(s.p.queue) ==> SomeCalm(s))
  }

  lemma AllServedStep(s: State, step: Step, s': State)
    requires Draining(s) && AllServed(s) && DrainStep(s, step, s')
    ensures AllServed(s')
  {
    if IsWorkerStep(step) {
      assert s'.callers == s.callers;
      assert s'.p.queue == s.p.queue || s'.p.queue == s.p.queue[1..];
    } else {
      CallerUnposted(s, step, s');
      CallerStepFrame(s, step, s');
    }
    if JobWaits(s'.p.queue) {
      JobStillWaits(s, step, s');
      CalmStep(s, step, s');
    }
  }

  lemma JobStillWaits(s: State, step: Step, s': State)
    requires Draining(s) && DrainStep(s, step, s') && JobWaits(s'.p.queue)
    ensures JobWaits(s.p.queue)
  {
    if !IsWorkerStep(step) {
      CallerStepFrame(s, step, s');
    } else if step.WorkerDequeue? {
      assert s.p.queue[1] == s'.p.queue[0];
    }
  }

  ghost predicate AllServedAt(trace: seq<State>, i: nat) {
    i < |trace| && Draining(trace[i]) && AllServed(trace[i])
  }

  lemma AllServedNext(trace: seq<State>, i: nat)
    requires i + 1 < |trace| && DrainAt(trace, i) && AllServedAt(trace, i)
    ensures AllServedAt(trace, i + 1)
  {
    var step :| DrainStep(trace[i], step, trace[i + 1]);
    DrainStepKeeps(trace[i], step, trace[i + 1]);
    AllServedStep(trace[i], step, trace[i + 1]);
  }

  lemma AllServedThroughout(trace: seq<State>, i: nat)
    requires DrainSteps(trace) && i < |trace| && AllServedAt(trace, 0)
    ensures AllServedAt(trace, i)
  {
    var j := 0;
    while j < i
      invariant j <= i && AllServedAt(trace, j)
    {
      AllServedNext(trace, j);
      j := j + 1;
    }
  }

  lemma {:induction false} AllPoison(queue: seq<Task>)
    requires forall i :: 0 <= i < |queue| ==> queue[i].Poison?
    ensures CountPoison(queue) == |queue|
  {
    if queue != [] {
      AllPoison(queue[1..]);
    }
  }

  /** With every add posted and one calm worker at the start, only that leftover poison is in the queue at the return. */
  lemma JoinLeavesOnlyPoison(s: State, c: nat, trace: seq<State>)
    requires JoinRun(s, c, trace) && Unposted(s) == 0 && SomeCalm(s)
    ensures |Last(trace).p.queue| == Leaving(s) + TimeOuts(trace, |trace| - 1)
  {
    OnlyPoisonAtEnd(s, c, trace);
    AllPoison(Last(trace).p.queue);
    JoinLeftoverPoison(s, c, trace);
  }

  lemma AllServedKept(s: State, c: nat, trace: seq<State>, i: nat)
    requires MayJoin(s, c) && DrainSteps(trace) && trace[0] == Apply(s, StopOrJoin(c, true)) && i < |trace|
    requires Unposted(s) == 0 && SomeCalm(s)
    ensures AllServedAt(trace, i)
  {
    AllServedBegins(s, c, trace);
    AllServedThroughout(trace, i);
  }

  lemma OnlyPoisonAtEnd(s: State, c: nat, trace: seq<State>)
    requires JoinRun(s, c, trace) && Unposted(s) == 0 && SomeCalm(s)
    ensures forall i :: 0 <= i < |Last(trace).p.queue| ==> Last(trace).p.queue[i].Poison?
  {
    AllServedAtEnd(s, c, trace);
    JoinRunEndsEmpty(s, c, trace);
    OnlyPoisonLeft(trace);
  }

  lemma AllServedAtEnd(s: State, c: nat, trace: seq<State>)
    requires JoinRun(s, c, trace) && Unposted(s) == 0 && SomeCalm(s)
    ensures AllServedAt(trace, |trace| - 1)
  {
    AllServedKept(s, c, trace, |trace| - 1);
  }

  lemma AllServedBegins(s: State, c: nat, trace: seq<State>)
    requires MayJoin(s, c) && |trace| > 0 && trace[0] == Apply(s, StopOrJoin(c, true))
    requires Unposted(s) == 0 && SomeCalm(s)
    ensures AllServedAt(trace, 0)
  {
    DrainBegins(s, c);
    ShutdownUnposted(s, c);
    var w :| CalmAt(s, w);
    assert CalmAt(trace[0], w);
  }

  lemma OnlyPoisonLeft(trace: seq<State>)
    requires |trace| > 0 && AllServedAt(trace, |trace| - 1) && Last(trace).workers == map[]
    ensures forall i :: 0 <= i < |Last(trace).p.queue| ==> Last(trace).p.queue[i].Poison?
  {
    var queue := Last(trace).p.queue;
    assert !SomeCalm(Last(trace));
    assert queue != [] ==> queue[0].Poison?;
  }

  // Otherwise a waiting task can be abandoned

  /** Every worker has already passed a test that lets it stop without taking another task. */
  ghost predicate AllStale(s: State) {
    forall w :: w in s.workers ==> s.workers[w].WantsStop? || s.workers[w].TimedOut?
  }

  /** Caller c's join() goes on with job waiting and nobody left to run it. */
  ghost predicate Abandoning(s: State, c: nat, job: nat) {
    && (c in s.callers ==> s.lock.Free? || s.lock == HeldByCaller(c))
    && AllStale(s) && Job(job) in s.p.queue && job !in s.done
  }

  ghost predicate Doomed(s: State, c: nat, job: nat) {
    ShuttingDown(s, c) && c in s.callers && Abandoning(s, c, job)
  }

  function JoinsLeft(x: Caller): nat {
    if x.Joining? then x.left else 0
  }

  /** The next state is nearer to the return, if c has not returned. */
  predicate Nearer(s: State, s': State, c: nat)
    requires c in s.callers
  {
    c in s'.callers ==>
      || PoisonRank(s'.callers[c]) < PoisonRank(s.callers[c])
      || (PoisonRank(s'.callers[c]) == PoisonRank(s.callers[c])
          && (|s'.workers| < |s.workers|
              || (|s'.workers| == |s.workers| && JoinsLeft(s'.callers[c]) < JoinsLeft(s.callers[c]))))
  }

  lemma PoisonPhase(s: State, c: nat, job: nat) returns (step: Step, s': State)
    requires LockInv(s) && Abandoning(s, c, job) && c in s.callers && s.callers[c].Poisoning?
    ensures DrainStep(s, step, s') && Abandoning(s', c, job) && Nearer(s, s', c)
  {
    var x := s.callers[c];
    step := if x.unposted then PoisonPost(c, 0) else if x.left > 0 then PoisonEnqueue(c) else PoisonDone(c);
    s' := Apply(s, step);
  }

  lemma StopPhase(s: State, c: nat, job: nat, w: nat) returns (step: Step, s': State)
    requires ShuttingDown(s, c) && Abandoning(s, c, job) && c in s.callers && s.callers[c].Joining?
    requires w in s.workers
    ensures DrainStep(s, step, s') && Abandoning(s', c, job) && Nearer(s, s', c)
  {
    step := WorkerLock(w);
    HasStops(s, w);
    s' := Apply(s, step);
    assert s'.workers.Keys == s.workers.Keys - {w};
  }

  lemma JoinPhase(s: State, c: nat, job: nat) returns (step: Step, s': State)
    requires ShuttingDown(s, c) && Abandoning(s, c, job) && c in s.callers && s.callers[c].Joining?
    requires s.workers == map[]
    ensures DrainStep(s, step, s') && Abandoning(s', c, job) && Nearer(s, s', c)
  {
    SumAtLeast(s.callers, OwedOf(), c);
    assert s.p.list == {};
    step := if s.callers[c].left > 0 then JoinOne(c) else JoinDone(c);
    s' := Apply(s, step);
  }

  /** The step a schedule takes that lets the stale workers stop before anyone runs the job. */
  lemma DoomedStep(s: State, c: nat, job: nat) returns (s': State)
    requires Doomed(s, c, job)
    ensures DrainNext(s, s') && Job(job) in s'.p.queue && job !in s'.done
    ensures (c in s'.callers ==> Doomed(s', c, job)) && Nearer(s, s', c)
  {
    var step;
    if s.callers[c].Poisoning? {
      step, s' := PoisonPhase(s, c, job);
    } else if w :| w in s.workers {
      step, s' := StopPhase(s, c, job, w);
    } else {
      step, s' := JoinPhase(s, c, job);
    }
    assert AfterShutdownStep(s, step, s');
    ShuttingDownStep(s, s', c, 0);
  }

  /** A way from s to the return with the job still queued. */
  ghost predicate Abandons(s: State, c: nat, job: nat, trace: seq<State>) {
    && DrainSteps(trace) && trace[0] == s && UntilReturn(c, trace)
    && job !in Last(trace).done && Job(job) in Last(trace).p.queue
  }

  lemma Prepend(s: State, c: nat, job: nat, rest: seq<State>)
    requires rest != [] && Abandons(rest[0], c, job, rest) && DrainNext(s, rest[0]) && c in s.callers
    ensures Abandons(s, c, job, [s] + rest)
  {
    var trace := [s] + rest;
    forall i: nat | i + 1 < |trace| ensures DrainAt(trace, i) {
      if i > 0 {
        assert DrainAt(rest, i - 1);
      }
    }
    assert Last(trace) == Last(rest);
    forall i | 0 <= i < |trace| - 1 ensures c in trace[i].callers {
      if i > 0 {
        assert trace[i] == rest[i - 1];
      }
    }
  }

  lemma {:induction false} Abandon(s: State, c: nat, job: nat) returns (trace: seq<State>)
    requires Doomed(s, c, job)
    ensures Abandons(s, c, job, trace)
    decreases PoisonRank(s.callers[c]), |s.workers|, JoinsLeft(s.callers[c])
  {
    var s' := DoomedStep(s, c, job);
    if c in s'.callers {
      var rest := Abandon(s', c, job);
      trace := [s] + rest;
      Prepend(s, c, job, rest);
    } else {
      trace := [s, s'];
      assert DrainAt(trace, 0);
    }
  }

  // A task whose token is missing: the workers use up the tokens there are and time out

  ghost predicate Unfunded(s: State, job: nat) {
    && (forall i: nat :: !FundedAt(s, job, i))
    && (forall w :: !WorkerAt(s, w, Running(job)))
    && Job(job) in s.p.queue && job !in s.done
  }

  /** Caller c holds the lock and has queued no poison yet. */
  ghost predicate Settling(s: State, c: nat, job: nat) {
    && ShuttingDown(s, c) && s.p.isJoin && s.lock == HeldByCaller(c) && NoPoison(s) && Unfunded(s, job)
  }

  function SettleOf(): Worker -> nat {
    (x: Worker) =>
      match x
      case HasToken => 6
      case Running(_) => 5
      case AfterTask => 4
      case SawStop => 3
      case Top => 2
      case Asleep => 1
      case _ => 0
  }

  ghost function SettleRank(s: State): nat {
    5 * s.value + Sum(s.workers, SettleOf())
  }

  lemma FrontIsAnother(s: State, job: nat, w: nat)
    requires TokensMatch(s) && Unfunded(s, job) && NoPoison(s) && WorkerAt(s, w, HasToken)
    ensures s.p.queue != [] && s.p.queue[0].Job? && s.p.queue[0] != Job(job)
  {
    SumAtLeast(s.workers, TokenOf(), w);
    NoPoisonNoneAt(s.p.queue, 0);
    assert !FundedAt(s, job, 0);
  }

  /** The next step of a worker that is not yet stale; none of them needs the lock. */
  function SettleStep(x: Worker, w: nat): Step {
    match x
    case Top => WorkerWait(w)
    case HasToken => WorkerDequeue(w)
    case Running(_) => WorkerFinish(w)
    case AfterTask => WorkerLoadToStop(w)
    case SawStop => WorkerLoadIsJoin(w)
    case _ => WorkerTimeOut(w)
  }

  lemma SettleWorker(s: State, c: nat, job: nat, w: nat) returns (s': State)
    requires Settling(s, c, job) && CalmAt(s, w)
    ensures DrainStep(s, SettleStep(s.workers[w], w), s')
    ensures s'.callers == s.callers && s'.p.isJoin && s'.lock == s.lock && NoPoison(s') && Unfunded(s', job)
    ensures s'.workers == s.workers[w := s'.workers[w]] && w in s'.workers
    ensures 5 * s'.value + SettleOf()(s'.workers[w]) < 5 * s.value + SettleOf()(s.workers[w])
  {
    if s.workers[w].HasToken? {
      FrontIsAnother(s, job, w);
    }
    s' := Apply(s, SettleStep(s.workers[w], w));
    SettleUnfunded(s, job, w, s');
  }

  lemma SettleUnfunded(s: State, job: nat, w: nat, s': State)
    requires Unfunded(s, job) && NoPoison(s) && w in s.workers && !s.workers[w].HasPoison? && Calm(s.workers[w])
    requires s.workers[w].HasToken? ==> s.p.queue != [] && s.p.queue[0].Job? && s.p.queue[0] != Job(job)
    requires DrainStep(s, SettleStep(s.workers[w], w), s')
    ensures NoPoison(s') && Unfunded(s', job)
  {
    assert s'.callers == s.callers;
    forall i: nat ensures !FundedAt(s', job, i) {
      assert !FundedAt(s, job, i) && !FundedAt(s, job, i + 1);
    }
    forall v ensures !WorkerAt(s', v, Running(job)) {
      assert !WorkerAt(s, v, Running(job));
    }
    assert !WorkerAt(s, w, Running(job));
    if s.workers[w].HasToken? {
      assert s.p.queue == [s.p.queue[0]] + s.p.queue[1..];
    }
  }

  lemma SettleNext(s: State, c: nat, job: nat, w: nat) returns (s': State)
    requires Settling(s, c, job) && c in s.callers && CalmAt(s, w)
    ensures DrainNext(s, s') && Settling(s', c, job) && c in s'.callers && SettleRank(s') < SettleRank(s)
  {
    s' := SettleWorker(s, c, job, w);
    SumSet(s.workers, SettleOf(), w, s'.workers[w]);
    assert AfterShutdownStep(s, SettleStep(s.workers[w], w), s');
    ShuttingDownStep(s, s', c, 0);
  }

  lemma {:induction false} Settle(s: State, c: nat, job: nat) returns (trace: seq<State>)
    requires Settling(s, c, job) && c in s.callers
    ensures Abandons(s, c, job, trace)
    decreases SettleRank(s)
  {
    if w :| CalmAt(s, w) {
      var s' := SettleNext(s, c, job, w);
      var rest := Settle(s', c, job);
      trace := [s] + rest;
      Prepend(s, c, job, rest);
    } else {
      NoneCalm(s);
      trace := Abandon(s, c, job);
    }
  }

  lemma NoneCalm(s: State)
    requires LockInv(s) && !s.lock.HeldByWorker? && !SomeCalm(s)
    ensures AllStale(s)
  {
    forall w | w in s.workers ensures s.workers[w].WantsStop? || s.workers[w].TimedOut? {
      assert !CalmAt(s, w);
    }
  }

  /** A run of join() that returns with the job never run. */
  lemma AbandonFrom(s: State, c: nat, job: nat) returns (trace: seq<State>)
    requires MayJoin(s, c) && JobsApart(s) && Job(job) in s.p.queue && (!Funded(s, job) || !SomeCalm(s))
    ensures JoinRun(s, c, trace) && job !in Last(trace).done && Job(job) in Last(trace).p.queue
  {
    var s' := Apply(s, StopOrJoin(c, true));
    ShutdownBegins(s, c, true);
    QueuedOnly(s, job);
    if !SomeCalm(s) {
      NoneCalm(s);
      trace := Abandon(s', c, job);
    } else {
      ShutdownUnposted(s, c);
      UnfundedBegins(s, s', job);
      trace := Settle(s', c, job);
    }
  }

  /** A queued task is neither running nor finished. */
  lemma QueuedOnly(s: State, job: nat)
    requires JobsApart(s) && Job(job) in s.p.queue
    ensures !Runs(s, job) && job !in s.done
  {
    var i: nat :| i < |s.p.queue| && s.p.queue[i] == Job(job);
    assert JobAt(s, job, Queued(i));
    if job in s.done {
      assert JobAt(s, job, Finished);
    } else if w :| WorkerAt(s, w, Running(job)) {
      assert JobAt(s, job, InWorker(w));
    }
  }

  lemma UnfundedBegins(s: State, s': State, job: nat)
    requires !Funded(s, job) && !Runs(s, job) && Job(job) in s.p.queue && job !in s.done
    requires s'.p.queue == s.p.queue && s'.workers == s.workers && s'.done == s.done && Unposted(s') == Unposted(s)
    ensures Unfunded(s', job)
  {
    forall i: nat ensures !FundedAt(s', job, i) {
      assert !FundedAt(s, job, i);
    }
    forall w ensures !WorkerAt(s', w, Running(job)) {
      assert !WorkerAt(s, w, Running(job));
    }
  }

  /**
   A task queued when join() starts is certain to have run when join() returns if and only if fewer
   adds have still to post than tasks are queued from it on, and some worker is not already on its
   way to stopping. That its own add has posted is not enough: the posts are not matched to tasks.
   */
  lemma JoinFinishesTaskIff(s: State, c: nat, job: nat)
    requires MayJoin(s, c) && JobsApart(s) && Job(job) in s.p.queue
    ensures (forall trace :: JoinRun(s, c, trace) ==> job in Last(trace).done) <==> Funded(s, job) && SomeCalm(s)
  {
    if Funded(s, job) && SomeCalm(s) {
      forall trace | JoinRun(s, c, trace) ensures job in Last(trace).done {
        JoinFinishesTasks(s, c, trace, job);
      }
    } else {
      var trace := AbandonFrom(s, c, job);
      assert job !in Last(trace).done;
    }
  }

  /** With every add posted, a calm worker is enough for every queued task. */
  lemma PostedIsFunded(s: State, job: nat)
    requires Job(job) in s.p.queue && forall c :: c in s.callers ==> !s.callers[c].AddUnposted? && !s.callers[c].Poisoning?
    ensures Funded(s, job)
  {
    SumZero(s.callers, UnpostedOf());
    var i: nat :| i < |s.p.queue| && s.p.queue[i] == Job(job);
    assert FundedAt(s, job, i);
  }

  // Such a state is reachable with every call returned

  /** A pool of one worker, numbered 0. */
  function OneWorker(queue: seq<Task>, value: nat, w: Worker, callers: map<nat, Caller>): State {
    State(Pool(1, 1, 1, 0, 0, false, {0}, [], queue, 1, 0), value, map[0 := w], callers, Free, {})
  }

  lemma PoolStarts()
    ensures Reachable(OneWorker([], 0, Top, map[]))
  {
    ReachConstructed(1, 1, 0);
    OneConstructed();
  }

  lemma OneConstructed()
    ensures Constructed(1, 1, 0) == OneWorker([], 0, Top, map[])
  {
    assert Ids(0, 0) == {} && Ids(0, 1) == {0};
    assert StartWorkers(map[], 0, 0) == map[] && StartWorkers(map[], 0, 1) == map[0 := Top];
  }

  /** The worker's take times out... */
  lemma WorkerHasTimedOut()
    ensures Reachable(OneWorker([], 0, TimedOut, map[]))
  {
    PoolStarts();
    var s0, s1, s2 := OneWorker([], 0, Top, map[]), OneWorker([], 0, Asleep, map[]), OneWorker([], 0, TimedOut, map[]);
    OneWaits();
    ReachStep(s0, WorkerWait(0), s1);
    ReachStep(s1, WorkerTimeOut(0), s2);
  }

  lemma OneWaits()
    ensures Leads(OneWorker([], 0, Top, map[]), WorkerWait(0), OneWorker([], 0, Asleep, map[]))
    ensures Leads(OneWorker([], 0, Asleep, map[]), WorkerTimeOut(0), OneWorker([], 0, TimedOut, map[]))
  {
  }

  lemma OneAddBegins()
    ensures Leads(OneWorker([], 0, TimedOut, map[]), AddBegin(1, 7), OneWorker([], 0, TimedOut, map[1 := AddStart(7)]))
    ensures Leads(OneWorker([], 0, TimedOut, map[1 := AddStart(7)]), AddLoadMin(1), OneWorker([], 0, TimedOut, map[1 := AddSawMin(7)]))
  {
  }

  lemma OneAddLoads()
    ensures Leads(OneWorker([], 0, TimedOut, map[1 := AddSawMin(7)]), AddLoadActive(1),
                  OneWorker([], 0, TimedOut, map[1 := AddSawActive(7, 1)]))
    ensures Leads(OneWorker([], 0, TimedOut, map[1 := AddSawActive(7, 1)]), AddLoadMax(1),
                  OneWorker([], 0, TimedOut, map[1 := AddDecided(7, false)]))
  {
  }

  lemma OneAddEnds()
    ensures Leads(OneWorker([], 0, TimedOut, map[1 := AddDecided(7, false)]), AddEnqueue(1),
                  OneWorker([Job(7)], 0, TimedOut, map[1 := AddUnposted(false)]))
    ensures Leads(OneWorker([Job(7)], 0, TimedOut, map[1 := AddUnposted(false)]), AddPost(1, 0),
                  OneWorker([Job(7)], 1, TimedOut, map[]))
  {
  }

  /** ...a task is being added... */
  lemma TaskBeingAdded()
    ensures Reachable(OneWorker([], 0, TimedOut, map[1 := AddDecided(7, false)]))
  {
    WorkerHasTimedOut();
    var s1, s2 := OneWorker([], 0, TimedOut, map[1 := AddStart(7)]), OneWorker([], 0, TimedOut, map[1 := AddSawMin(7)]);
    OneAddBegins();
    ReachStep(OneWorker([], 0, TimedOut, map[]), AddBegin(1, 7), s1);
    ReachStep(s1, AddLoadMin(1), s2);
    var s3 := OneWorker([], 0, TimedOut, map[1 := AddSawActive(7, 1)]);
    OneAddLoads();
    ReachStep(s2, AddLoadActive(1), s3);
    ReachStep(s3, AddLoadMax(1), OneWorker([], 0, TimedOut, map[1 := AddDecided(7, false)]));
  }

  /** ...and add() returns before the worker gets the lock. */
  lemma TaskAdded()
    ensures Reachable(OneWorker([Job(7)], 1, TimedOut, map[]))
  {
    TaskBeingAdded();
    var s := OneWorker([Job(7)], 0, TimedOut, map[1 := AddUnposted(false)]);
    OneAddEnds();
    ReachStep(OneWorker([], 0, TimedOut, map[1 := AddDecided(7, false)]), AddEnqueue(1), s);
    ReachStep(s, AddPost(1, 0), OneWorker([Job(7)], 1, TimedOut, map[]));
  }

  lemma OneJobMayJoin(s: State)
    requires s == OneWorker([Job(7)], 1, TimedOut, map[])
    ensures Legal(s, StopOrJoin(4, true)) && NoOtherOwed(s, 4) && NoPoison(s)
    ensures Job(7) in s.p.queue && !SomeCalm(s)
  {
    assert s.p.queue[0] == Job(7);
    assert s.p.queue[1..] == [];
  }

  /** In such a run join() can return with the task never run, although every call before it had returned. */
  lemma JoinMayAbandonTask() returns (s: State, trace: seq<State>)
    ensures Reachable(s) && s.callers == map[] && s.p.queue == [Job(7)]
    ensures JoinRun(s, 4, trace) && Job(7) in Last(trace).p.queue && 7 !in Last(trace).done
  {
    TaskAdded();
    s := OneWorker([Job(7)], 1, TimedOut, map[]);
    OneJobMayJoin(s);
    trace := AbandonReachable(s, 4, 7);
  }

  lemma AbandonReachable(s: State, c: nat, job: nat) returns (trace: seq<State>)
    requires Reachable(s) && Legal(s, StopOrJoin(c, true)) && NoOtherOwed(s, c) && NoPoison(s)
    requires Job(job) in s.p.queue && (!Funded(s, job) || !SomeCalm(s))
    ensures JoinRun(s, c, trace) && job !in Last(trace).done && Job(job) in Last(trace).p.queue
  {
    ReachableInv(s);
    ReachableApart(s);
    trace := AbandonFrom(s, c, job);
  }

  // A task whose own add has returned can be abandoned with a worker calm

  /** Two adders have read that no thread may be needed; the worker sleeps. */
  const DECIDED: map<nat, Caller> := map[1 := AddDecided(1, false), 2 := AddDecided(2, false)]

  lemma AdderReads(job: nat, callers: map<nat, Caller>)
    requires (job == 1 && callers == map[]) || (job == 2 && callers == map[1 := AddDecided(1, false)])
    ensures Leads(OneWorker([], 0, Asleep, callers), AddBegin(job, job), OneWorker([], 0, Asleep, callers[job := AddStart(job)]))
    ensures Leads(OneWorker([], 0, Asleep, callers[job := AddStart(job)]), AddLoadMin(job),
                  OneWorker([], 0, Asleep, callers[job := AddSawMin(job)]))
  {
    var s := OneWorker([], 0, Asleep, callers);
    assert NewJob(s, job);
    assert callers[job := AddStart(job)][job := AddSawMin(job)] == callers[job := AddSawMin(job)];
  }

  lemma AdderDecides(job: nat, callers: map<nat, Caller>)
    ensures Leads(OneWorker([], 0, Asleep, callers[job := AddSawMin(job)]), AddLoadActive(job),
                  OneWorker([], 0, Asleep, callers[job := AddSawActive(job, 1)]))
    ensures Leads(OneWorker([], 0, Asleep, callers[job := AddSawActive(job, 1)]), AddLoadMax(job),
                  OneWorker([], 0, Asleep, callers[job := AddDecided(job, false)]))
  {
    assert callers[job := AddSawMin(job)][job := AddSawActive(job, 1)] == callers[job := AddSawActive(job, 1)];
    assert callers[job := AddSawActive(job, 1)][job := AddDecided(job, false)] == callers[job := AddDecided(job, false)];
  }

  lemma AdderReady(job: nat, callers: map<nat, Caller>)
    requires (job == 1 && callers == map[]) || (job == 2 && callers == map[1 := AddDecided(1, false)])
    requires Reachable(OneWorker([], 0, Asleep, callers))
    ensures Reachable(OneWorker([], 0, Asleep, callers[job := AddDecided(job, false)]))
  {
    AdderReads(job, callers);
    AdderDecides(job, callers);
    var s1 := OneWorker([], 0, Asleep, callers[job := AddStart(job)]);
    var s2 := OneWorker([], 0, Asleep, callers[job := AddSawMin(job)]);
    var s3 := OneWorker([], 0, Asleep, callers[job := AddSawActive(job, 1)]);
    ReachStep(OneWorker([], 0, Asleep, callers), AddBegin(job, job), s1);
    ReachStep(s1, AddLoadMin(job), s2);
    ReachStep(s2, AddLoadActive(job), s3);
    ReachStep(s3, AddLoadMax(job), OneWorker([], 0, Asleep, callers[job := AddDecided(job, false)]));
  }

  lemma BothDecided()
    ensures Reachable(OneWorker([], 0, Asleep, DECIDED))
  {
    PoolStarts();
    OneWaits();
    ReachStep(OneWorker([], 0, Top, map[]), WorkerWait(0), OneWorker([], 0, Asleep, map[]));
    AdderReady(1, map[]);
    AdderReady(2, map[1 := AddDecided(1, false)]);
    assert map[1 := AddDecided(1, false)][2 := AddDecided(2, false)] == DECIDED;
  }

  lemma BothEnqueue()
    ensures Leads(OneWorker([], 0, Asleep, DECIDED), AddEnqueue(1),
                  OneWorker([Job(1)], 0, Asleep, map[1 := AddUnposted(false), 2 := AddDecided(2, false)]))
    ensures Leads(OneWorker([Job(1)], 0, Asleep, map[1 := AddUnposted(false), 2 := AddDecided(2, false)]), AddEnqueue(2),
                  OneWorker([Job(1), Job(2)], 0, Asleep, map[1 := AddUnposted(false), 2 := AddUnposted(false)]))
  {
  }

  lemma SecondPosts()
    ensures Leads(OneWorker([Job(1), Job(2)], 0, Asleep, map[1 := AddUnposted(false), 2 := AddUnposted(false)]), AddPost(2, 0),
                  OneWorker([Job(1), Job(2)], 0, HasToken, map[1 := AddUnposted(false)]))
  {
  }

  lemma SecondAdded()
    ensures Reachable(OneWorker([Job(1), Job(2)], 0, HasToken, map[1 := AddUnposted(false)]))
  {
    BothDecided();
    BothEnqueue();
    SecondPosts();
    var s1 := OneWorker([Job(1)], 0, Asleep, map[1 := AddUnposted(false), 2 := AddDecided(2, false)]);
    var s2 := OneWorker([Job(1), Job(2)], 0, Asleep, map[1 := AddUnposted(false), 2 := AddUnposted(false)]);
    ReachStep(OneWorker([], 0, Asleep, DECIDED), AddEnqueue(1), s1);
    ReachStep(s1, AddEnqueue(2), s2);
    ReachStep(s2, AddPost(2, 0), OneWorker([Job(1), Job(2)], 0, HasToken, map[1 := AddUnposted(false)]));
  }

  lemma TwoJobsMayJoin(s: State)
    requires s == OneWorker([Job(1), Job(2)], 0, HasToken, map[1 := AddUnposted(false)])
    ensures Legal(s, StopOrJoin(4, true)) && NoOtherOwed(s, 4) && NoPoison(s)
    ensures Job(2) in s.p.queue && !Funded(s, 2) && CalmAt(s, 0)
  {
    assert s.p.queue[1] == Job(2);
    assert s.p.queue[1..] == [Job(2)] && [Job(2)][1..] == [];
    SumAtLeast(s.callers, UnpostedOf(), 1);
    forall i: nat ensures !FundedAt(s, 2, i) {
    }
  }

  /**
   The add of task 2 has returned and the worker is calm, but the add of task 1, ahead of it, has yet
   to post: join() can return with task 2 never run.
   */
  lemma JoinMayAbandonPostedTask() returns (s: State, trace: seq<State>)
    ensures Reachable(s) && s.p.queue == [Job(1), Job(2)] && s.callers == map[1 := AddUnposted(false)] && SomeCalm(s)
    ensures JoinRun(s, 4, trace) && Job(2) in Last(trace).p.queue && 2 !in Last(trace).done
  {
    SecondAdded();
    s := OneWorker([Job(1), Job(2)], 0, HasToken, map[1 := AddUnposted(false)]);
    TwoJobsMayJoin(s);
    trace := AbandonReachable(s, 4, 2);
  }
}
