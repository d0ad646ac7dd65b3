/** Every thread asked to stop has exactly one poison task of its own, in every run. */
module PoisonCounts {
  import opened Counting
  import opened Pool
  import opened PoolRuns
  import opened PoolShutdown

  /** A worker has come back from the lock with the poison it held, stopped or not. */
  ghost predicate UsesPoison(s: State, s': State) {
    exists w :: WorkerAt(s, w, HasPoison) && !WorkerAt(s', w, HasPoison)
  }

  /** A thread that was asked to stop has stopped. */
  predicate TakesStop(s: State, s': State) {
    s'.p.toStop < s.p.toStop
  }

  function One(b: bool): nat {
    if b then 1 else 0
  }

  ghost function Used(trace: seq<State>, i: nat): nat
    requires i < |trace|
  {
    if i == 0 then 0 else Used(trace, i - 1) + One(UsesPoison(trace[i - 1], trace[i]))
  }

  ghost function Stops(trace: seq<State>, i: nat): nat
    requires i < |trace|
  {
    if i == 0 then 0 else Stops(trace, i - 1) + One(TakesStop(trace[i - 1], trace[i]))
  }

  /** Poison tasks queued, held, or about to be queued. */
  ghost function Poison(s: State): nat {
    CountPoison(s.p.queue) + Sum(s.workers, PoisonedOf()) + Sum(s.callers, PoisonLeftOf())
  }

  lemma WorkerUses(s: State, step: Step)
    requires IsWorkerStep(step) && Enabled(s, step)
    ensures var s' := Apply(s, step);
            && s'.callers == s.callers
            && CountPoison(s'.p.queue) + WorkerHolds(s', step.w, PoisonedOf()) + One(UsesPoison(s, s')) + s.p.toStop
               == CountPoison(s.p.queue) + PoisonedOf()(s.workers[step.w]) + s'.p.toStop + One(TakesStop(s, s'))
  {
    var s' := Apply(s, step);
    WorkerStepFrame(s, step);
    if step.WorkerLock? && s.workers[step.w].HasPoison? {
      assert WorkerAt(s, step.w, HasPoison) && !WorkerAt(s', step.w, HasPoison);
    } else {
      assert !UsesPoison(s, s');
    }
  }

  lemma WorkerBalance(s: State, step: Step)
    requires IsWorkerStep(step) && Enabled(s, step)
    ensures var s' := Apply(s, step);
            Poison(s') + One(UsesPoison(s, s')) + s.p.toStop == Poison(s) + s'.p.toStop + One(TakesStop(s, s'))
  {
    var s' := Apply(s, step);
    WorkerUses(s, step);
    WorkerStepFrame(s, step);
    if step.w in s'.workers {
      SumSet(s.workers, PoisonedOf(), step.w, s'.workers[step.w]);
    } else {
      SumDrop(s.workers, PoisonedOf(), step.w);
    }
  }

  /** Callers neither take poison nor count stops off, and ask for as many stops as they have poison to queue. */
  predicate CallerPoisonKept(s: State, s': State, c: nat) {
    && OnlyCaller(s, s', c) && s'.p.toStop >= s.p.toStop
    && CountPoison(s'.p.queue) + CallerAt(s', c, PoisonLeftOf()) + s.p.toStop
       == CountPoison(s.p.queue) + CallerAt(s, c, PoisonLeftOf()) + s'.p.toStop
  }

  lemma EnqueuePoison(s: State, step: Step)
    requires (step.AddEnqueue? || step.PoisonEnqueue?) && Enabled(s, step)
    ensures CallerPoisonKept(s, Apply(s, step), step.c)
  {
    EnqueueStepFrame(s, step);
    CountPoisonAppend(s.p.queue, if step.AddEnqueue? then Job(s.callers[step.c].job) else Task.Poison);
  }

  lemma AskPoison(s: State, step: Step)
    requires (step.SetNumThreads? || step.StopOrJoin? || step.EnsureLock?) && Enabled(s, step)
    ensures CallerPoisonKept(s, Apply(s, step), step.c)
  {
  }

  lemma LoadPoison(s: State, step: Step)
    requires IsLoadStep(step) && Enabled(s, step)
    ensures CallerPoisonKept(s, Apply(s, step), step.c)
  {
    if step.AddBegin? || step.AddLoadMin? || step.AddLoadActive? || step.AddLoadMax? {
      AddLoadFrame(s, step);
    } else if step.JoinOne? || step.JoinDone? || step.PoisonDone? {
      JoinStepFrame(s, step);
    } else {
      EnsureLoadFrame(s, step);
    }
  }

  lemma CallerPoison(s: State, step: Step)
    requires !IsWorkerStep(step) && Enabled(s, step)
    ensures CallerPoisonKept(s, Apply(s, step), step.c)
  {
    if step.AddEnqueue? || step.PoisonEnqueue? {
      EnqueuePoison(s, step);
    } else if step.AddPost? || step.PoisonPost? {
      PostStepFrame(s, step);
    } else if IsLoadStep(step) {
      LoadPoison(s, step);
    } else {
      AskPoison(s, step);
    }
  }

  lemma CallerWorkers(s: State, step: Step)
    requires Shape(s) && !IsWorkerStep(step) && Enabled(s, step)
    ensures Sum(Apply(s, step).workers, PoisonedOf()) == Sum(s.workers, PoisonedOf())
    ensures !UsesPoison(s, Apply(s, step))
  {
    if step.EnsureLock? || step.SetNumThreads? {
      GrowStepWorkers(s, step);
      GrowStepParts(s, step);
      StartWorkersAre(s.workers, s.p.nextId, Added(s, step));
    } else if step.AddPost? || step.PoisonPost? {
      SumSet(s.workers, PoisonedOf(), step.wake, HasToken);
    }
  }

  lemma CallerBalance(s: State, step: Step)
    requires Shape(s) && !IsWorkerStep(step) && Enabled(s, step)
    ensures var s' := Apply(s, step);
            Poison(s') + One(UsesPoison(s, s')) + s.p.toStop == Poison(s) + s'.p.toStop + One(TakesStop(s, s'))
  {
    var s' := Apply(s, step);
    CallerPoison(s, step);
    CallerWorkers(s, step);
    OnlyCallerSum(s, s', step.c, PoisonLeftOf());
  }

  ghost predicate BalancedAt(trace: seq<State>, i: nat) {
    InvAt(trace, i) && Poison(trace[i]) + Used(trace, i) == trace[i].p.toStop + Stops(trace, i)
  }

  lemma BalancedNext(trace: seq<State>, i: nat)
    requires i + 1 < |trace| && StepAt(trace, i) && BalancedAt(trace, i)
    ensures BalancedAt(trace, i + 1)
  {
    InvNext(trace, i);
    NextBalance(trace[i], trace[i + 1]);
  }

  lemma NextBalance(s: State, s': State)
    requires Shape(s) && Next(s, s')
    ensures Poison(s') + One(UsesPoison(s, s')) + s.p.toStop == Poison(s) + s'.p.toStop + One(TakesStop(s, s'))
  {
    var step :| Legal(s, step) && s' == Apply(s, step);
    if IsWorkerStep(step) {
      WorkerBalance(s, step);
    } else {
      CallerBalance(s, step);
    }
  }

  lemma StartsBalanced(s: State)
    requires Starts(s)
    ensures Poison(s) == 0 && s.p.toStop == 0
  {
    var m, n, o :| s == Constructed(m, n, o);
    ConstructedBalanced(m, n, o);
  }

  lemma ConstructedBalanced(minThreads: nat, numThreads: nat, observers: nat)
    ensures var s := Constructed(minThreads, numThreads, observers); Poison(s) == 0 && s.p.toStop == 0
  {
    var s := Constructed(minThreads, numThreads, observers);
    ConstructedThreads(minThreads, numThreads, observers);
    SumZero(s.workers, PoisonedOf());
  }

  lemma BalancedThroughout(trace: seq<State>, i: nat)
    requires i < |trace| && BalancedAt(trace, 0) && forall k: nat :: k + 1 < |trace| ==> StepAt(trace, k)
    ensures BalancedAt(trace, i)
  {
    var j := 0;
    while j < i
      invariant j <= i && BalancedAt(trace, j)
    {
      BalancedNext(trace, j);
      j := j + 1;
    }
  }

  /**
   In every run the poison tasks there are and those used up make exactly as many as the threads still
   to stop and those stopped: each thread asked to stop, by a resize, stop() or join(), got one.
   */
  lemma PoisonPerStop(trace: seq<State>, i: nat)
    requires Run(trace) && i < |trace|
    ensures Poison(trace[i]) + Used(trace, i) == trace[i].p.toStop + Stops(trace, i)
  {
    StartsInv(trace[0]);
    StartsBalanced(trace[0]);
    BalancedThroughout(trace, i);
  }
}
