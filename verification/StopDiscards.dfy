/**
 What tells stop() from join(): after stop() no worker starts more than the one task it is about to
 take. And the flag behind it is off as long as nobody joins.
 */
module StopDiscards {
  import opened Counting
  import opened Pool
  import opened PoolRuns
  import opened PoolShutdown

  /** The task a worker runs, or may still take before it looks at the flag. */
  function MayFinish(): Worker -> nat {
    (x: Worker) =>
      match x
      case Top => 1
      case Asleep => 1
      case HasToken => 1
      case Running(_) => 1
      case _ => 0
  }

  /** Tasks finished, and those that may still be. */
  ghost function Bound(s: State): nat {
    |s.done| + Sum(s.workers, MayFinish())
  }

  /** A shutdown is under way, without join(), and every thread there is has been asked to stop. */
  ghost predicate Stopping(s: State, extra: nat) {
    InvWith(s, extra) && Quiet(s) && !s.p.isJoin
  }

  /** Between two tasks a worker finds that it is to stop. */
  lemma WorkerFinishesOne(s: State, step: Step, s': State)
    requires IsWorkerStep(step) && AfterShutdownStep(s, step, s') && !s.p.isJoin && s.p.toStop > 0 && !step.WorkerDecide?
    ensures |s'.done| + WorkerHolds(s', step.w, MayFinish()) <= |s.done| + MayFinish()(s.workers[step.w])
  {
  }

  lemma WorkerBound(s: State, step: Step, s': State, extra: nat)
    requires Stopping(s, extra) && IsWorkerStep(step) && AfterShutdownStep(s, step, s')
    ensures Bound(s') <= Bound(s)
  {
    assert !step.WorkerDecide?;
    assert step.w in s.p.list;
    assert |s.p.list| > 0;
    WorkerFinishesOne(s, step, s');
    WorkerStepFrame(s, step);
    if step.w in s'.workers {
      SumSet(s.workers, MayFinish(), step.w, s'.workers[step.w]);
    } else {
      SumDrop(s.workers, MayFinish(), step.w);
    }
  }

  lemma CallerBound(s: State, step: Step, s': State)
    requires Quiet(s) && !IsWorkerStep(step) && AfterShutdownStep(s, step, s')
    ensures Bound(s') == Bound(s)
  {
    if (step.AddPost? || step.PoisonPost?) && WorkerAt(s, step.wake, Asleep) {
      SumSet(s.workers, MayFinish(), step.wake, HasToken);
    } else {
      assert s'.workers == s.workers;
    }
  }

  lemma FlagStays(s: State, step: Step, s': State)
    requires AfterShutdownStep(s, step, s')
    ensures s'.p.isJoin == s.p.isJoin
  {
  }

  lemma StoppingStep(s: State, s': State, extra: nat)
    requires Stopping(s, extra) && AfterShutdownNext(s, s')
    ensures Stopping(s', extra) && Bound(s') <= Bound(s)
  {
    AfterShutdownKeeps(s, s', extra);
    var step :| AfterShutdownStep(s, step, s');
    FlagStays(s, step, s');
    if IsWorkerStep(step) {
      WorkerBound(s, step, s', extra);
    } else {
      CallerBound(s, step, s');
    }
  }

  ghost predicate BoundAt(trace: seq<State>, extra: nat, bound: nat, i: nat) {
    i < |trace| && Stopping(trace[i], extra) && Bound(trace[i]) <= bound
  }

  lemma BoundNext(trace: seq<State>, extra: nat, bound: nat, i: nat)
    requires i + 1 < |trace| && AfterShutdownAt(trace, i) && BoundAt(trace, extra, bound, i)
    ensures BoundAt(trace, extra, bound, i + 1)
  {
    StoppingStep(trace[i], trace[i + 1], extra);
  }

  lemma BoundThroughout(trace: seq<State>, extra: nat, bound: nat, i: nat)
    requires AfterShutdown(trace) && i < |trace| && BoundAt(trace, extra, bound, 0)
    ensures BoundAt(trace, extra, bound, i)
  {
    var j := 0;
    while j < i
      invariant j <= i && BoundAt(trace, extra, bound, j)
    {
      BoundNext(trace, extra, bound, j);
      j := j + 1;
    }
  }

  lemma {:induction false} SumAtMostSize<K, T>(m: map<K, T>, f: T -> nat)
    requires forall x :: f(x) <= 1
    ensures Sum(m, f) <= |m|
    decreases |m|
  {
    if m != map[] {
      var k :| k in m;
      SumDrop(m, f, k);
      assert (m - {k}).Keys == m.Keys - {k};
      SumAtMostSize(m - {k}, f);
    }
  }

  /**
   After stop() each worker finishes at most one more task, and only one that was not yet past its
   last: the tasks behind are left unrun, however many are queued or added, and however long it goes on.
   */
  lemma StopFinishesOneEach(s: State, c: nat, trace: seq<State>, i: nat)
    requires ShutdownRun(s, c, false, trace) && i < |trace|
    ensures |trace[i].done| <= |s.done| + Sum(s.workers, MayFinish())
    ensures |trace[i].done| <= |s.done| + |s.p.list|
  {
    ShutdownBegins(s, c, false);
    assert BoundAt(trace, s.p.toStop, Bound(s), 0);
    BoundThroughout(trace, s.p.toStop, Bound(s), i);
    SumAtMostSize(s.workers, MayFinish());
    assert |s.workers| == |s.workers.Keys| == |s.p.list|;
  }

  // The flag before any join()

  ghost predicate NoJoinStep(s: State, s': State) {
    exists step :: Legal(s, step) && (step.StopOrJoin? ==> !step.isJoin) && s' == Apply(s, step)
  }

  lemma WorkerKeepsFlag(s: State, step: Step)
    requires IsWorkerStep(step) && Enabled(s, step)
    ensures Apply(s, step).p.isJoin == s.p.isJoin
  {
  }

  lemma CallerKeepsFlag(s: State, step: Step)
    requires !IsWorkerStep(step) && Enabled(s, step) && (step.StopOrJoin? ==> !step.isJoin) && !s.p.isJoin
    ensures !Apply(s, step).p.isJoin
  {
  }

  lemma NoJoinKeepsFlag(s: State, s': State)
    requires NoJoinStep(s, s') && !s.p.isJoin
    ensures !s'.p.isJoin
  {
    var step :| Legal(s, step) && (step.StopOrJoin? ==> !step.isJoin) && s' == Apply(s, step);
    if IsWorkerStep(step) {
      WorkerKeepsFlag(s, step);
    } else {
      CallerKeepsFlag(s, step);
    }
  }

  lemma StartsWithoutFlag(s: State)
    requires Starts(s)
    ensures !s.p.isJoin
  {
  }

  /** As long as nobody calls join(), shrinks and stop() leave the flag off: busy workers stop at once. */
  lemma FlagOffUntilJoin(trace: seq<State>, i: nat)
    requires Run(trace) && i < |trace|
    requires forall k: nat :: k < i ==> NoJoinStep(trace[k], trace[k + 1])
    ensures !trace[i].p.isJoin
  {
    StartsWithoutFlag(trace[0]);
    var j := 0;
    while j < i
      invariant j <= i && !trace[j].p.isJoin
    {
      assert NoJoinStep(trace[j], trace[j + 1]);
      NoJoinKeepsFlag(trace[j], trace[j + 1]);
      j := j + 1;
    }
  }

  /** A shrink switches it off also after a join(). */
  lemma ShrinkClearsFlag(s: State, c: nat, n: nat)
    requires Enabled(s, SetNumThreads(c, n)) && n < s.p.active
    ensures !Apply(s, SetNumThreads(c, n)).p.isJoin
  {
  }
}
