/** Tasks are taken in the order in which add() queued them, in every run of the pool. */
module TaskOrder {
  import opened Pool
  import opened PoolRuns

  /** Task a is queued ahead of task b. */
  ghost predicate Ahead(s: State, a: nat, b: nat) {
    exists i: nat, j: nat :: i < j && JobAt(s, a, Queued(i)) && JobAt(s, b, Queued(j))
  }

  /** A worker has taken the task. */
  ghost predicate Taken(s: State, job: nat) {
    job in s.done || exists w :: JobAt(s, job, InWorker(w))
  }

  lemma TakenStaysWorker(s: State, step: Step, job: nat)
    requires IsWorkerStep(step) && Enabled(s, step) && Taken(s, job)
    ensures Taken(Apply(s, step), job)
  {
    var s' := Apply(s, step);
    if w :| JobAt(s, job, InWorker(w)) {
      assert step.w == w ==> job in s'.done;
      assert step.w != w ==> JobAt(s', job, InWorker(w));
    }
  }

  lemma BusyStays(s: State, step: Step, w: nat, job: nat)
    requires Shape(s) && !IsWorkerStep(step) && Enabled(s, step) && WorkerAt(s, w, Running(job))
    ensures WorkerAt(Apply(s, step), w, Running(job))
  {
    if step.EnsureLock? || step.SetNumThreads? {
      GrowStepParts(s, step);
      StartWorkersAre(s.workers, s.p.nextId, Added(s, step));
    }
  }

  lemma TakenStays(s: State, step: Step, job: nat)
    requires Shape(s) && Enabled(s, step) && Taken(s, job)
    ensures Taken(Apply(s, step), job)
  {
    if IsWorkerStep(step) {
      TakenStaysWorker(s, step, job);
    } else if w :| JobAt(s, job, InWorker(w)) {
      BusyStays(s, step, w, job);
      assert JobAt(Apply(s, step), job, InWorker(w));
    }
  }

  /** A step leaves two queued tasks in their order, or takes the first of them. */
  lemma AheadStep(s: State, step: Step, a: nat, b: nat)
    requires Enabled(s, step) && Ahead(s, a, b)
    ensures Ahead(Apply(s, step), a, b) || Taken(Apply(s, step), a)
  {
    var s' := Apply(s, step);
    var i: nat, j: nat :| i < j && JobAt(s, a, Queued(i)) && JobAt(s, b, Queued(j));
    if step.WorkerDequeue? {
      if i == 0 {
        assert JobAt(s', a, InWorker(step.w));
      } else {
        assert JobAt(s', a, Queued(i - 1)) && JobAt(s', b, Queued(j - 1));
      }
    } else {
      QueueGrows(s, step);
      assert JobAt(s', a, Queued(i)) && JobAt(s', b, Queued(j));
    }
  }

  lemma QueueGrows(s: State, step: Step)
    requires Enabled(s, step) && !step.WorkerDequeue?
    ensures s.p.queue <= Apply(s, step).p.queue
  {
  }

  /** A task is queued behind all those already there. */
  lemma NewTaskIsLast(s: State, step: Step, a: nat)
    requires step.AddEnqueue? && Enabled(s, step) && Job(a) in s.p.queue
    ensures Carries(s.callers[step.c], s.callers[step.c].job) && Ahead(Apply(s, step), a, s.callers[step.c].job)
  {
    var i: nat :| i < |s.p.queue| && s.p.queue[i] == Job(a);
    var s' := Apply(s, step);
    assert JobAt(s', a, Queued(i)) && JobAt(s', s.callers[step.c].job, Queued(|s.p.queue|));
  }

  ghost predicate OrderAt(trace: seq<State>, i: nat, a: nat, b: nat) {
    i < |trace| && (Ahead(trace[i], a, b) || Taken(trace[i], a))
  }

  ghost predicate ShapeAt(trace: seq<State>, i: nat) {
    i < |trace| && Shape(trace[i])
  }

  lemma RunShape(trace: seq<State>, i: nat)
    requires Run(trace) && i < |trace|
    ensures ShapeAt(trace, i)
  {
    RunInv(trace, i);
  }

  lemma OrderNext(trace: seq<State>, i: nat, a: nat, b: nat)
    requires i + 1 < |trace| && StepAt(trace, i) && ShapeAt(trace, i) && OrderAt(trace, i, a, b)
    ensures OrderAt(trace, i + 1, a, b)
  {
    var step :| Legal(trace[i], step) && trace[i + 1] == Apply(trace[i], step);
    if Taken(trace[i], a) {
      TakenStays(trace[i], step, a);
    } else {
      AheadStep(trace[i], step, a, b);
    }
  }

  lemma OrderThroughout(trace: seq<State>, i: nat, j: nat, a: nat, b: nat)
    requires i <= j < |trace| && OrderAt(trace, i, a, b)
    requires forall k: nat :: k + 1 < |trace| ==> StepAt(trace, k) && ShapeAt(trace, k)
    ensures OrderAt(trace, j, a, b)
  {
    var k := i;
    while k < j
      invariant i <= k <= j && OrderAt(trace, k, a, b)
    {
      OrderNext(trace, k, a, b);
      k := k + 1;
    }
  }

  /** In every run: of two queued tasks the one behind is taken only after the one ahead. */
  lemma TasksTakenInOrder(trace: seq<State>, i: nat, j: nat, a: nat, b: nat)
    requires Run(trace) && i <= j < |trace| && Ahead(trace[i], a, b) && Taken(trace[j], b)
    ensures Taken(trace[j], a)
  {
    forall k: nat | k + 1 < |trace| ensures StepAt(trace, k) && ShapeAt(trace, k) {
      RunShape(trace, k);
    }
    OrderThroughout(trace, i, j, a, b);
    RunJobsApart(trace, j);
    if Ahead(trace[j], a, b) {
      QueuedNotTaken(trace[j], a, b);
    }
  }

  lemma QueuedNotTaken(s: State, a: nat, b: nat)
    requires JobsApart(s) && Ahead(s, a, b)
    ensures !Taken(s, b)
  {
    var i: nat, j: nat :| i < j && JobAt(s, a, Queued(i)) && JobAt(s, b, Queued(j));
    assert forall p :: JobAt(s, b, p) ==> p == Queued(j);
    assert b in s.done ==> JobAt(s, b, Finished);
  }
}
