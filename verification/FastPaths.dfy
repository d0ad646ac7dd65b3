/** The lock-free tests do their work: with nothing to stop or to start, nobody asks for the lock. */
module FastPaths {
  import opened Pool
  import opened PoolRuns

  // A worker between two tasks

  /** No worker is on its way to the lock because of threads to stop. */
  ghost predicate NoneStopping(s: State) {
    forall w :: w in s.workers ==> !s.workers[w].SawStop? && !s.workers[w].WantsStop?
  }

  lemma NoneStoppingStep(s: State, step: Step)
    requires Shape(s) && NoneStopping(s) && s.p.toStop == 0 && Enabled(s, step)
    ensures NoneStopping(Apply(s, step))
  {
    if IsWorkerStep(step) {
      WorkerStepFrame(s, step);
    } else if step.EnsureLock? || step.SetNumThreads? {
      GrowStepParts(s, step);
      StartWorkersAre(s.workers, s.p.nextId, Added(s, step));
    }
  }

  ghost predicate QuietAt(trace: seq<State>, i: nat) {
    InvAt(trace, i) && NoneStopping(trace[i])
  }

  lemma QuietNext(trace: seq<State>, i: nat)
    requires i + 1 < |trace| && StepAt(trace, i) && QuietAt(trace, i) && trace[i].p.toStop == 0
    ensures QuietAt(trace, i + 1)
  {
    InvNext(trace, i);
    var step :| Legal(trace[i], step) && trace[i + 1] == Apply(trace[i], step);
    NoneStoppingStep(trace[i], step);
  }

  lemma StartsQuiet(s: State)
    requires Starts(s)
    ensures NoneStopping(s)
  {
    var m, n, o :| s == Constructed(m, n, o);
    ConstructedThreads(m, n, o);
  }

  lemma QuietThroughout(trace: seq<State>, i: nat)
    requires i < |trace| && QuietAt(trace, 0) && forall k: nat :: k + 1 < |trace| ==> StepAt(trace, k)
    requires forall k :: 0 <= k < i ==> trace[k].p.toStop == 0
    ensures QuietAt(trace, i)
  {
    var j := 0;
    while j < i
      invariant j <= i && QuietAt(trace, j)
    {
      QuietNext(trace, j);
      j := j + 1;
    }
  }

  /** As long as no thread has been asked to stop, workers go from task to task without the lock. */
  lemma WorkersGoOnUnlocked(trace: seq<State>, i: nat)
    requires Run(trace) && i < |trace| && forall k :: 0 <= k < i ==> trace[k].p.toStop == 0
    ensures NoneStopping(trace[i])
  {
    StartsInv(trace[0]);
    StartsQuiet(trace[0]);
    QuietThroughout(trace, i);
  }

  // An adder to a full pool

  /** The caller is not in ensureActiveThreads, nor going there. */
  predicate StaysOut(x: Caller, max: nat) {
    match x
    case AddSawActive(_, active) => active >= max
    case AddDecided(_, may) => !may
    case AddUnposted(may) => !may
    case EnsureStart => false
    case EnsureWantsJoin => false
    case EnsureLoad => false
    case EnsureSawActive(_) => false
    case EnsureWantsLock => false
    case Joining(_, resume) => !resume
    case _ => true
  }

  ghost predicate AllStayOut(s: State, max: nat) {
    forall c :: c in s.callers ==> StaysOut(s.callers[c], max)
  }

  /** All the threads allowed are active, and one is the least. */
  predicate Full(s: State, max: nat) {
    s.p.maxThreads == max && s.p.active >= max && s.p.minThreads >= 1
  }

  lemma StayOutStep(s: State, step: Step, max: nat)
    requires AllStayOut(s, max) && Full(s, max) && Enabled(s, step)
    ensures AllStayOut(Apply(s, step), max)
  {
    var s' := Apply(s, step);
    if IsWorkerStep(step) {
      assert s'.callers == s.callers;
    } else {
      OwnStaysOut(s, step, max);
    }
  }

  lemma OwnStaysOut(s: State, step: Step, max: nat)
    requires Full(s, max) && !IsWorkerStep(step) && Enabled(s, step)
    requires step.c in s.callers ==> StaysOut(s.callers[step.c], max)
    ensures var s' := Apply(s, step);
            && (step.c in s'.callers ==> StaysOut(s'.callers[step.c], max))
            && (forall d :: d in s'.callers && d != step.c ==> d in s.callers && s'.callers[d] == s.callers[d])
  {
  }

  ghost predicate OutAt(trace: seq<State>, i: nat, max: nat) {
    i < |trace| && AllStayOut(trace[i], max)
  }

  lemma OutNext(trace: seq<State>, i: nat, max: nat)
    requires i + 1 < |trace| && StepAt(trace, i) && OutAt(trace, i, max) && Full(trace[i], max)
    ensures OutAt(trace, i + 1, max)
  {
    var step :| Legal(trace[i], step) && trace[i + 1] == Apply(trace[i], step);
    StayOutStep(trace[i], step, max);
  }

  /** As long as the pool is full, calls of add() that begin meanwhile never enter ensureActiveThreads. */
  lemma FullPoolAddsUnlocked(trace: seq<State>, i: nat, j: nat, max: nat)
    requires i <= j < |trace| && AllStayOut(trace[i], max) && forall k: nat :: k + 1 < |trace| ==> StepAt(trace, k)
    requires forall k :: i <= k < j ==> Full(trace[k], max)
    ensures AllStayOut(trace[j], max)
  {
    var k := i;
    while k < j
      invariant i <= k <= j && OutAt(trace, k, max)
    {
      OutNext(trace, k, max);
      k := k + 1;
    }
  }

  /** And one that does enter it when all threads allowed are active leaves again without the lock. */
  lemma EnsureLeavesUnlocked(s: State, c: nat)
    requires c in s.callers && s.callers[c] == EnsureLoad && s.p.active >= s.p.maxThreads
    ensures Enabled(s, EnsureLoadActive(c))
    ensures var s1 := Apply(s, EnsureLoadActive(c));
            Enabled(s1, EnsureLoadMax(c)) && c !in Apply(s1, EnsureLoadMax(c)).callers
  {
  }
}
