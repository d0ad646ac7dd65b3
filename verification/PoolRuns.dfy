/**
 The thread pool as a step system: workers, callers of add(), and callers that resize or shut
 down, interleaved. What a thread does under threadListLock_ is one step, except that the lock-free
 readers can see tryTimeoutThread between its two halves, and that poison tasks are added one by
 one. The task queue is a FIFO with a semaphore, as in UnboundedBlockingQueue: add enqueues, then
 posts; a worker first gets a token from the semaphore, then dequeues.
 */
module PoolRuns {
  import opened Counting
  import opened Pool

  /**
   Top: before taking a task. Asleep: waiting on the semaphore. TimedOut: try_take_for came back
   empty. AfterTask, SawStop, WantsStop: before the test threadsToStop_ > 0 && !isJoin_, after its
   first load found threads to stop, and after it succeeded. Deciding: inside tryTimeoutThread with
   activeThreads_ already lowered, holding the lock.
   */
  datatype Worker =
    | Top | Asleep | HasToken
    | Running(job: nat) | AfterTask | SawStop | WantsStop
    | HasPoison | TimedOut | Deciding

  /** A thread inside add, ensureActiveThreads, ensureJoined, setNumThreads, stop or join. */
  datatype Caller =
    | AddStart(job: nat)
    | AddSawMin(job: nat)
    | AddSawActive(job: nat, active: nat)
    | AddDecided(job: nat, may: bool)
    | AddUnposted(may: bool)
    | EnsureStart
    | EnsureWantsJoin
    | EnsureLoad
    | EnsureSawActive(active: nat)
    | EnsureWantsLock
    | Poisoning(left: nat, unposted: bool, owed: nat)
    | Joining(left: nat, resume: bool)

  datatype Lock = Free | HeldByWorker(w: nat) | HeldByCaller(c: nat)

  datatype State = State(
    p: Pool, value: nat, workers: map<nat, Worker>, callers: map<nat, Caller>, lock: Lock, done: set<nat>)

  /** A newly constructed executor, before anyone else can use it; observers are fixed over a run. */
  function Constructed(minThreads: nat, numThreads: nat, observers: nat): State {
    State(Construct(numThreads, minThreads).(observers := observers), 0,
          StartWorkers(map[], 0, Missing(Fresh(minThreads), numThreads)), map[], Free, {})
  }

  datatype Step =
    | WorkerWait(w: nat)
    | WorkerTimeOut(w: nat)
    | WorkerDequeue(w: nat)
    | WorkerFinish(w: nat)
    | WorkerLoadToStop(w: nat)
    | WorkerLoadIsJoin(w: nat)
    | WorkerLock(w: nat)
    | WorkerDecide(w: nat)
    | AddBegin(c: nat, job: nat)
    | AddLoadMin(c: nat)
    | AddLoadActive(c: nat)
    | AddLoadMax(c: nat)
    | AddEnqueue(c: nat)
    | AddPost(c: nat, wake: nat)
    | EnsureLoadJoin(c: nat)
    | EnsureTakeJoin(c: nat)
    | EnsureLoadActive(c: nat)
    | EnsureLoadMax(c: nat)
    | EnsureLock(c: nat)
    | SetNumThreads(c: nat, n: nat)
    | StopOrJoin(c: nat, isJoin: bool)
    | PoisonEnqueue(c: nat)
    | PoisonPost(c: nat, wake: nat)
    | PoisonDone(c: nat)
    | JoinOne(c: nat)
    | JoinDone(c: nat)

  predicate WorkerAt(s: State, w: nat, x: Worker) {
    w in s.workers && s.workers[w] == x
  }

  ghost predicate NoneAsleep(s: State) {
    forall w :: w in s.workers ==> !s.workers[w].Asleep?
  }

  /** post() wakes a sleeping worker if there is one. */
  ghost predicate CanPost(s: State, wake: nat) {
    WorkerAt(s, wake, Asleep) || NoneAsleep(s)
  }

  /** Where the submission with a given number is. */
  datatype Place = Queued(i: nat) | InWorker(w: nat) | InCaller(c: nat) | Finished

  predicate Carries(x: Caller, job: nat) {
    match x
    case AddStart(j) => j == job
    case AddSawMin(j) => j == job
    case AddSawActive(j, _) => j == job
    case AddDecided(j, _) => j == job
    case _ => false
  }

  predicate JobAt(s: State, job: nat, p: Place) {
    match p
    case Queued(i) => i < |s.p.queue| && s.p.queue[i] == Job(job)
    case InWorker(w) => WorkerAt(s, w, Running(job))
    case InCaller(c) => c in s.callers && Carries(s.callers[c], job)
    case Finished => job in s.done
  }

  /** Every call of add() submits a task of its own: its number is nowhere yet. */
  ghost predicate NewJob(s: State, job: nat) {
    forall p :: !JobAt(s, job, p)
  }

  ghost predicate Enabled(s: State, step: Step) {
    match step
    case WorkerWait(w) => WorkerAt(s, w, Top)
    case WorkerTimeOut(w) => WorkerAt(s, w, Asleep)
    case WorkerDequeue(w) => WorkerAt(s, w, HasToken) && s.p.queue != []
    case WorkerFinish(w) => w in s.workers && s.workers[w].Running?
    case WorkerLoadToStop(w) => WorkerAt(s, w, AfterTask)
    case WorkerLoadIsJoin(w) => WorkerAt(s, w, SawStop)
    case WorkerLock(w) =>
      s.lock.Free? && (WorkerAt(s, w, WantsStop) || WorkerAt(s, w, HasPoison) || WorkerAt(s, w, TimedOut))
    case WorkerDecide(w) => WorkerAt(s, w, Deciding)
    case AddBegin(c, job) => c !in s.callers && NewJob(s, job)
    case AddLoadMin(c) => c in s.callers && s.callers[c].AddStart?
    case AddLoadActive(c) => c in s.callers && s.callers[c].AddSawMin?
    case AddLoadMax(c) => c in s.callers && s.callers[c].AddSawActive?
    case AddEnqueue(c) => c in s.callers && s.callers[c].AddDecided?
    case AddPost(c, wake) => c in s.callers && s.callers[c].AddUnposted? && CanPost(s, wake)
    case EnsureLoadJoin(c) => c in s.callers && s.callers[c].EnsureStart?
    case EnsureTakeJoin(c) => s.lock.Free? && c in s.callers && s.callers[c].EnsureWantsJoin?
    case EnsureLoadActive(c) => c in s.callers && s.callers[c].EnsureLoad?
    case EnsureLoadMax(c) => c in s.callers && s.callers[c].EnsureSawActive?
    case EnsureLock(c) => s.lock.Free? && c in s.callers && s.callers[c].EnsureWantsLock?
    case SetNumThreads(c, _) => s.lock.Free? && c !in s.callers
    case StopOrJoin(c, _) => s.lock.Free? && c !in s.callers
    case PoisonEnqueue(c) => c in s.callers && s.callers[c].Poisoning? && !s.callers[c].unposted && s.callers[c].left > 0
    case PoisonPost(c, wake) => c in s.callers && s.callers[c].Poisoning? && s.callers[c].unposted && CanPost(s, wake)
    case PoisonDone(c) => c in s.callers && s.callers[c].Poisoning? && !s.callers[c].unposted && s.callers[c].left == 0
    case JoinOne(c) => c in s.callers && s.callers[c].Joining? && s.callers[c].left > 0 && s.p.stopped != []
    case JoinDone(c) => c in s.callers && s.callers[c].Joining? && s.callers[c].left == 0
  }

  function SetWorker(s: State, w: nat, x: Worker): State {
    s.(workers := s.workers[w := x])
  }

  function SetCaller(s: State, c: nat, x: Caller): State {
    s.(callers := s.callers[c := x])
  }

  function DropWorker(s: State, w: nat): State {
    s.(workers := s.workers - {w})
  }

  function DropCaller(s: State, c: nat): State {
    s.(callers := s.callers - {c})
  }

  function Post(s: State, wake: nat): State {
    if WorkerAt(s, wake, Asleep) then SetWorker(s, wake, HasToken) else s.(value := s.value + 1)
  }

  /** n new workers, with the ids addThreads gives them. */
  function StartWorkers(workers: map<nat, Worker>, from: nat, n: nat): map<nat, Worker> {
    if n == 0 then workers else StartWorkers(workers, from, n - 1)[from + n - 1 := Top]
  }

  ghost function Apply(s: State, step: Step): State
    requires Enabled(s, step)
  {
    match step
    case WorkerWait(w) =>
      if s.value > 0 then SetWorker(s.(value := s.value - 1), w, HasToken) else SetWorker(s, w, Asleep)
    case WorkerTimeOut(w) => SetWorker(s, w, TimedOut)
    case WorkerDequeue(w) =>
      var task := s.p.queue[0];
      SetWorker(s.(p := s.p.(queue := s.p.queue[1..])), w, if task.Poison? then HasPoison else Running(task.id))
    case WorkerFinish(w) => SetWorker(s.(done := s.done + {s.workers[w].job}), w, AfterTask)
    case WorkerLoadToStop(w) => SetWorker(s, w, if s.p.toStop > 0 then SawStop else Top)
    case WorkerLoadIsJoin(w) => SetWorker(s, w, if s.p.isJoin then Top else WantsStop)
    case WorkerLock(w) =>
      if s.p.toStop > 0 then DropWorker(s.(p := StopCounted(s.p, w)), w)
      else if s.workers[w].TimedOut? && s.p.active > s.p.minThreads then
        SetWorker(s.(p := BeginTimeout(s.p), lock := HeldByWorker(w)), w, Deciding)
      else SetWorker(s, w, Top)
    case WorkerDecide(w) =>
      var s1 := s.(p := EndTimeout(s.p, w), lock := Free);
      if |s.p.queue| > 0 then SetWorker(s1, w, Top) else DropWorker(s1, w)
    case AddBegin(c, job) => SetCaller(s, c, AddStart(job))
    case AddLoadMin(c) =>
      var job := s.callers[c].job;
      SetCaller(s, c, if s.p.minThreads == 0 then AddDecided(job, true) else AddSawMin(job))
    case AddLoadActive(c) => SetCaller(s, c, AddSawActive(s.callers[c].job, s.p.active))
    case AddLoadMax(c) =>
      SetCaller(s, c, AddDecided(s.callers[c].job, s.callers[c].active < s.p.maxThreads))
    case AddEnqueue(c) =>
      SetCaller(s.(p := s.p.(queue := s.p.queue + [Job(s.callers[c].job)])), c, AddUnposted(s.callers[c].may))
    case AddPost(c, wake) =>
      var reused := WorkerAt(s, wake, Asleep);
      if s.callers[c].may && !reused then SetCaller(Post(s, wake), c, EnsureStart)
      else DropCaller(Post(s, wake), c)
    case EnsureLoadJoin(c) => SetCaller(s, c, if s.p.toJoin == 0 then EnsureLoad else EnsureWantsJoin)
    case EnsureTakeJoin(c) => SetCaller(s.(p := s.p.(toJoin := 0)), c, Joining(s.p.toJoin, true))
    case EnsureLoadActive(c) => SetCaller(s, c, EnsureSawActive(s.p.active))
    case EnsureLoadMax(c) =>
      if s.callers[c].active >= s.p.maxThreads then DropCaller(s, c) else SetCaller(s, c, EnsureWantsLock)
    case EnsureLock(c) =>
      var n := if s.p.active >= s.p.maxThreads then 0 else 1;
      DropCaller(s.(p := EnsureOne(s.p), workers := StartWorkers(s.workers, s.p.nextId, n)), c)
    case SetNumThreads(c, n) =>
      var k := Excess(s.p, n);
      var s1 := s.(p := Resize(s.p, n),
                   workers := StartWorkers(s.workers, s.p.nextId, if k > 0 then 0 else Missing(s.p, n)));
      if k > 0 then SetCaller(s1.(lock := HeldByCaller(c)), c, Poisoning(k, false, k))
      else SetCaller(s1, c, Joining(0, false))
    case StopOrJoin(c, isJoin) =>
      SetCaller(s.(p := Shutdown(s.p, isJoin), lock := HeldByCaller(c)), c,
                Poisoning(|s.p.list|, false, ShutdownOwed(s.p)))
    case PoisonEnqueue(c) =>
      SetCaller(s.(p := s.p.(queue := s.p.queue + [Poison])), c,
                Poisoning(s.callers[c].left - 1, true, s.callers[c].owed))
    case PoisonPost(c, wake) =>
      SetCaller(Post(s, wake), c, Poisoning(s.callers[c].left, false, s.callers[c].owed))
    case PoisonDone(c) => SetCaller(s.(lock := Free), c, Joining(s.callers[c].owed, false))
    case JoinOne(c) =>
      SetCaller(s.(p := s.p.(stopped := s.p.stopped[1..])), c, Joining(s.callers[c].left - 1, s.callers[c].resume))
    case JoinDone(c) => if s.callers[c].resume then SetCaller(s, c, EnsureLoad) else DropCaller(s, c)
  }

  // Invariant

  function TokenOf(): Worker -> nat {
    (x: Worker) => if x.HasToken? then 1 else 0
  }

  function PoisonedOf(): Worker -> nat {
    (x: Worker) => if x.HasPoison? then 1 else 0
  }

  /** Joins the caller has still to do. */
  function OwedOf(): Caller -> nat {
    (x: Caller) => if x.Poisoning? then x.owed else if x.Joining? then x.left else 0
  }

  function UnpostedOf(): Caller -> nat {
    (x: Caller) => if x.AddUnposted? || (x.Poisoning? && x.unposted) then 1 else 0
  }

  function PoisonLeftOf(): Caller -> nat {
    (x: Caller) => if x.Poisoning? then x.left else 0
  }

  function CountPoison(queue: seq<Task>): nat {
    if queue == [] then 0 else (if queue[0].Poison? then 1 else 0) + CountPoison(queue[1..])
  }

  function Held(s: State): nat {
    if s.lock.HeldByWorker? then 1 else 0
  }

  ghost predicate Shape(s: State) {
    && s.workers.Keys == s.p.list
    && (forall i :: i in s.p.list ==> i < s.p.nextId)
  }

  ghost predicate LockInv(s: State) {
    && (forall w :: w in s.workers ==> (s.workers[w].Deciding? <==> s.lock == HeldByWorker(w)))
    && (forall c :: c in s.callers ==> (s.callers[c].Poisoning? <==> s.lock == HeldByCaller(c)))
    && (s.lock.HeldByWorker? ==> s.lock.w in s.workers)
    && (s.lock.HeldByCaller? ==> s.lock.c in s.callers)
  }

  /**
   L + extra = A + S and Q + S = J + C, and the active count respects the maximum. Extra threads to
   stop, more than there are, come only from a shutdown that starts before an earlier shrink is done.
   */
  ghost predicate Conserved(s: State, extra: nat) {
    && |s.p.list| + extra == s.p.active + s.p.toStop + Held(s)
    && |s.p.stopped| + s.p.toStop == s.p.toJoin + Sum(s.callers, OwedOf())
    && s.p.active + Held(s) <= s.p.maxThreads
  }

  /** Every queued task has its token on the semaphore, in a worker's hand, or about to be posted. */
  ghost predicate TokensMatch(s: State) {
    && |s.p.queue| == s.value + Sum(s.workers, TokenOf()) + Sum(s.callers, UnpostedOf())
    && (s.value > 0 ==> NoneAsleep(s))
  }

  /** Threads to stop never outnumber the poison tasks queued, held, or about to be queued. */
  ghost predicate PoisonSuffices(s: State) {
    s.p.toStop <= CountPoison(s.p.queue) + Sum(s.workers, PoisonedOf()) + Sum(s.callers, PoisonLeftOf())
  }

  ghost predicate InvWith(s: State, extra: nat) {
    Shape(s) && LockInv(s) && Conserved(s, extra) && TokensMatch(s) && PoisonSuffices(s)
  }

  ghost predicate Inv(s: State) {
    InvWith(s, 0)
  }

  lemma {:induction false} CountPoisonAppend(queue: seq<Task>, t: Task)
    ensures CountPoison(queue + [t]) == CountPoison(queue) + if t.Poison? then 1 else 0
  {
    if queue != [] {
      assert (queue + [t])[1..] == queue[1..] + [t];
      CountPoisonAppend(queue[1..], t);
    } else {
      assert queue + [t] == [t];
    }
  }

  lemma WorkerSums(s: State, w: nat, x: Worker)
    ensures var m := s.workers[w := x];
            && Sum(m, TokenOf()) + (if w in s.workers then TokenOf()(s.workers[w]) else 0)
               == Sum(s.workers, TokenOf()) + TokenOf()(x)
            && Sum(m, PoisonedOf()) + (if w in s.workers then PoisonedOf()(s.workers[w]) else 0)
               == Sum(s.workers, PoisonedOf()) + PoisonedOf()(x)
  {
    SumSet(s.workers, TokenOf(), w, x);
    SumSet(s.workers, PoisonedOf(), w, x);
  }

  lemma WorkerDropSums(s: State, w: nat)
    requires w in s.workers
    ensures Sum(s.workers - {w}, TokenOf()) + TokenOf()(s.workers[w]) == Sum(s.workers, TokenOf())
    ensures Sum(s.workers - {w}, PoisonedOf()) + PoisonedOf()(s.workers[w]) == Sum(s.workers, PoisonedOf())
  {
    SumDrop(s.workers, TokenOf(), w);
    SumDrop(s.workers, PoisonedOf(), w);
  }

  lemma CallerSums(s: State, c: nat, x: Caller)
    ensures var m := s.callers[c := x];
            && Sum(m, OwedOf()) + (if c in s.callers then OwedOf()(s.callers[c]) else 0)
               == Sum(s.callers, OwedOf()) + OwedOf()(x)
            && Sum(m, UnpostedOf()) + (if c in s.callers then UnpostedOf()(s.callers[c]) else 0)
               == Sum(s.callers, UnpostedOf()) + UnpostedOf()(x)
            && Sum(m, PoisonLeftOf()) + (if c in s.callers then PoisonLeftOf()(s.callers[c]) else 0)
               == Sum(s.callers, PoisonLeftOf()) + PoisonLeftOf()(x)
  {
    SumSet(s.callers, OwedOf(), c, x);
    SumSet(s.callers, UnpostedOf(), c, x);
    SumSet(s.callers, PoisonLeftOf(), c, x);
  }

  lemma CallerDropSums(s: State, c: nat)
    requires c in s.callers
    ensures Sum(s.callers - {c}, OwedOf()) + OwedOf()(s.callers[c]) == Sum(s.callers, OwedOf())
    ensures Sum(s.callers - {c}, UnpostedOf()) + UnpostedOf()(s.callers[c]) == Sum(s.callers, UnpostedOf())
    ensures Sum(s.callers - {c}, PoisonLeftOf()) + PoisonLeftOf()(s.callers[c]) == Sum(s.callers, PoisonLeftOf())
  {
    SumDrop(s.callers, OwedOf(), c);
    SumDrop(s.callers, UnpostedOf(), c);
    SumDrop(s.callers, PoisonLeftOf(), c);
  }

  lemma {:induction false} StartWorkersAre(workers: map<nat, Worker>, from: nat, n: nat)
    requires forall w :: w in workers ==> w < from
    ensures StartWorkers(workers, from, n).Keys == workers.Keys + Ids(from, n)
    ensures forall w :: w in StartWorkers(workers, from, n) ==>
                          StartWorkers(workers, from, n)[w] == if w in workers then workers[w] else Top
  {
    if n > 0 {
      StartWorkersAre(workers, from, n - 1);
    }
  }

  lemma {:induction false} StartWorkersSum(workers: map<nat, Worker>, from: nat, n: nat, f: Worker -> nat)
    requires (forall w :: w in workers ==> w < from) && f(Top) == 0
    ensures Sum(StartWorkers(workers, from, n), f) == Sum(workers, f)
    ensures forall w :: w in StartWorkers(workers, from, n) ==> w < from + n
  {
    if n > 0 {
      StartWorkersSum(workers, from, n - 1, f);
      var m, k: nat := StartWorkers(workers, from, n - 1), from + n - 1;
      SumSet(m, f, k, Top);
      assert k !in m && StartWorkers(workers, from, n) == m[k := Top];
    }
  }

  // Steps of workers

  predicate IsWorkerStep(step: Step) {
    || step.WorkerWait? || step.WorkerTimeOut? || step.WorkerDequeue? || step.WorkerFinish?
    || step.WorkerLoadToStop? || step.WorkerLoadIsJoin? || step.WorkerLock? || step.WorkerDecide?
  }

  /** What a worker's step does to the workers, the lock and the counts. */
  predicate WorkerFrame(s: State, s': State, w: nat) {
    && w in s.workers && s'.callers == s.callers
    && (if w in s'.workers then s'.workers == s.workers[w := s'.workers[w]] && s'.p.list == s.p.list
        else s'.workers == s.workers - {w} && s'.p.list == s.p.list - {w})
    && s'.p.nextId == s.p.nextId && s'.p.maxThreads == s.p.maxThreads
    && (if w in s'.workers && s'.workers[w].Deciding? then s.lock.Free? && s'.lock == HeldByWorker(w)
        else s'.lock == if s.workers[w].Deciding? then Free else s.lock)
  }

  lemma WorkerStepFrame(s: State, step: Step)
    requires IsWorkerStep(step) && Enabled(s, step)
    ensures WorkerFrame(s, Apply(s, step), step.w)
  {
  }

  lemma WorkerFrameShape(s: State, s': State, w: nat)
    requires Shape(s) && LockInv(s) && WorkerFrame(s, s', w)
    ensures Shape(s') && LockInv(s')
    ensures |s'.p.list| + (if w in s'.workers then 0 else 1) == |s.p.list|
  {
    assert w in s.p.list;
    forall v | v in s'.workers ensures s'.workers[v].Deciding? <==> s'.lock == HeldByWorker(v) {
      if v != w {
        assert s'.workers[v] == s.workers[v];
      }
    }
  }

  lemma WorkerStepConserved(s: State, step: Step, extra: nat)
    requires LockInv(s) && Conserved(s, extra) && IsWorkerStep(step) && Enabled(s, step)
    requires |Apply(s, step).p.list| + (if step.w in Apply(s, step).workers then 0 else 1) == |s.p.list|
    ensures Conserved(Apply(s, step), extra)
  {
    WorkerStepFrame(s, step);
    WorkerStepSizes(s, step);
  }

  lemma WorkerStepSizes(s: State, step: Step)
    requires IsWorkerStep(step) && Enabled(s, step) && (step.WorkerDecide? ==> s.lock.HeldByWorker?)
    ensures var s' := Apply(s, step);
            && s'.p.active + s'.p.toStop + Held(s') + (if step.w in s'.workers then 0 else 1)
               == s.p.active + s.p.toStop + Held(s)
            && |s'.p.stopped| + s'.p.toStop + s.p.toJoin == |s.p.stopped| + s.p.toStop + s'.p.toJoin
            && s'.p.active + Held(s') <= s.p.active + Held(s)
  {
  }

  /** A worker's step neither loses nor makes tokens or poison, except by stopping. */
  predicate WorkerCounts(s: State, s': State, w: nat)
    requires w in s.workers
  {
    var x := s.workers[w];
    && |s'.p.queue| + s.value + TokenOf()(x) == |s.p.queue| + s'.value + WorkerHolds(s', w, TokenOf())
    && (s'.p.toStop == 0
        || s'.p.toStop + CountPoison(s.p.queue) + PoisonedOf()(x)
           <= s.p.toStop + CountPoison(s'.p.queue) + WorkerHolds(s', w, PoisonedOf()))
    && (s'.value > 0 ==> s.value > 0 && !(w in s'.workers && s'.workers[w].Asleep?))
  }

  function WorkerHolds(s: State, w: nat, f: Worker -> nat): nat {
    if w in s.workers then f(s.workers[w]) else 0
  }

  lemma WorkerStepCounts(s: State, step: Step)
    requires IsWorkerStep(step) && Enabled(s, step)
    ensures WorkerCounts(s, Apply(s, step), step.w)
  {
  }

  lemma WorkerFrameTokens(s: State, s': State, w: nat)
    requires TokensMatch(s) && PoisonSuffices(s) && WorkerFrame(s, s', w) && WorkerCounts(s, s', w)
    ensures TokensMatch(s') && PoisonSuffices(s')
  {
    if w in s'.workers {
      WorkerSums(s, w, s'.workers[w]);
    } else {
      WorkerDropSums(s, w);
    }
  }

  lemma WorkerStepInv(s: State, step: Step, extra: nat)
    requires InvWith(s, extra) && IsWorkerStep(step) && Enabled(s, step)
    ensures InvWith(Apply(s, step), extra)
  {
    WorkerStepFrame(s, step);
    WorkerStepCounts(s, step);
    WorkerFrameShape(s, Apply(s, step), step.w);
    WorkerStepConserved(s, step, extra);
    WorkerFrameTokens(s, Apply(s, step), step.w);
  }

  // Steps of callers

  predicate IsLoadStep(step: Step) {
    || step.AddBegin? || step.AddLoadMin? || step.AddLoadActive? || step.AddLoadMax?
    || step.EnsureLoadJoin? || step.EnsureTakeJoin? || step.EnsureLoadActive? || step.EnsureLoadMax?
    || step.JoinOne? || step.JoinDone? || step.PoisonDone?
  }

  /** Caller c comes, goes, or gets on; no other caller changes. */
  predicate OnlyCaller(s: State, s': State, c: nat) {
    && (s'.callers == s.callers - {c} || (c in s'.callers && s'.callers == s.callers[c := s'.callers[c]]))
    && (c in s.callers || c in s'.callers)
  }

  function CallerAt(s: State, c: nat, f: Caller -> nat): nat {
    if c in s.callers then f(s.callers[c]) else 0
  }

  predicate PoisoningAt(s: State, c: nat) {
    c in s.callers && s.callers[c].Poisoning?
  }

  /** Sums over the callers after a step that changes only caller c. */
  lemma CallerStepSums(s: State, s': State, c: nat)
    requires OnlyCaller(s, s', c)
    ensures Sum(s'.callers, OwedOf()) + (if c in s.callers then OwedOf()(s.callers[c]) else 0)
            == Sum(s.callers, OwedOf()) + (if c in s'.callers then OwedOf()(s'.callers[c]) else 0)
    ensures Sum(s'.callers, UnpostedOf()) + (if c in s.callers then UnpostedOf()(s.callers[c]) else 0)
            == Sum(s.callers, UnpostedOf()) + (if c in s'.callers then UnpostedOf()(s'.callers[c]) else 0)
    ensures Sum(s'.callers, PoisonLeftOf()) + (if c in s.callers then PoisonLeftOf()(s.callers[c]) else 0)
            == Sum(s.callers, PoisonLeftOf()) + (if c in s'.callers then PoisonLeftOf()(s'.callers[c]) else 0)
  {
    if c in s'.callers {
      CallerSums(s, c, s'.callers[c]);
    } else {
      CallerDropSums(s, c);
    }
  }

  /** What a step of caller c that queues and posts nothing leaves as it is. */
  predicate LoadFrame(s: State, s': State, c: nat) {
    && OnlyCaller(s, s', c) && s'.workers == s.workers && s'.value == s.value
    && s'.p == s.p.(toJoin := s'.p.toJoin, stopped := s'.p.stopped)
    && CallerAt(s', c, UnpostedOf()) == CallerAt(s, c, UnpostedOf())
    && CallerAt(s', c, PoisonLeftOf()) == CallerAt(s, c, PoisonLeftOf())
    && |s'.p.stopped| + s.p.toJoin + CallerAt(s, c, OwedOf()) == |s.p.stopped| + s'.p.toJoin + CallerAt(s', c, OwedOf())
    && !PoisoningAt(s', c) && s'.lock == (if PoisoningAt(s, c) then Free else s.lock)
  }

  lemma AddLoadFrame(s: State, step: Step)
    requires step.AddBegin? || step.AddLoadMin? || step.AddLoadActive? || step.AddLoadMax?
    requires Enabled(s, step)
    ensures LoadFrame(s, Apply(s, step), step.c)
  {
  }

  lemma EnsureLoadFrame(s: State, step: Step)
    requires step.EnsureLoadJoin? || step.EnsureTakeJoin? || step.EnsureLoadActive? || step.EnsureLoadMax?
    requires Enabled(s, step)
    ensures LoadFrame(s, Apply(s, step), step.c)
  {
  }

  lemma JoinStepFrame(s: State, step: Step)
    requires (step.JoinOne? || step.JoinDone? || step.PoisonDone?) && Enabled(s, step)
    ensures LoadFrame(s, Apply(s, step), step.c)
  {
  }

  lemma LoadFrameInv(s: State, s': State, c: nat, extra: nat)
    requires InvWith(s, extra) && LoadFrame(s, s', c)
    ensures InvWith(s', extra)
  {
    CallerStepSums(s, s', c);
    LoadFrameLock(s, s', c);
  }

  lemma LoadFrameLock(s: State, s': State, c: nat)
    requires LockInv(s) && LoadFrame(s, s', c)
    ensures LockInv(s') && Held(s') == Held(s)
  {
    forall d | d in s'.callers ensures s'.callers[d].Poisoning? <==> s'.lock == HeldByCaller(d) {
      if d != c {
        assert s'.callers[d] == s.callers[d];
      }
    }
  }

  lemma LoadStepInv(s: State, step: Step, extra: nat)
    requires InvWith(s, extra) && IsLoadStep(step) && Enabled(s, step)
    ensures InvWith(Apply(s, step), extra)
  {
    if step.AddBegin? || step.AddLoadMin? || step.AddLoadActive? || step.AddLoadMax? {
      AddLoadFrame(s, step);
    } else if step.JoinOne? || step.JoinDone? || step.PoisonDone? {
      JoinStepFrame(s, step);
    } else {
      EnsureLoadFrame(s, step);
    }
    LoadFrameInv(s, Apply(s, step), step.c, extra);
  }

  /** What caller c's enqueue of task t leaves as it is. */
  predicate EnqueueFrame(s: State, s': State, c: nat, t: Task) {
    && OnlyCaller(s, s', c) && c in s'.callers && c in s.callers
    && s' == s.(p := s.p.(queue := s.p.queue + [t]), callers := s'.callers)
    && CallerAt(s', c, UnpostedOf()) == CallerAt(s, c, UnpostedOf()) + 1
    && CallerAt(s', c, PoisonLeftOf()) + (if t.Poison? then 1 else 0) == CallerAt(s, c, PoisonLeftOf())
    && CallerAt(s', c, OwedOf()) == CallerAt(s, c, OwedOf())
    && PoisoningAt(s', c) == PoisoningAt(s, c)
  }

  lemma EnqueueStepFrame(s: State, step: Step)
    requires (step.AddEnqueue? || step.PoisonEnqueue?) && Enabled(s, step)
    ensures EnqueueFrame(s, Apply(s, step), step.c, if step.AddEnqueue? then Job(s.callers[step.c].job) else Poison)
  {
  }

  lemma EnqueueFrameInv(s: State, s': State, c: nat, t: Task, extra: nat)
    requires InvWith(s, extra) && EnqueueFrame(s, s', c, t)
    ensures InvWith(s', extra)
  {
    CallerStepSums(s, s', c);
    CountPoisonAppend(s.p.queue, t);
    assert LockInv(s') by {
      forall d | d in s'.callers ensures s'.callers[d].Poisoning? <==> s'.lock == HeldByCaller(d) {
        if d != c {
          assert s'.callers[d] == s.callers[d];
        }
      }
    }
  }

  lemma EnqueueStepInv(s: State, step: Step, extra: nat)
    requires InvWith(s, extra) && (step.AddEnqueue? || step.PoisonEnqueue?) && Enabled(s, step)
    ensures InvWith(Apply(s, step), extra)
  {
    EnqueueStepFrame(s, step);
    EnqueueFrameInv(s, Apply(s, step), step.c, if step.AddEnqueue? then Job(s.callers[step.c].job) else Poison, extra);
  }

  /** A post hands a token to a sleeper, or leaves it on the semaphore when there is none. */
  ghost predicate PostFrame(s: State, s': State, c: nat, wake: nat) {
    && OnlyCaller(s, s', c) && c in s.callers && s'.p == s.p && s'.lock == s.lock
    && CanPost(s, wake) && s'.workers == Post(s, wake).workers && s'.value == Post(s, wake).value
    && CallerAt(s', c, UnpostedOf()) + 1 == CallerAt(s, c, UnpostedOf())
    && CallerAt(s', c, PoisonLeftOf()) == CallerAt(s, c, PoisonLeftOf())
    && CallerAt(s', c, OwedOf()) == CallerAt(s, c, OwedOf())
    && PoisoningAt(s', c) == PoisoningAt(s, c)
  }

  lemma PostStepFrame(s: State, step: Step)
    requires (step.AddPost? || step.PoisonPost?) && Enabled(s, step)
    ensures PostFrame(s, Apply(s, step), step.c, step.wake)
  {
  }

  lemma PostFrameShape(s: State, s': State, c: nat, wake: nat)
    requires Shape(s) && LockInv(s) && PostFrame(s, s', c, wake)
    ensures Shape(s') && LockInv(s')
  {
    forall d | d in s'.callers ensures s'.callers[d].Poisoning? <==> s'.lock == HeldByCaller(d) {
      if d != c {
        assert s'.callers[d] == s.callers[d];
      }
    }
  }

  lemma PostFrameTokens(s: State, s': State, c: nat, wake: nat)
    requires TokensMatch(s) && PoisonSuffices(s) && PostFrame(s, s', c, wake)
    ensures TokensMatch(s') && PoisonSuffices(s')
  {
    CallerStepSums(s, s', c);
    WorkerSums(s, wake, HasToken);
  }

  lemma PostFrameInv(s: State, s': State, c: nat, wake: nat, extra: nat)
    requires InvWith(s, extra) && PostFrame(s, s', c, wake)
    ensures InvWith(s', extra)
  {
    PostFrameShape(s, s', c, wake);
    PostFrameTokens(s, s', c, wake);
    CallerStepSums(s, s', c);
  }

  lemma PostStepInv(s: State, step: Step, extra: nat)
    requires InvWith(s, extra) && (step.AddPost? || step.PoisonPost?) && Enabled(s, step)
    ensures InvWith(Apply(s, step), extra)
  {
    PostStepFrame(s, step);
    PostFrameInv(s, Apply(s, step), step.c, step.wake, extra);
  }

  function Added(s: State, step: Step): nat
    requires step.EnsureLock? || step.SetNumThreads?
  {
    if step.EnsureLock? then (if s.p.active >= s.p.maxThreads then 0 else 1)
    else if Excess(s.p, step.n) > 0 then 0 else Missing(s.p, step.n)
  }

  lemma GrowStepParts(s: State, step: Step)
    requires (step.EnsureLock? || step.SetNumThreads?) && Enabled(s, step)
    ensures var s' := Apply(s, step);
            var n := Added(s, step);
            && s'.p.list == s.p.list + Ids(s.p.nextId, n) && s'.p.nextId == s.p.nextId + n
            && s'.workers == StartWorkers(s.workers, s.p.nextId, n)
  {
  }

  lemma GrowStepLock(s: State, s': State, step: Step)
    requires LockInv(s) && (step.EnsureLock? || step.SetNumThreads?) && Enabled(s, step)
    requires s'.lock == Apply(s, step).lock && s'.callers == Apply(s, step).callers
    requires forall w :: w in s'.workers ==> s'.workers[w] == if w in s.workers then s.workers[w] else Top
    requires forall w :: w in s.workers ==> w in s'.workers
    ensures LockInv(s')
  {
  }

  lemma GrowStepShape(s: State, step: Step)
    requires Shape(s) && LockInv(s) && (step.EnsureLock? || step.SetNumThreads?) && Enabled(s, step)
    ensures Shape(Apply(s, step)) && LockInv(Apply(s, step))
    ensures |Apply(s, step).p.list| == |s.p.list| + Added(s, step)
  {
    GrowStepParts(s, step);
    NewIds(s.p.list, s.p.nextId, Added(s, step));
    GrownShape(s, Apply(s, step), Added(s, step));
    GrowStepLock(s, Apply(s, step), step);
  }

  lemma GrownShape(s: State, s': State, n: nat)
    requires Shape(s)
    requires s'.p.list == s.p.list + Ids(s.p.nextId, n) && s'.p.nextId == s.p.nextId + n
    requires s'.workers == StartWorkers(s.workers, s.p.nextId, n)
    ensures Shape(s')
    ensures forall w :: w in s'.workers ==> s'.workers[w] == if w in s.workers then s.workers[w] else Top
    ensures forall w :: w in s.workers ==> w in s'.workers
  {
    StartWorkersAre(s.workers, s.p.nextId, n);
    NewIds(s.p.list, s.p.nextId, n);
  }

  lemma GrowStepConserved(s: State, step: Step, extra: nat)
    requires Conserved(s, extra) && (step.EnsureLock? || step.SetNumThreads?) && Enabled(s, step)
    requires |Apply(s, step).p.list| == |s.p.list| + Added(s, step)
    ensures Conserved(Apply(s, step), extra)
  {
    var s' := Apply(s, step);
    CallerStepSums(s, s', step.c);
    if step.EnsureLock? {
      assert s'.p.active == s.p.active + Added(s, step) && s'.p.toStop == s.p.toStop;
    } else {
      ResizeCounts(s, step);
    }
  }

  lemma ResizeCounts(s: State, step: Step)
    requires step.SetNumThreads? && Enabled(s, step)
    ensures var s' := Apply(s, step);
            && s'.p.active + s'.p.toStop == s.p.active + s.p.toStop + Added(s, step)
            && s'.p.active <= s'.p.maxThreads && s'.p.stopped == s.p.stopped && s'.p.toJoin == s.p.toJoin
            && s'.p.toStop == s.p.toStop + CallerAt(s', step.c, OwedOf()) && step.c in s'.callers
  {
  }

  lemma GrowStepWorkers(s: State, step: Step)
    requires Shape(s) && (step.EnsureLock? || step.SetNumThreads?) && Enabled(s, step)
    ensures Sum(Apply(s, step).workers, TokenOf()) == Sum(s.workers, TokenOf())
    ensures Sum(Apply(s, step).workers, PoisonedOf()) == Sum(s.workers, PoisonedOf())
    ensures NoneAsleep(s) ==> NoneAsleep(Apply(s, step))
  {
    GrowStepParts(s, step);
    StartWorkersAre(s.workers, s.p.nextId, Added(s, step));
    StartWorkersSum(s.workers, s.p.nextId, Added(s, step), TokenOf());
    StartWorkersSum(s.workers, s.p.nextId, Added(s, step), PoisonedOf());
  }

  lemma GrowStepTokens(s: State, step: Step)
    requires Shape(s) && TokensMatch(s) && PoisonSuffices(s)
    requires (step.EnsureLock? || step.SetNumThreads?) && Enabled(s, step)
    ensures TokensMatch(Apply(s, step)) && PoisonSuffices(Apply(s, step))
  {
    var s' := Apply(s, step);
    GrowStepWorkers(s, step);
    CallerStepSums(s, s', step.c);
    assert s'.value == s.value && s'.p.queue == s.p.queue;
  }

  lemma GrowStepInv(s: State, step: Step, extra: nat)
    requires InvWith(s, extra) && (step.EnsureLock? || step.SetNumThreads?) && Enabled(s, step)
    ensures InvWith(Apply(s, step), extra)
  {
    GrowStepShape(s, step);
    GrowStepConserved(s, step, extra);
    GrowStepTokens(s, step);
  }

  lemma NewIds(list: set<nat>, from: nat, n: nat)
    requires forall i :: i in list ==> i < from
    ensures |list + Ids(from, n)| == |list| + n
    ensures forall i :: i in list + Ids(from, n) ==> i < from + n
  {
    IdsAre(from, n);
    IdsSize(from, n);
    assert list !! Ids(from, n);
  }

  /** A shutdown asks every thread to stop once more, also those already asked. */
  lemma ShutdownStepInv(s: State, step: Step, extra: nat)
    requires InvWith(s, extra) && step.StopOrJoin? && Enabled(s, step)
    ensures InvWith(Apply(s, step), s.p.toStop)
  {
    CallerSums(s, step.c, Poisoning(|s.p.list|, false, ShutdownOwed(s.p)));
  }

  // Runs

  /** Every step but a shutdown keeps the invariant, with the same extra threads to stop. */
  lemma StepKeeps(s: State, step: Step, extra: nat)
    requires InvWith(s, extra) && Enabled(s, step) && !step.StopOrJoin?
    ensures InvWith(Apply(s, step), extra)
  {
    if IsWorkerStep(step) {
      WorkerStepInv(s, step, extra);
    } else if IsLoadStep(step) {
      LoadStepInv(s, step, extra);
    } else if step.AddEnqueue? || step.PoisonEnqueue? {
      EnqueueStepInv(s, step, extra);
    } else if step.AddPost? || step.PoisonPost? {
      PostStepInv(s, step, extra);
    } else {
      GrowStepInv(s, step, extra);
    }
  }

  /** stop() and join() are started only when no earlier shrink is unfinished. */
  ghost predicate Legal(s: State, step: Step) {
    Enabled(s, step) && (step.StopOrJoin? ==> s.p.toStop == 0)
  }

  lemma StepInv(s: State, step: Step)
    requires Inv(s) && Legal(s, step)
    ensures Inv(Apply(s, step))
  {
    if step.StopOrJoin? {
      ShutdownStepInv(s, step, 0);
    } else {
      StepKeeps(s, step, 0);
    }
  }

  lemma ConstructedThreads(minThreads: nat, numThreads: nat, observers: nat)
    ensures var s := Constructed(minThreads, numThreads, observers);
            && s.workers.Keys == s.p.list && |s.p.list| == s.p.active
            && (forall i :: i in s.p.list ==> i < s.p.nextId) && (forall w :: w in s.workers ==> s.workers[w] == Top)
  {
    var n := Missing(Fresh(minThreads), numThreads);
    StartWorkersAre(map[], 0, n);
    IdsSize(0, n);
    IdsAre(0, n);
    var s := Constructed(minThreads, numThreads, observers);
    assert s.p.list == Ids(0, n) && s.p.active == n;
  }

  lemma ConstructedInv(minThreads: nat, numThreads: nat, observers: nat)
    ensures Inv(Constructed(minThreads, numThreads, observers))
  {
    var s := Constructed(minThreads, numThreads, observers);
    ConstructedThreads(minThreads, numThreads, observers);
    SumZero(s.workers, TokenOf());
    SumZero(s.workers, PoisonedOf());
  }

  ghost predicate Starts(s: State) {
    exists m, n, o :: s == Constructed(m, n, o)
  }

  lemma StartsInv(s: State)
    requires Starts(s)
    ensures Inv(s)
  {
    var m, n, o :| s == Constructed(m, n, o);
    ConstructedInv(m, n, o);
  }

  lemma NextInv(s: State, s': State)
    requires Inv(s) && Next(s, s')
    ensures Inv(s')
  {
    var step :| Legal(s, step) && s' == Apply(s, step);
    StepInv(s, step);
  }

  ghost predicate Next(s: State, s': State) {
    exists step :: Legal(s, step) && s' == Apply(s, step)
  }

  ghost predicate StepAt(trace: seq<State>, i: nat)
    requires i + 1 < |trace|
  {
    Next(trace[i], trace[i + 1])
  }

  ghost predicate Run(trace: seq<State>) {
    && |trace| > 0 && Starts(trace[0])
    && forall i: nat :: i + 1 < |trace| ==> StepAt(trace, i)
  }

  ghost predicate InvAt(trace: seq<State>, i: nat) {
    i < |trace| && Inv(trace[i])
  }

  lemma InvNext(trace: seq<State>, i: nat)
    requires i + 1 < |trace| && StepAt(trace, i) && InvAt(trace, i)
    ensures InvAt(trace, i + 1)
  {
    NextInv(trace[i], trace[i + 1]);
  }

  lemma RunInv(trace: seq<State>, i: nat)
    requires Run(trace) && i < |trace|
    ensures Inv(trace[i])
  {
    StartsInv(trace[0]);
    var j := 0;
    while j < i
      invariant j <= i && InvAt(trace, j)
    {
      InvNext(trace, j);
      j := j + 1;
    }
  }

  // Submissions

  /** No task is in two places: it is queued once, run by one worker, and finished only after that. */
  ghost predicate JobsApart(s: State) {
    forall job, p, p' :: JobAt(s, job, p) && JobAt(s, job, p') ==> p == p'
  }

  /** Where a task that is now at p was before the step. */
  function Before(s: State, step: Step, job: nat, p: Place): Place {
    match step
    case WorkerDequeue(w) => if p.Queued? then Queued(p.i + 1) else if p == InWorker(w) then Queued(0) else p
    case WorkerFinish(w) => if p.Finished? && WorkerAt(s, w, Running(job)) then InWorker(w) else p
    case AddEnqueue(c) => if p == Queued(|s.p.queue|) then InCaller(c) else p
    case _ => p
  }

  lemma WorkerJobBefore(s: State, step: Step, job: nat, p: Place)
    requires IsWorkerStep(step) && Enabled(s, step) && JobAt(Apply(s, step), job, p)
    ensures JobAt(s, job, Before(s, step, job, p))
  {
    assert Apply(s, step).callers == s.callers;
  }

  lemma AddJobBefore(s: State, step: Step, job: nat, p: Place)
    requires step.AddLoadMin? || step.AddLoadActive? || step.AddLoadMax? || step.AddEnqueue? || step.AddPost?
    requires Enabled(s, step) && JobAt(Apply(s, step), job, p)
    ensures JobAt(s, job, Before(s, step, job, p))
  {
  }

  lemma GrowJobBefore(s: State, step: Step, job: nat, p: Place)
    requires Shape(s) && (step.EnsureLock? || step.SetNumThreads?) && Enabled(s, step) && JobAt(Apply(s, step), job, p)
    ensures JobAt(s, job, p)
  {
    GrowStepParts(s, step);
    StartWorkersAre(s.workers, s.p.nextId, Added(s, step));
  }

  lemma EnsureJobBefore(s: State, step: Step, job: nat, p: Place)
    requires step.EnsureLoadJoin? || step.EnsureTakeJoin? || step.EnsureLoadActive? || step.EnsureLoadMax?
             || step.JoinOne? || step.JoinDone?
    requires Enabled(s, step) && JobAt(Apply(s, step), job, p)
    ensures JobAt(s, job, p)
  {
  }

  lemma PoisonJobBefore(s: State, step: Step, job: nat, p: Place)
    requires step.StopOrJoin? || step.PoisonEnqueue? || step.PoisonPost? || step.PoisonDone?
    requires Enabled(s, step) && JobAt(Apply(s, step), job, p)
    ensures JobAt(s, job, p)
  {
  }

  /** Every step but the begin of add() only moves tasks from place to place. */
  lemma JobBefore(s: State, step: Step, job: nat, p: Place)
    requires Shape(s) && Enabled(s, step) && !step.AddBegin? && JobAt(Apply(s, step), job, p)
    ensures JobAt(s, job, Before(s, step, job, p))
  {
    if IsWorkerStep(step) {
      WorkerJobBefore(s, step, job, p);
    } else if step.EnsureLock? || step.SetNumThreads? {
      GrowJobBefore(s, step, job, p);
    } else if step.AddLoadMin? || step.AddLoadActive? || step.AddLoadMax? || step.AddEnqueue? || step.AddPost? {
      AddJobBefore(s, step, job, p);
    } else if step.StopOrJoin? || step.PoisonEnqueue? || step.PoisonPost? || step.PoisonDone? {
      PoisonJobBefore(s, step, job, p);
    } else {
      EnsureJobBefore(s, step, job, p);
    }
  }

  /** Two places do not fall together on the way back. */
  lemma BeforeInjective(s: State, step: Step, job: nat, p: Place, p': Place)
    requires Enabled(s, step) && JobAt(Apply(s, step), job, p) && JobAt(Apply(s, step), job, p')
    requires Before(s, step, job, p) == Before(s, step, job, p')
    ensures p == p'
  {
    match step
    case WorkerDequeue(_) =>
    case WorkerFinish(_) => assert Apply(s, step).workers[step.w] == AfterTask;
    case AddEnqueue(_) => assert !JobAt(Apply(s, step), job, InCaller(step.c));
    case _ =>
  }

  lemma BeginPlaces(s: State, step: Step, job: nat, p: Place)
    requires step.AddBegin? && Enabled(s, step) && JobAt(Apply(s, step), job, p)
    ensures if job == step.job then p == InCaller(step.c) else JobAt(s, job, p)
  {
    if job == step.job {
      assert !JobAt(s, job, p);
    }
  }

  lemma StepJobsApart(s: State, step: Step)
    requires Shape(s) && JobsApart(s) && Enabled(s, step)
    ensures JobsApart(Apply(s, step))
  {
    var s' := Apply(s, step);
    forall job, p, p' | JobAt(s', job, p) && JobAt(s', job, p') ensures p == p' {
      if step.AddBegin? {
        BeginPlaces(s, step, job, p);
        BeginPlaces(s, step, job, p');
      } else {
        JobBefore(s, step, job, p);
        JobBefore(s, step, job, p');
        BeforeInjective(s, step, job, p, p');
      }
    }
  }

  lemma StartsApart(s: State)
    requires Starts(s)
    ensures JobsApart(s)
  {
    var m, n, o :| s == Constructed(m, n, o);
    forall job, p ensures !JobAt(s, job, p) {
      ConstructedNoJob(m, n, o, job, p);
    }
  }

  lemma ConstructedNoJob(minThreads: nat, numThreads: nat, observers: nat, job: nat, p: Place)
    ensures !JobAt(Constructed(minThreads, numThreads, observers), job, p)
  {
    StartWorkersAre(map[], 0, Missing(Fresh(minThreads), numThreads));
  }

  ghost predicate ApartAt(trace: seq<State>, i: nat) {
    i < |trace| && JobsApart(trace[i])
  }

  lemma ApartNext(trace: seq<State>, i: nat)
    requires i + 1 < |trace| && StepAt(trace, i) && ApartAt(trace, i) && Shape(trace[i])
    ensures ApartAt(trace, i + 1)
  {
    var step :| Legal(trace[i], step) && trace[i + 1] == Apply(trace[i], step);
    StepJobsApart(trace[i], step);
  }

  /** In every run each task is in one place at a time. */
  lemma RunJobsApart(trace: seq<State>, i: nat)
    requires Run(trace) && i < |trace|
    ensures JobsApart(trace[i])
  {
    StartsApart(trace[0]);
    var j := 0;
    while j < i
      invariant j <= i && ApartAt(trace, j)
    {
      RunInv(trace, j);
      ApartNext(trace, j);
      j := j + 1;
    }
  }

  // Reachable states

  ghost predicate Reachable(s: State) {
    exists run :: Run(run) && run[|run| - 1] == s
  }

  lemma ReachNext(s: State, step: Step)
    requires Reachable(s) && Legal(s, step)
    ensures Reachable(Apply(s, step))
  {
    var run :| Run(run) && run[|run| - 1] == s;
    var s' := Apply(s, step);
    assert Next(s, s');
    RunExtends(run, s');
    assert (run + [s'])[|run|] == s';
  }

  lemma RunExtends(run: seq<State>, s': State)
    requires Run(run) && Next(run[|run| - 1], s')
    ensures Run(run + [s'])
  {
    var longer := run + [s'];
    forall i: nat | i + 1 < |longer| ensures StepAt(longer, i) {
      if i + 1 < |run| {
        assert StepAt(run, i);
      }
    }
    assert longer[0] == run[0];
  }

  /** One step between two given states. */
  ghost predicate Leads(s: State, step: Step, s': State) {
    Legal(s, step) && s' == Apply(s, step)
  }

  lemma ReachStep(s: State, step: Step, s': State)
    requires Reachable(s) && Leads(s, step, s')
    ensures Reachable(s')
  {
    ReachNext(s, step);
  }

  lemma ReachConstructed(minThreads: nat, numThreads: nat, observers: nat)
    ensures Reachable(Constructed(minThreads, numThreads, observers))
  {
    var s := Constructed(minThreads, numThreads, observers);
    assert Starts(s);
    assert Run([s]) && [s][0] == s;
  }

  lemma ReachableInv(s: State)
    requires Reachable(s)
    ensures Inv(s)
  {
    var run :| Run(run) && run[|run| - 1] == s;
    RunInv(run, |run| - 1);
  }

  lemma ReachableApart(s: State)
    requires Reachable(s)
    ensures JobsApart(s)
  {
    var run :| Run(run) && run[|run| - 1] == s;
    RunJobsApart(run, |run| - 1);
  }
}
