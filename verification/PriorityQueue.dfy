/**
 PriorityLifoSemMPMCQueue: one ticketed queue per priority and one LIFO semaphore. Takers look
 through the queues from the highest priority down, one readIfNotEmpty at a time, and only wait on
 the semaphore after a whole scan found nothing. LifoSemMPMCQueue is the case of one queue.

 Queues are numbered here by the position in the scan: position 0 has the highest priority.
 */
module PriorityQueue {
  import opened Counting

  // Which queue an item goes to

  const MID_PRI: int := 0
  const LO_PRI: int := -128
  const HI_PRI: int := 127

  /** Index into queues_ for a priority. */
  function QueueIndex(numPriorities: nat, priority: int): (queue: int)
    requires numPriorities > 0
    ensures 0 <= queue < numPriorities
  {
    var mid: int := numPriorities / 2;
    if priority < 0 then (if mid + priority > 0 then mid + priority else 0)
    else (if numPriorities - 1 < mid + priority then numPriorities - 1 else mid + priority)
  }

  function ScanPosition(numPriorities: nat, priority: int): nat
    requires numPriorities > 0
  {
    numPriorities - 1 - QueueIndex(numPriorities, priority)
  }

  /** A higher priority is never scanned later, and the extremes reach the ends for up to 255 queues. */
  lemma HigherPriorityFirst(n: nat, p1: int, p2: int)
    requires 0 < n <= 255
    ensures p1 <= p2 ==> ScanPosition(n, p2) <= ScanPosition(n, p1)
    ensures ScanPosition(n, HI_PRI) == 0 && ScanPosition(n, LO_PRI) == n - 1
    ensures ScanPosition(n, MID_PRI) == ScanPosition(n, HI_PRI) <==> n <= 2
  {
  }

  // State

  /** The ticket counters of one queue; readIfNotEmpty claims an item by taking a promised pop ticket. */
  datatype Tickets = Tickets(pushes: nat, pops: nat)

  datatype Behavior = THROW | BLOCK

  datatype Config = Config(capacities: seq<nat>, behavior: Behavior)

  /**
   Adding: has its push ticket, has not posted. Scanning: next looks at position pos; token says
   whether the taker came from the semaphore. Asleep: in the semaphore's waiter list.
   */
  datatype Pc = Adding(pos: nat) | Scanning(pos: nat, token: bool) | Asleep

  datatype State = State(queues: seq<Tickets>, value: nat, waiters: seq<nat>, threads: map<nat, Pc>)

  function Init(c: Config): State {
    State(seq(|c.capacities|, _ => Tickets(0, 0)), 0, [], map[])
  }

  datatype Step =
    | Add(tid: nat, priority: int)
    | Post(tid: nat)
    | StartTake(tid: nat)
    | Probe(tid: nat)
    | Wait(tid: nat)
    | TimeOut(tid: nat)

  predicate Enabled(c: Config, s: State, step: Step) {
    match step
    case Add(tid, priority) =>
      && tid !in s.threads && |s.queues| > 0 && |c.capacities| == |s.queues|
      && var pos := ScanPosition(|s.queues|, priority);
         c.behavior.THROW? ==> s.queues[pos].pushes - s.queues[pos].pops < c.capacities[pos]
    case Post(tid) =>
      && tid in s.threads && s.threads[tid].Adding?
    case StartTake(tid) => tid !in s.threads
    case Probe(tid) => tid in s.threads && s.threads[tid].Scanning? && s.threads[tid].pos < |s.queues|
    case Wait(tid) => tid in s.threads && s.threads[tid].Scanning? && s.threads[tid].pos == |s.queues|
    case TimeOut(tid) => tid in s.threads && s.threads[tid].Asleep?
  }

  /** The waiter list without one thread. */
  function Without(waiters: seq<nat>, tid: nat): seq<nat> {
    if waiters == [] then []
    else if waiters[0] == tid then Without(waiters[1..], tid)
    else [waiters[0]] + Without(waiters[1..], tid)
  }

  function Apply(c: Config, s: State, step: Step): State
    requires Enabled(c, s, step)
  {
    match step
    case Add(tid, priority) =>
      var pos := ScanPosition(|s.queues|, priority);
      s.(queues := s.queues[pos := s.queues[pos].(pushes := s.queues[pos].pushes + 1)],
         threads := s.threads[tid := Adding(pos)])
    case Post(tid) =>
      var threads := s.threads - {tid};
      if s.waiters == [] then s.(value := s.value + 1, threads := threads)
      else
        var last := |s.waiters| - 1;
        s.(waiters := s.waiters[..last], threads := threads[s.waiters[last] := Scanning(0, true)])
    case StartTake(tid) => s.(threads := s.threads[tid := Scanning(0, false)])
    case Probe(tid) =>
      var pos := s.threads[tid].pos;
      if s.queues[pos].pops >= s.queues[pos].pushes then
        s.(threads := s.threads[tid := Scanning(pos + 1, s.threads[tid].token)])
      else
        s.(queues := s.queues[pos := s.queues[pos].(pops := s.queues[pos].pops + 1)], threads := s.threads - {tid})
    case Wait(tid) =>
      if s.value > 0 then s.(value := s.value - 1, threads := s.threads[tid := Scanning(0, true)])
      else s.(waiters := s.waiters + [tid], threads := s.threads[tid := Asleep])
    case TimeOut(tid) => s.(waiters := Without(s.waiters, tid), threads := s.threads - {tid})
  }

  // Invariant

  function Unclaimed(q: Tickets): int {
    q.pushes - q.pops
  }

  /** Unclaimed items in the k queues of highest priority. */
  function UnclaimedIn(queues: seq<Tickets>, k: nat): int
    requires k <= |queues|
  {
    if k == 0 then 0 else UnclaimedIn(queues, k - 1) + Unclaimed(queues[k - 1])
  }

  /** Adders into the first k queues that have not posted yet. */
  function AddingBefore(k: nat): Pc -> nat {
    (pc: Pc) => if pc.Adding? && pc.pos < k then 1 else 0
  }

  /** Woken takers that still have one of the first k queues before them. */
  function WokenBefore(k: nat): Pc -> nat {
    (pc: Pc) => if pc.Scanning? && pc.token && pc.pos < k then 1 else 0
  }

  ghost function Wakeups(s: State, k: nat): nat {
    s.value + Sum(s.threads, AddingBefore(k)) + Sum(s.threads, WokenBefore(k))
  }

  /** No lost wakeup, for the first k queues. */
  ghost predicate Covered(s: State, k: nat)
    requires k <= |s.queues|
  {
    UnclaimedIn(s.queues, k) <= Wakeups(s, k)
  }

  ghost predicate Waiting(s: State) {
    && (s.waiters != [] ==> s.value == 0)
    && (forall tid :: tid in s.waiters <==> tid in s.threads && s.threads[tid].Asleep?)
    && (forall i, j :: 0 <= i < j < |s.waiters| ==> s.waiters[i] != s.waiters[j])
  }

  ghost predicate Inv(c: Config, s: State) {
    && |s.queues| == |c.capacities| && Waiting(s)
    && (forall i :: 0 <= i < |s.queues| ==> s.queues[i].pops <= s.queues[i].pushes)
    && (forall tid :: tid in s.threads && s.threads[tid].Scanning? ==> s.threads[tid].pos <= |s.queues|)
    && (forall k :: 0 <= k <= |s.queues| ==> Covered(s, k))
  }

  lemma {:induction false} UnclaimedUpdate(queues: seq<Tickets>, k: nat, pos: nat, q: Tickets)
    requires k <= |queues| && pos < |queues|
    ensures UnclaimedIn(queues[pos := q], k) ==
            UnclaimedIn(queues, k) + if pos < k then Unclaimed(q) - Unclaimed(queues[pos]) else 0
  {
    if k > 0 {
      UnclaimedUpdate(queues, k - 1, pos, q);
    }
  }

  lemma {:induction false} UnclaimedGrows(queues: seq<Tickets>, k: nat)
    requires k <= |queues| && forall i :: 0 <= i < |queues| ==> queues[i].pops <= queues[i].pushes
    ensures 0 <= UnclaimedIn(queues, k) <= UnclaimedIn(queues, |queues|)
    decreases |queues| - k
  {
    UnclaimedNonNegative(queues, k);
    if k < |queues| {
      UnclaimedGrows(queues, k + 1);
    }
  }

  lemma {:induction false} UnclaimedNonNegative(queues: seq<Tickets>, k: nat)
    requires k <= |queues| && forall i :: 0 <= i < |queues| ==> queues[i].pops <= queues[i].pushes
    ensures 0 <= UnclaimedIn(queues, k)
  {
    if k > 0 {
      UnclaimedNonNegative(queues, k - 1);
    }
  }

  lemma WakeupsSet(s: State, k: nat, tid: nat, pc: Pc)
    ensures var s' := s.(threads := s.threads[tid := pc]);
            Wakeups(s', k) + (if tid in s.threads then AddingBefore(k)(s.threads[tid]) + WokenBefore(k)(s.threads[tid]) else 0)
            == Wakeups(s, k) + AddingBefore(k)(pc) + WokenBefore(k)(pc)
  {
    SumSet(s.threads, AddingBefore(k), tid, pc);
    SumSet(s.threads, WokenBefore(k), tid, pc);
  }

  lemma WakeupsDrop(s: State, k: nat, tid: nat)
    requires tid in s.threads
    ensures var s' := s.(threads := s.threads - {tid});
            Wakeups(s', k) + AddingBefore(k)(s.threads[tid]) + WokenBefore(k)(s.threads[tid]) == Wakeups(s, k)
  {
    SumDrop(s.threads, AddingBefore(k), tid);
    SumDrop(s.threads, WokenBefore(k), tid);
  }

  lemma {:induction false} WithoutMember(waiters: seq<nat>, tid: nat, x: nat)
    ensures x in Without(waiters, tid) <==> x in waiters && x != tid
    ensures |Without(waiters, tid)| <= |waiters|
  {
    if waiters != [] {
      WithoutMember(waiters[1..], tid, x);
    }
  }

  lemma {:induction false} WithoutDistinct(waiters: seq<nat>, tid: nat)
    requires forall i, j :: 0 <= i < j < |waiters| ==> waiters[i] != waiters[j]
    ensures var w := Without(waiters, tid); forall i, j :: 0 <= i < j < |w| ==> w[i] != w[j]
  {
    if waiters != [] {
      WithoutDistinct(waiters[1..], tid);
      if waiters[0] != tid {
        WithoutMember(waiters[1..], tid, waiters[0]);
      }
    }
  }

  /** Adding an item comes with the adder's own post to come. */
  lemma AddInv(c: Config, s: State, step: Step)
    requires Inv(c, s) && step.Add? && Enabled(c, s, step)
    ensures Inv(c, Apply(c, s, step))
  {
    var s' := Apply(c, s, step);
    var pos := ScanPosition(|s.queues|, step.priority);
    forall k | 0 <= k <= |s'.queues| ensures Covered(s', k) {
      assert Covered(s, k);
      UnclaimedUpdate(s.queues, k, pos, s'.queues[pos]);
      WakeupsSet(s, k, step.tid, Adding(pos));
    }
  }

  /** A post turns into semaphore value or into a woken taker with its whole scan before it. */
  lemma PostInv(c: Config, s: State, step: Step)
    requires Inv(c, s) && step.Post? && Enabled(c, s, step)
    ensures Inv(c, Apply(c, s, step))
  {
    var s' := Apply(c, s, step);
    var s1 := s.(threads := s.threads - {step.tid});
    if s.waiters != [] {
      var last := |s.waiters| - 1;
      assert s.waiters[last] in s.waiters;
      assert s.waiters == s.waiters[..last] + [s.waiters[last]];
      forall k | 0 <= k <= |s'.queues| ensures Covered(s', k) {
        assert Covered(s, k);
        WakeupsDrop(s, k, step.tid);
        WakeupsSet(s1, k, s.waiters[last], Scanning(0, true));
        NothingInNone(s.queues, k);
      }
    } else {
      forall k | 0 <= k <= |s'.queues| ensures Covered(s', k) {
        assert Covered(s, k);
        WakeupsDrop(s, k, step.tid);
      }
    }
  }

  lemma NothingInNone(queues: seq<Tickets>, k: nat)
    requires k <= |queues|
    ensures k == 0 ==> UnclaimedIn(queues, k) == 0
  {
  }

  /**
   A taker moves past a queue only when that queue is empty at that instant. What reached earlier
   queues since the taker looked there is covered without it.
   */
  lemma ProbeInv(c: Config, s: State, step: Step)
    requires Inv(c, s) && step.Probe? && Enabled(c, s, step)
    ensures Inv(c, Apply(c, s, step))
  {
    var s' := Apply(c, s, step);
    var pc := s.threads[step.tid];
    forall k | 0 <= k <= |s'.queues| ensures Covered(s', k) {
      assert Covered(s, k) && Covered(s, pc.pos);
      if s.queues[pc.pos].pops >= s.queues[pc.pos].pushes {
        WakeupsSet(s, k, step.tid, Scanning(pc.pos + 1, pc.token));
        WakeupsSet(s, pc.pos, step.tid, Scanning(pc.pos + 1, pc.token));
        if k == pc.pos + 1 {
          WakeupsMonotone(s', pc.pos, k);
        }
      } else {
        UnclaimedUpdate(s.queues, k, pc.pos, s'.queues[pc.pos]);
        WakeupsDrop(s, k, step.tid);
      }
    }
  }

  lemma WakeupsMonotone(s: State, j: nat, k: nat)
    requires j <= k
    ensures Wakeups(s, j) <= Wakeups(s, k)
  {
    SumMonotone(s.threads, AddingBefore(j), AddingBefore(k));
    SumMonotone(s.threads, WokenBefore(j), WokenBefore(k));
  }

  lemma TakerInv(c: Config, s: State, step: Step)
    requires Inv(c, s) && (step.StartTake? || step.Wait? || step.TimeOut?) && Enabled(c, s, step)
    ensures Inv(c, Apply(c, s, step))
  {
    var s' := Apply(c, s, step);
    if step.TimeOut? {
      WithoutDistinct(s.waiters, step.tid);
      forall x: nat ensures x in s'.waiters <==> x in s.waiters && x != step.tid {
        WithoutMember(s.waiters, step.tid, x);
      }
    }
    forall k | 0 <= k <= |s'.queues| ensures Covered(s', k) {
      assert Covered(s, k);
      NothingInNone(s.queues, k);
      if step.TimeOut? {
        WakeupsDrop(s, k, step.tid);
      } else {
        WakeupsSet(s, k, step.tid, s'.threads[step.tid]);
      }
    }
  }

  // Runs

  lemma StepInv(c: Config, s: State, step: Step)
    requires Inv(c, s) && Enabled(c, s, step)
    ensures Inv(c, Apply(c, s, step))
  {
    match step
    case Add(_, _) => AddInv(c, s, step);
    case Post(_) => PostInv(c, s, step);
    case Probe(_) => ProbeInv(c, s, step);
    case _ => TakerInv(c, s, step);
  }

  ghost predicate Next(c: Config, s: State, s': State) {
    exists step :: Enabled(c, s, step) && s' == Apply(c, s, step)
  }

  ghost predicate StepAt(c: Config, trace: seq<State>, i: nat)
    requires i + 1 < |trace|
  {
    Next(c, trace[i], trace[i + 1])
  }

  ghost predicate Run(c: Config, trace: seq<State>) {
    && |trace| > 0 && trace[0] == Init(c)
    && forall i: nat :: i + 1 < |trace| ==> StepAt(c, trace, i)
  }

  lemma InitInv(c: Config)
    ensures Inv(c, Init(c))
  {
    var s := Init(c);
    forall k | 0 <= k <= |s.queues| ensures Covered(s, k) {
      EmptyUnclaimed(s.queues, k);
    }
  }

  lemma {:induction false} EmptyUnclaimed(queues: seq<Tickets>, k: nat)
    requires k <= |queues| && forall i :: 0 <= i < |queues| ==> Unclaimed(queues[i]) == 0
    ensures UnclaimedIn(queues, k) == 0
  {
    if k > 0 {
      EmptyUnclaimed(queues, k - 1);
    }
  }

  lemma {:induction false} RunInv(c: Config, trace: seq<State>, i: nat)
    requires Run(c, trace) && i < |trace|
    ensures Inv(c, trace[i])
  {
    if i == 0 {
      InitInv(c);
    } else {
      RunInv(c, trace, i - 1);
      assert StepAt(c, trace, i - 1);
      var step :| Enabled(c, trace[i - 1], step) && trace[i] == Apply(c, trace[i - 1], step);
      StepInv(c, trace[i - 1], step);
    }
  }

  lemma RunShape(c: Config, trace: seq<State>, i: nat)
    requires Run(c, trace) && i < |trace|
    ensures |trace[i].queues| == |c.capacities|
  {
    RunInv(c, trace, i);
  }

  /** In every run and for every k: items of the k highest queues never outnumber the wakeups on their way. */
  lemma UnclaimedAlwaysCovered(c: Config, trace: seq<State>, i: nat, k: nat)
    requires Run(c, trace) && i < |trace| && k <= |c.capacities|
    ensures |trace[i].queues| == |c.capacities|
    ensures UnclaimedIn(trace[i].queues, k) <=
            trace[i].value + Sum(trace[i].threads, AddingBefore(k)) + Sum(trace[i].threads, WokenBefore(k))
  {
    RunInv(c, trace, i);
    assert Covered(trace[i], k);
  }

  predicate InFlight(pc: Pc) {
    pc.Adding? || (pc.Scanning? && pc.token)
  }

  /**
   No lost wakeup: when a taker sleeps while no adder is before its post and no woken taker is
   still looking, every queue is empty.
   */
  lemma SleepersMeanEmpty(c: Config, trace: seq<State>, i: nat, tid: nat, pos: nat)
    requires Run(c, trace) && i < |trace| && tid in trace[i].threads && trace[i].threads[tid].Asleep?
    requires forall t :: t in trace[i].threads ==> !InFlight(trace[i].threads[t])
    requires pos < |trace[i].queues|
    ensures trace[i].queues[pos].pushes == trace[i].queues[pos].pops
  {
    RunInv(c, trace, i);
    var s := trace[i];
    var n := |s.queues|;
    assert Covered(s, n);
    assert tid in s.waiters;
    SumZero(s.threads, AddingBefore(n));
    SumZero(s.threads, WokenBefore(n));
    UnclaimedGrows(s.queues, pos);
    UnclaimedGrows(s.queues, pos + 1);
  }

  // The scan as code

  lemma RunExtends(c: Config, trace: seq<State>, step: Step)
    requires Run(c, trace) && Enabled(c, trace[|trace| - 1], step)
    ensures Run(c, trace + [Apply(c, trace[|trace| - 1], step)])
  {
    var longer := trace + [Apply(c, trace[|trace| - 1], step)];
    forall i: nat | i + 1 < |longer| ensures StepAt(c, longer, i) {
      if i + 1 < |trace| {
        assert StepAt(c, trace, i);
      }
    }
  }

  /** The steps of others do not move a thread that is not asleep. */
  lemma OtherStep(c: Config, s: State, step: Step, me: nat)
    requires Inv(c, s) && Enabled(c, s, step) && step.tid != me && (me in s.threads ==> !s.threads[me].Asleep?)
    ensures var s' := Apply(c, s, step);
            && (me in s'.threads <==> me in s.threads)
            && (me in s.threads ==> s'.threads[me] == s.threads[me])
  {
    if step.Post? && s.waiters != [] {
      assert s.waiters[|s.waiters| - 1] in s.waiters;
    }
  }

  /** The shared queue as one thread's code meets it; the ghost trace records every state it was in. */
  class PriorityLifoSemMPMCQueue {
    const c: Config
    var s: State
    ghost var trace: seq<State>

    ghost predicate Valid()
      reads this
    {
      Run(c, trace) && trace[|trace| - 1] == s
    }

    constructor (config: Config)
      ensures Valid() && c == config && s == Init(config)
    {
      c := config;
      s := Init(config);
      trace := [Init(config)];
    }

    /** Any burst of steps of other threads; the methods below rely only on this contract. */
    method Interfere(me: nat)
      requires Valid()
      requires me in s.threads ==> !s.threads[me].Asleep?
      modifies this`s, this`trace
      ensures Valid() && old(trace) <= trace
      ensures (me in s.threads) == old(me in s.threads)
      ensures me in s.threads ==> s.threads[me] == old(s).threads[me]
    {
      var burst: seq<Step> := *;
      for i := 0 to |burst|
        invariant Valid() && old(trace) <= trace
        invariant (me in s.threads) == old(me in s.threads)
        invariant me in s.threads ==> s.threads[me] == old(s).threads[me]
      {
        if burst[i].tid != me && Enabled(c, s, burst[i]) {
          RunInv(c, trace, |trace| - 1);
          OtherStep(c, s, burst[i], me);
          Perform(burst[i]);
        }
      }
    }

    method Perform(step: Step)
      requires Valid() && Enabled(c, s, step)
      modifies this`s, this`trace
      ensures Valid() && trace == old(trace) + [s] && s == Apply(c, old(s), step)
    {
      RunExtends(c, trace, step);
      s := Apply(c, s, step);
      trace := trace + [s];
    }

    /** The item is written, or the queue of that priority is full and nothing changes. */
    method AddWithPriority(me: nat, priority: int) returns (thrown: bool)
      requires Valid() && me !in s.threads && |s.queues| > 0 && |c.capacities| == |s.queues|
      modifies this`s, this`trace
      ensures Valid() && old(trace) <= trace && me !in s.threads
      ensures thrown ==>
                && s == old(s) && c.behavior.THROW?
                && var q := s.queues[ScanPosition(|s.queues|, priority)];
                   Unclaimed(q) >= c.capacities[ScanPosition(|s.queues|, priority)]
      ensures !thrown ==>
                && |trace| >= |old(trace)| + 2
                && AddedOne(c, old(s), trace[|old(trace)|], ScanPosition(|c.capacities|, priority))
                && Enabled(c, trace[|trace| - 2], Post(me)) && s == Apply(c, trace[|trace| - 2], Post(me))
    {
      var pos := ScanPosition(|s.queues|, priority);
      if c.behavior.THROW? && s.queues[pos].pushes - s.queues[pos].pops >= c.capacities[pos] {
        return true;
      }
      Perform(Add(me, priority));
      Interfere(me);
      RunInv(c, trace, |trace| - 1);
      Perform(Post(me));
      return false;
    }

    /** readIfNotEmpty on the queue at the scan position, after any interference. */
    method ProbeQueue(me: nat) returns (taken: bool)
      requires Valid() && me in s.threads && s.threads[me].Scanning? && s.threads[me].pos < |c.capacities|
      modifies this`s, this`trace
      ensures Valid() && old(trace) <= trace[..|trace| - 1] && |trace| > |old(trace)|
      ensures taken ==> me !in s.threads
      ensures taken ==> ClaimedOne(trace[|trace| - 2], s, old(s).threads[me].pos)
      ensures !taken ==>
                && EmptyAt(trace[|trace| - 2], old(s).threads[me].pos) && s.queues == trace[|trace| - 2].queues
                && me in s.threads && s.threads[me] == old(s).threads[me].(pos := old(s).threads[me].pos + 1)
    {
      Interfere(me);
      RunShape(c, trace, |trace| - 1);
      var pos := s.threads[me].pos;
      taken := s.queues[pos].pops < s.queues[pos].pushes;
      Perform(Probe(me));
    }

    /**
     True: exactly one item was claimed, at the last instant, from the queue at position pos, and each
     queue of higher priority had been found empty before. False: every queue was found empty, from
     the highest priority down, and the taker claimed nothing.
     */
    method NonBlockingTake(me: nat) returns (taken: bool, ghost pos: nat, ghost instants: seq<nat>)
      requires Valid() && me in s.threads && s.threads[me].Scanning? && s.threads[me].pos == 0
      modifies this`s, this`trace
      ensures Valid() && old(trace) <= trace
      ensures |instants| == pos && SeenEmpty(trace, |old(trace)| - 1, instants)
      ensures taken ==>
                && me !in s.threads && pos < |c.capacities|
                && |trace| > |old(trace)| && ClaimedOne(trace[|trace| - 2], s, pos)
      ensures !taken ==>
                && me in s.threads && s.threads[me] == Scanning(|c.capacities|, old(s.threads[me].token))
                && pos == |c.capacities|
    {
      instants := [];
      var next := 0;
      while next < |c.capacities|
        invariant Valid() && old(trace) <= trace
        invariant me in s.threads && s.threads[me] == Scanning(next, old(s.threads[me].token))
        invariant next == |instants| <= |c.capacities| && SeenEmpty(trace, |old(trace)| - 1, instants)
        decreases |c.capacities| - next
      {
        ghost var before := trace;
        taken := ProbeQueue(me);
        if taken {
          SeenEmptyLater(before, trace, |old(trace)| - 1, instants);
          pos := next;
          return;
        }
        SeenEmptyExtend(before, trace, |old(trace)| - 1, instants);
        instants := instants + [|trace| - 2];
        next := next + 1;
      }
      taken, pos := false, next;
    }
  }

  /** One item goes into the queue at pos, which has room or blocks its writers; the other queues stay. */
  predicate AddedOne(c: Config, s: State, s': State, pos: nat) {
    && pos < |s.queues| && |s.queues| == |c.capacities|
    && (c.behavior.THROW? ==> s.queues[pos].pushes - s.queues[pos].pops < c.capacities[pos])
    && s'.queues == s.queues[pos := Tickets(s.queues[pos].pushes + 1, s.queues[pos].pops)]
  }

  /** One item is claimed from the queue at pos, which is not empty; the other queues stay. */
  predicate ClaimedOne(s: State, s': State, pos: nat) {
    && pos < |s.queues| && s.queues[pos].pops < s.queues[pos].pushes
    && s'.queues == s.queues[pos := Tickets(s.queues[pos].pushes, s.queues[pos].pops + 1)]
  }

  lemma SeenEmptyLater(trace: seq<State>, trace': seq<State>, from: int, instants: seq<nat>)
    requires SeenEmpty(trace, from, instants) && trace <= trace'
    ensures SeenEmpty(trace', from, instants)
  {
    forall k | 0 <= k < |instants| ensures from <= instants[k] < |trace'| && EmptyAt(trace'[instants[k]], k) {
      assert trace'[instants[k]] == trace[instants[k]];
    }
  }

  predicate EmptyAt(s: State, pos: nat) {
    pos < |s.queues| && Unclaimed(s.queues[pos]) <= 0
  }

  /** Queue k was empty at instants[k], all from `from` on and in this order. */
  ghost predicate SeenEmpty(trace: seq<State>, from: int, instants: seq<nat>) {
    && (forall k :: 0 <= k < |instants| ==> from <= instants[k] < |trace| && EmptyAt(trace[instants[k]], k))
    && (forall j, k :: 0 <= j < k < |instants| ==> instants[j] <= instants[k])
  }

  lemma SeenEmptyExtend(trace: seq<State>, trace': seq<State>, from: int, instants: seq<nat>)
    requires SeenEmpty(trace, from, instants) && from < |trace| && |trace'| >= 2
    requires trace <= trace'[..|trace'| - 1]
    requires EmptyAt(trace'[|trace'| - 2], |instants|)
    ensures SeenEmpty(trace', from, instants + [|trace'| - 2])
  {
    var t := instants + [|trace'| - 2];
    forall k | 0 <= k < |t| ensures from <= t[k] < |trace'| && EmptyAt(trace'[t[k]], k) {
      if k < |instants| {
        assert trace'[t[k]] == trace[t[k]];
      }
    }
  }

  // Nothing is lost or invented: the counters count the calls

  /** A call of add has put its item into the queue at pos. */
  ghost predicate AddsTo(s: State, s': State, pos: nat) {
    exists tid :: tid !in s.threads && tid in s'.threads && s'.threads[tid] == Adding(pos)
  }

  /** A take has succeeded on the queue at pos. */
  ghost predicate TakesFrom(s: State, s': State, pos: nat) {
    exists tid :: tid in s.threads && s.threads[tid].Scanning? && s.threads[tid].pos == pos && tid !in s'.threads
  }

  /** A call of add has posted and returned. */
  ghost predicate Posts(s: State, s': State) {
    exists tid :: tid in s.threads && s.threads[tid].Adding? && tid !in s'.threads
  }

  /** A taker has got a token from the semaphore, and starts over. */
  ghost predicate GetsToken(s: State, s': State) {
    exists tid :: tid in s.threads && tid in s'.threads && s'.threads[tid] == Scanning(0, true) && s.threads[tid] != Scanning(0, true)
  }

  function One(b: bool): nat {
    if b then 1 else 0
  }

  ghost function Adds(trace: seq<State>, i: nat, pos: nat): nat
    requires i < |trace|
  {
    if i == 0 then 0 else Adds(trace, i - 1, pos) + One(AddsTo(trace[i - 1], trace[i], pos))
  }

  ghost function Takes(trace: seq<State>, i: nat, pos: nat): nat
    requires i < |trace|
  {
    if i == 0 then 0 else Takes(trace, i - 1, pos) + One(TakesFrom(trace[i - 1], trace[i], pos))
  }

  ghost function Posted(trace: seq<State>, i: nat): nat
    requires i < |trace|
  {
    if i == 0 then 0 else Posted(trace, i - 1) + One(Posts(trace[i - 1], trace[i]))
  }

  ghost function Tokens(trace: seq<State>, i: nat): nat
    requires i < |trace|
  {
    if i == 0 then 0 else Tokens(trace, i - 1) + One(GetsToken(trace[i - 1], trace[i]))
  }

  lemma StepCountsItems(c: Config, s: State, step: Step, pos: nat)
    requires Inv(c, s) && Enabled(c, s, step) && pos < |s.queues|
    ensures var s' := Apply(c, s, step);
            && |s'.queues| == |s.queues|
            && s'.queues[pos].pushes == s.queues[pos].pushes + One(AddsTo(s, s', pos))
            && s'.queues[pos].pops == s.queues[pos].pops + One(TakesFrom(s, s', pos))
  {
    var s' := Apply(c, s, step);
    if step.Add? && pos == ScanPosition(|s.queues|, step.priority) {
      assert step.tid !in s.threads && s'.threads[step.tid] == Adding(pos);
    } else if step.Probe? && step.tid !in s'.threads && s.threads[step.tid].pos == pos {
      assert TakesFrom(s, s', pos);
    }
  }

  lemma StepCountsTokens(c: Config, s: State, step: Step)
    requires Inv(c, s) && Enabled(c, s, step) && |s.queues| > 0
    ensures var s' := Apply(c, s, step);
            s'.value + One(GetsToken(s, s')) == s.value + One(Posts(s, s'))
  {
    var s' := Apply(c, s, step);
    if step.Post? {
      assert s.threads[step.tid].Adding? && (s.waiters != [] ==> s.waiters[|s.waiters| - 1] in s.waiters);
      assert step.tid !in s'.threads;
      if s.waiters != [] {
        var woken := s.waiters[|s.waiters| - 1];
        assert s'.threads[woken] == Scanning(0, true) && s.threads[woken].Asleep?;
      }
    } else if step.Wait? && s.value > 0 {
      assert s'.threads[step.tid] == Scanning(0, true) && s.threads[step.tid].pos > 0;
    }
  }

  ghost predicate CountedAt(c: Config, trace: seq<State>, i: nat, pos: nat) {
    && i < |trace| && pos < |trace[i].queues| && Inv(c, trace[i])
    && trace[i].queues[pos] == Tickets(Adds(trace, i, pos), Takes(trace, i, pos))
    && trace[i].value + Tokens(trace, i) == Posted(trace, i)
  }

  lemma CountedNext(c: Config, trace: seq<State>, i: nat, pos: nat)
    requires i + 1 < |trace| && StepAt(c, trace, i) && CountedAt(c, trace, i, pos)
    ensures CountedAt(c, trace, i + 1, pos)
  {
    var s := trace[i];
    var step :| Enabled(c, s, step) && trace[i + 1] == Apply(c, s, step);
    StepInv(c, s, step);
    StepCountsItems(c, s, step, pos);
    StepCountsTokens(c, s, step);
  }

  /**
   In every run each queue has received exactly one item for every add into it and given exactly one
   for every take that succeeded on it; and every post is on the semaphore or was given to one taker.
   */
  lemma EveryItemCounted(c: Config, trace: seq<State>, i: nat, pos: nat)
    requires Run(c, trace) && i < |trace| && pos < |c.capacities|
    ensures |trace[i].queues| == |c.capacities|
    ensures trace[i].queues[pos].pushes == Adds(trace, i, pos) && trace[i].queues[pos].pops == Takes(trace, i, pos)
    ensures trace[i].value + Tokens(trace, i) == Posted(trace, i)
  {
    InitInv(c);
    var j := 0;
    while j < i
      invariant j <= i && CountedAt(c, trace, j, pos)
    {
      assert StepAt(c, trace, j);
      CountedNext(c, trace, j, pos);
      j := j + 1;
    }
  }

  /** A post wakes the taker that went to sleep last, and leaves the others waiting in their order. */
  lemma LastSleeperIsWoken(c: Config, s: State, sleeper: nat, post: nat)
    requires Inv(c, s) && Enabled(c, s, Wait(sleeper)) && s.value == 0
    requires post != sleeper && post in s.threads && s.threads[post].Adding?
    ensures var s1 := Apply(c, s, Wait(sleeper));
            && s1.threads[sleeper] == Asleep && Enabled(c, s1, Post(post))
            && var s2 := Apply(c, s1, Post(post));
               s2.threads[sleeper] == Scanning(0, true) && s2.waiters == s.waiters
  {
  }

  // Which queue, between the extremes

  /** The default priority goes to the middle; one priority more is one queue more, until the end queue is reached. */
  lemma QueuesInSteps(n: nat, p: int)
    requires n > 0
    ensures QueueIndex(n, MID_PRI) == n / 2
    ensures QueueIndex(n, p + 1) - QueueIndex(n, p) == if 0 <= n / 2 + p && n / 2 + p + 1 < n then 1 else 0
  {
  }
}
