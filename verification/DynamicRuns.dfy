/**
 Runs of the dynamic queue built step by step: constructor arguments that are not safe let a run
 lose the packed state. An expansion is tried here only when the tests of blockingWrite ask for it.
 */
module DynamicRuns {
  import opened Wrappers
  import opened Arithmetic
  import opened Stride
  import opened Slots
  import opened DynamicQueue

  /** The slot is not ready, and no pop is on its way to make it so: what blockingWrite tests before tryExpand. */
  predicate MayBlock<V>(s: State<V>, th: Thread<V>) {
    && th.pc.Resolved? && th.pc.epoch.cap > 0 && th.pc.epoch.offset <= th.ticket
    && !IsTurn(s.q, PushSide, WorkPlace(th)) && |s.q.pops| + th.pc.epoch.cap <= th.ticket
  }

  ghost predicate PathStep<V>(c: Config, s: State<V>, step: Step<V>, s': State<V>) {
    Legal(c, s, step) && (step.Lock? ==> MayBlock(s, s.threads[step.tid])) && s' == Apply(c, s, step)
  }

  ghost predicate PathNext<V(!new)>(c: Config, s: State<V>, s': State<V>) {
    exists step: Step<V> :: PathStep(c, s, step, s')
  }

  ghost predicate PathAt<V(!new)>(c: Config, path: seq<State<V>>, i: nat)
    requires i + 1 < |path|
  {
    PathNext(c, path[i], path[i + 1])
  }

  ghost predicate Path<V(!new)>(c: Config, path: seq<State<V>>) {
    |path| > 0 && forall i: nat :: i + 1 < |path| ==> PathAt(c, path, i)
  }

  ghost predicate Leads<V(!new)>(c: Config, s: State<V>, path: seq<State<V>>, s': State<V>) {
    Path(c, path) && path[0] == s && path[|path| - 1] == s'
  }

  lemma PathOne<V(!new)>(c: Config, s: State<V>, step: Step<V>) returns (path: seq<State<V>>)
    requires Legal(c, s, step) && (step.Lock? ==> MayBlock(s, s.threads[step.tid]))
    ensures Leads(c, s, path, Apply(c, s, step)) && |path| == 2
  {
    path := [s, Apply(c, s, step)];
    assert PathStep(c, s, step, path[1]);
    assert PathAt(c, path, 0);
  }

  lemma PathConcat<V(!new)>(c: Config, p: seq<State<V>>, r: seq<State<V>>)
    requires Path(c, p) && Path(c, r) && p[|p| - 1] == r[0]
    ensures Path(c, p + r[1..]) && (p + r[1..])[|p| + |r| - 2] == r[|r| - 1]
    ensures (p + r[1..])[0] == p[0]
  {
    var path := p + r[1..];
    forall i: nat | i + 1 < |path| ensures PathAt(c, path, i) {
      if i + 1 < |p| {
        assert PathAt(c, p, i);
      } else {
        assert PathAt(c, r, i + 1 - |p|);
      }
    }
  }

  lemma Join<V(!new)>(c: Config, s0: State<V>, p: seq<State<V>>, s1: State<V>, r: seq<State<V>>, s2: State<V>)
    returns (path: seq<State<V>>)
    requires Leads(c, s0, p, s1) && Leads(c, s1, r, s2)
    ensures Leads(c, s0, path, s2) && path == p + r[1..]
  {
    PathConcat(c, p, r);
    path := p + r[1..];
  }

  lemma PathIsRun<V(!new)>(c: Config, path: seq<State<V>>)
    requires ValidConfig(c) && Path(c, path) && path[0] == Init(c)
    ensures Run(c, path)
  {
    forall i: nat | i + 1 < |path| ensures StepAt(c, path, i) {
      assert PathAt(c, path, i);
    }
  }

  lemma PathInv<V(!new)>(c: Config, path: seq<State<V>>, i: nat)
    requires Path(c, path) && i < |path| && Inv(c, path[0])
    ensures Inv(c, path[i])
  {
    var j := 0;
    while j < i
      invariant j <= i && Inv(c, path[j])
    {
      assert PathAt(c, path, j);
      NextInv(c, path[j], path[j + 1]);
      j := j + 1;
    }
  }

  lemma NextInv<V(!new)>(c: Config, s: State<V>, s': State<V>)
    requires PathNext(c, s, s') && Inv(c, s)
    ensures Inv(c, s')
  {
    var step :| PathStep(c, s, step, s');
    StepInv(c, s, step);
  }

  // A thread alone in the read section

  /** One step of it only moves the thread on. */
  ghost predicate SectionMove<V>(c: Config, s: State<V>, tid: nat, pc: Pc, step: Step<V>, pc': Pc)
    requires tid in s.threads
  {
    Legal(c, SetPc(s, tid, pc), step) && !step.Lock? && Apply(c, SetPc(s, tid, pc), step) == SetPc(s, tid, pc')
  }

  lemma SectionLoads<V>(c: Config, s: State<V>, tid: nat)
    requires s.phase.Unlocked? && tid in s.threads && s.threads[tid].pc.Start? && s.dstate % 2 == 0
    ensures SectionMove(c, s, tid, Start, LoadState(tid), HaveState(s.dstate))
    ensures SectionMove(c, s, tid, HaveState(s.dstate), LoadSlots(tid), HaveSlots(s.dstate, s.dslots))
    ensures SectionMove(c, s, tid, HaveSlots(s.dstate, s.dslots), LoadCap(tid), HaveCap(s.dstate, s.dslots, s.dcapacity))
  {
  }

  lemma SectionEnds<V>(c: Config, s: State<V>, tid: nat)
    requires s.phase.Unlocked? && tid in s.threads
    ensures SectionMove(c, s, tid, HaveCap(s.dstate, s.dslots, s.dcapacity), LoadStride(tid),
                        HaveStride(s.dstate, s.dslots, s.dcapacity, s.dstride))
    ensures SectionMove(c, s, tid, HaveStride(s.dstate, s.dslots, s.dcapacity, s.dstride), Validate(tid),
                        Validated(s.dstate, s.dslots, s.dcapacity, s.dstride))
  {
  }

  /** Nothing but where thread tid is differs from s. */
  ghost predicate OnlyPc<V>(s: State<V>, tid: nat, s': State<V>)
    requires tid in s.threads
  {
    tid in s'.threads && s' == SetPc(s, tid, s'.threads[tid].pc)
  }

  lemma SectionExtend<V(!new)>(c: Config, s: State<V>, tid: nat, path: seq<State<V>>, pc: Pc, step: Step<V>, pc': Pc)
    returns (longer: seq<State<V>>)
    requires tid in s.threads && Leads(c, s, path, SetPc(s, tid, pc)) && SectionMove(c, s, tid, pc, step, pc')
    requires forall k :: 0 <= k < |path| ==> OnlyPc(s, tid, path[k])
    ensures Leads(c, s, longer, SetPc(s, tid, pc')) && forall k :: 0 <= k < |longer| ==> OnlyPc(s, tid, longer[k])
  {
    var one := PathOne(c, SetPc(s, tid, pc), step);
    PathConcat(c, path, one);
    longer := path + one[1..];
  }

  lemma ValidatedPath<V(!new)>(c: Config, s: State<V>, tid: nat) returns (path: seq<State<V>>)
    requires Inv(c, s) && s.phase.Unlocked? && tid in s.threads && s.threads[tid].pc.Start?
    ensures Leads(c, s, path, SetPc(s, tid, Validated(s.dstate, s.dslots, s.dcapacity, s.dstride)))
    ensures forall k :: 0 <= k < |path| ==> OnlyPc(s, tid, path[k])
  {
    StateDecodes(c, s);
    var d, l, p, r := s.dstate, s.dslots, s.dcapacity, s.dstride;
    SectionLoads(c, s, tid);
    SectionEnds(c, s, tid);
    path := [s];
    assert SetPc(s, tid, Start) == s;
    path := SectionExtend(c, s, tid, path, Start, LoadState(tid), HaveState(d));
    path := SectionExtend(c, s, tid, path, HaveState(d), LoadSlots(tid), HaveSlots(d, l));
    path := SectionExtend(c, s, tid, path, HaveSlots(d, l), LoadCap(tid), HaveCap(d, l, p));
    path := SectionExtend(c, s, tid, path, HaveCap(d, l, p), LoadStride(tid), HaveStride(d, l, p, r));
    path := SectionExtend(c, s, tid, path, HaveStride(d, l, p, r), Validate(tid), Validated(d, l, p, r));
  }

  /** What the thread knows after the section and maybeUpdateFromClosed. */
  function ResolvedPc<V>(s: State<V>, tid: nat): Pc
    requires tid in s.threads && HasEpochs(s)
  {
    var e := EpochOf(s.q.epochs, s.threads[tid].ticket);
    Resolved(s.dstate, e, s.q.epochs[e])
  }

  lemma SectionPath<V(!new)>(c: Config, s: State<V>, tid: nat) returns (path: seq<State<V>>)
    requires Inv(c, s) && s.phase.Unlocked? && tid in s.threads && s.threads[tid].pc.Start?
    ensures Leads(c, s, path, SetPc(s, tid, ResolvedPc(s, tid)))
    ensures Inv(c, SetPc(s, tid, ResolvedPc(s, tid)))
    ensures forall k :: 0 <= k < |path| ==> OnlyPc(s, tid, path[k])
  {
    path := ValidatedPath(c, s, tid);
    var pc := Validated(s.dstate, s.dslots, s.dcapacity, s.dstride);
    LeadsInv(c, s, path, SetPc(s, tid, pc));
    ResolveMove(c, s, tid, pc);
    path := SectionExtend(c, s, tid, path, pc, ResolveTicket(tid), ResolvedPc(s, tid));
    LeadsInv(c, s, path, SetPc(s, tid, ResolvedPc(s, tid)));
  }

  lemma LeadsInv<V(!new)>(c: Config, s: State<V>, path: seq<State<V>>, s': State<V>)
    requires Leads(c, s, path, s') && Inv(c, s)
    ensures Inv(c, s')
  {
    PathInv(c, path, |path| - 1);
  }

  lemma ResolveMove<V>(c: Config, s: State<V>, tid: nat, pc: Pc)
    requires s.phase.Unlocked? && tid in s.threads && pc.Validated? && pc.st == s.dstate
    requires Inv(c, SetPc(s, tid, pc))
    ensures HasEpochs(s) && SectionMove(c, s, tid, pc, ResolveTicket(tid), ResolvedPc(s, tid))
  {
    ResolveIsEpochOf(c, SetPc(s, tid, pc), tid);
  }

  // Writers pile up, and one of them expands

  ghost predicate Fresh<V>(q: Queue<V>) {
    forall a, i :: 0 <= a < |q.mem| && 0 <= i < |q.mem[a]| ==> q.mem[a][i].seqno == 0
  }

  /** Nothing has been taken or even written yet; the threads there are have numbers below n. */
  ghost predicate Piled<V>(c: Config, s: State<V>, n: nat) {
    && Inv(c, s) && |s.q.pops| == 0 && Fresh(s.q) && (forall tid :: tid in s.threads ==> tid < n)
    && |s.closed| == Expansions(c.minCapacity, c.capacity, c.mult)
  }

  lemma PushOne<V(!new)>(c: Config, s: State<V>, n: nat, v: V) returns (path: seq<State<V>>, s': State<V>)
    requires Piled(c, s, n) && s.phase.Unlocked?
    ensures Leads(c, s, path, s') && Piled(c, s', n + 1) && s'.phase.Unlocked? && s'.q.epochs == s.q.epochs
    ensures |s'.q.pushes| == |s.q.pushes| + 1
    ensures n in s'.threads && s'.threads[n] == Thread(Writer(v), Blocking, |s.q.pushes|, true, Start)
  {
    var step := Begin(n, Writer(v), Blocking);
    StepInv(c, s, step);
    path := PathOne(c, s, step);
    s' := Apply(c, s, step);
  }

  /** Push tickets are handed out until there are at least as many as wanted. */
  lemma PushMany<V(!new)>(c: Config, s: State<V>, n: nat, v: V, wanted: nat)
    returns (path: seq<State<V>>, s': State<V>, n': nat)
    requires Piled(c, s, n) && s.phase.Unlocked?
    ensures Leads(c, s, path, s') && Piled(c, s', n') && s'.phase.Unlocked? && s'.q.epochs == s.q.epochs
    ensures |s'.q.pushes| >= wanted
  {
    path, s', n' := [s], s, n;
    while |s'.q.pushes| < wanted
      invariant Leads(c, s, path, s') && Piled(c, s', n') && s'.phase.Unlocked? && s'.q.epochs == s.q.epochs
      decreases wanted - |s'.q.pushes|
    {
      var more, next := PushOne(c, s', n', v);
      path := Join(c, s, path, s', more, next);
      s', n' := next, n' + 1;
    }
  }

  /** A ticket at least one capacity past the offset finds its slot not ready, and may block. */
  lemma PiledMayBlock<V>(s: State<V>, th: Thread<V>)
    requires Fresh(s.q) && |s.q.pops| == 0 && th.pc.Resolved?
    requires th.pc.epoch.cap > 0 && th.pc.epoch.offset + th.pc.epoch.cap <= th.ticket
    ensures MayBlock(s, th)
  {
    assert Turn(th.ticket - th.pc.epoch.offset, th.pc.epoch.cap) > 0;
  }

  /** The writer with number w has found the current array full. */
  ghost predicate AboutToExpand<V>(c: Config, s: State<V>, w: nat) {
    && |s.q.epochs| > 0 && w in s.threads && s.threads[w].role.Writer?
    && s.threads[w].pc == Resolved(s.dstate, |s.q.epochs| - 1, Current(s.q.epochs))
    && Current(s.q.epochs).cap < c.capacity && Current(s.q.epochs).cap > 0
    && Current(s.q.epochs).offset + Current(s.q.epochs).cap <= s.threads[w].ticket
  }

  lemma WriterArrives<V(!new)>(c: Config, s: State<V>, n: nat, v: V) returns (path: seq<State<V>>, s': State<V>)
    requires Piled(c, s, n) && s.phase.Unlocked? && Current(s.q.epochs).cap < c.capacity
    requires Current(s.q.epochs).offset + Current(s.q.epochs).cap <= |s.q.pushes|
    ensures Leads(c, s, path, s') && Piled(c, s', n + 1) && s'.phase.Unlocked? && s'.q.epochs == s.q.epochs
    ensures AboutToExpand(c, s', n)
  {
    var first, s1 := PushOne(c, s, n, v);
    var section := SectionPath(c, s1, n);
    s' := SetPc(s1, n, ResolvedPc(s1, n));
    WriterResolved(c, s1, n, s');
    path := Join(c, s, first, s1, section, s');
  }

  lemma WriterResolved<V(!new)>(c: Config, s: State<V>, w: nat, s': State<V>)
    requires Piled(c, s, w + 1) && w in s.threads && s.threads[w].role.Writer?
    requires s' == SetPc(s, w, ResolvedPc(s, w)) && Inv(c, s')
    requires Current(s.q.epochs).offset + Current(s.q.epochs).cap <= s.threads[w].ticket
    requires Current(s.q.epochs).cap < c.capacity
    ensures Piled(c, s', w + 1) && AboutToExpand(c, s', w)
  {
    EpochIs(s.q.epochs, s.threads[w].ticket, |s.q.epochs| - 1);
  }

  lemma LockTaken<V(!new)>(c: Config, s: State<V>, n: nat, w: nat) returns (path: seq<State<V>>, s': State<V>)
    requires Piled(c, s, n) && s.phase.Unlocked? && AboutToExpand(c, s, w)
    ensures Leads(c, s, path, s') && Piled(c, s', n) && s'.phase.Locked? && s'.q.epochs == s.q.epochs
  {
    StateDecodes(c, s);
    PiledMayBlock(s, s.threads[w]);
    StepInv(c, s, Lock(w));
    path := PathOne(c, s, Step<V>.Lock(w));
    s' := Apply(c, s, Lock(w));
  }

  /** The next step of tryExpand, when the allocation succeeds. */
  function ExpandStep<V>(phase: Phase): Step<V>
    requires !phase.Unlocked?
  {
    match phase
    case Locked => LoadOne(PushSide)
    case HaveOne(_, _) => LoadOther
    case HaveTicket(_) => Alloc
    case HaveArray(_) => WriteClosed
    case ClosedWritten(_) => WriteSlots
    case SlotsWritten(_) => WriteCap
    case CapWritten(_) => WriteStride
    case StrideWritten(_) => Unlock
  }

  function StepsLeft(phase: Phase): nat {
    match phase
    case Unlocked => 0
    case Locked => 8
    case HaveOne(_, _) => 7
    case HaveTicket(_) => 6
    case HaveArray(_) => 5
    case ClosedWritten(_) => 4
    case SlotsWritten(_) => 3
    case CapWritten(_) => 2
    case StrideWritten(_) => 1
  }

  lemma ExpandEnabled<V>(c: Config, s: State<V>)
    requires Inv(c, s) && !s.phase.Unlocked?
    ensures Enabled(c, s, ExpandStep(s.phase))
  {
    OwnerIsOk(c, s);
  }

  lemma ExpandMoves<V>(c: Config, s: State<V>)
    requires !s.phase.Unlocked? && Enabled(c, s, ExpandStep(s.phase))
    ensures var s' := Apply(c, s, ExpandStep(s.phase));
            && StepsLeft(s'.phase) == StepsLeft(s.phase) - 1 && s'.q.pops == s.q.pops && s'.threads.Keys == s.threads.Keys
            && |s'.closed| == |s.closed| && (Fresh(s.q) ==> Fresh(s'.q))
            && |s'.q.epochs| == |s.q.epochs| + (if s.phase.StrideWritten? then 1 else 0)
  {
  }

  lemma ExpandOne<V(!new)>(c: Config, s: State<V>, n: nat) returns (path: seq<State<V>>, s': State<V>)
    requires Piled(c, s, n) && !s.phase.Unlocked? && (s.phase.StrideWritten? ==> |s.q.epochs| <= MAX_CLOSED)
    ensures Leads(c, s, path, s') && Piled(c, s', n) && StepsLeft(s'.phase) == StepsLeft(s.phase) - 1
    ensures |s'.q.epochs| == |s.q.epochs| + (if s.phase.StrideWritten? then 1 else 0)
  {
    var step: Step<V> := ExpandStep(s.phase);
    ExpandEnabled(c, s);
    ExpandMoves(c, s);
    StepInv(c, s, step);
    path := PathOne(c, s, step);
    s' := Apply(c, s, step);
  }

  /** tryExpand runs through to its last store. */
  lemma ExpandToUnlock<V(!new)>(c: Config, s: State<V>, n: nat) returns (path: seq<State<V>>, s': State<V>)
    requires Piled(c, s, n) && s.phase.Locked?
    ensures Leads(c, s, path, s') && Piled(c, s', n) && s'.phase.StrideWritten? && |s'.q.epochs| == |s.q.epochs|
  {
    path, s' := [s], s;
    while StepsLeft(s'.phase) > 1
      invariant Leads(c, s, path, s') && Piled(c, s', n) && StepsLeft(s'.phase) >= 1 && |s'.q.epochs| == |s.q.epochs|
      decreases StepsLeft(s'.phase)
    {
      var more, next := ExpandOne(c, s', n);
      path := Join(c, s, path, s', more, next);
      s' := next;
    }
  }

  /** From a pile of writers on an array that can grow, up to the last store of an expansion. */
  lemma ExpandOnce<V(!new)>(c: Config, s: State<V>, n: nat, v: V)
    returns (path: seq<State<V>>, s': State<V>, n': nat)
    requires Piled(c, s, n) && s.phase.Unlocked? && Current(s.q.epochs).cap < c.capacity
    ensures Leads(c, s, path, s') && Piled(c, s', n') && s'.phase.StrideWritten? && |s'.q.epochs| == |s.q.epochs|
  {
    var p1, s1, n1 := PushMany(c, s, n, v, Current(s.q.epochs).offset + Current(s.q.epochs).cap);
    var p2, s2 := WriterArrives(c, s1, n1, v);
    var p3, s3 := LockTaken(c, s2, n1 + 1, n1);
    var p4, s4 := ExpandToUnlock(c, s3, n1 + 1);
    s', n' := s4, n1 + 1;
    path := Join(c, s, p1, s1, p2, s2);
    path := Join(c, s, path, s2, p3, s3);
    path := Join(c, s, path, s3, p4, s4);
  }

  /** Unless the arguments are safe, the array can still grow when the last one the packed state has room for is in use. */
  lemma CanStillGrow<V>(c: Config, s: State<V>, n: nat)
    requires Piled(c, s, n) && !AlwaysDecodes(c) && |s.q.epochs| <= MAX_CLOSED + 1
    ensures Current(s.q.epochs).cap < c.capacity
  {
  }

  /** A run to the last store of the expansion that closes array number m. */
  lemma ClosesMany<V(!new)>(c: Config, v: V, m: nat) returns (path: seq<State<V>>, s: State<V>, n: nat)
    requires ValidConfig(c) && !AlwaysDecodes(c) && 1 <= m <= MAX_CLOSED + 1
    ensures Leads(c, Init(c), path, s) && Piled(c, s, n) && s.phase.StrideWritten? && |s.q.epochs| == m
  {
    s, n := Init(c), 0;
    InitInv<V>(c);
    CanStillGrow(c, s, n);
    path, s, n := ExpandOnce(c, s, n, v);
    while |s.q.epochs| < m
      invariant Leads(c, Init(c), path, s) && Piled(c, s, n) && s.phase.StrideWritten? && |s.q.epochs| <= m
      decreases m - |s.q.epochs|
    {
      path, s, n := ClosesNext(c, path, s, n, v);
    }
  }

  lemma ClosesNext<V(!new)>(c: Config, path: seq<State<V>>, s: State<V>, n: nat, v: V)
    returns (path': seq<State<V>>, s': State<V>, n': nat)
    requires ValidConfig(c) && !AlwaysDecodes(c) && |s.q.epochs| <= MAX_CLOSED
    requires Leads(c, Init(c), path, s) && Piled(c, s, n) && s.phase.StrideWritten?
    ensures Leads(c, Init(c), path', s') && Piled(c, s', n') && s'.phase.StrideWritten? && |s'.q.epochs| == |s.q.epochs| + 1
  {
    var p1, s1 := ExpandOne(c, s, n);
    CanStillGrow(c, s1, n);
    var p2, s2, n2 := ExpandOnce(c, s1, n, v);
    s', n' := s2, n2;
    path' := Join(c, Init(c), path, s, p1, s1);
    path' := Join(c, Init(c), path', s1, p2, s2);
  }

  /** The last store of tryExpand is due, and will store a state that reads as no closed array. */
  ghost predicate LosesState<V>(c: Config, s: State<V>) {
    && Enabled(c, s, Step<V>.Unlock) && !Legal(c, s, Step<V>.Unlock)
    && GetNumClosed(Apply(c, s, Unlock).dstate) == 0 && GetOffset(Apply(c, s, Unlock).dstate) == s.phase.tk + 1
  }

  /** With arguments that are not safe some run, expanding only as blockingWrite does, loses the state. */
  lemma UnsafeLosesState<V(!new)>(c: Config, v: V) returns (path: seq<State<V>>)
    requires ValidConfig(c) && !AlwaysDecodes(c)
    ensures Run(c, path) && Path(c, path) && LosesState(c, path[|path| - 1])
  {
    var s, n;
    path, s, n := ClosesMany(c, v, MAX_CLOSED + 1);
    PathIsRun(c, path);
    ExpandEnabled(c, s);
    UnlockKeepsIff(c, s, Step<V>.Unlock);
  }

  ghost predicate NeverLost<V(!new)>(c: Config, trace: seq<State<V>>, k: nat, step: Step<V>)
    requires k < |trace|
  {
    Enabled(c, trace[k], step) ==> Legal(c, trace[k], step)
  }

  /** The constructor's arguments are safe for all runs exactly when 31 expansions reach the capacity. */
  lemma SafeForAllRunsIff<V(!new)>(queueCapacity: nat, minCapacity: nat, mult: nat, v: V)
    requires queueCapacity > 0
    ensures var c := MakeConfig(queueCapacity, minCapacity, mult);
            (forall trace: seq<State<V>>, k: nat, step: Step<V> :: Run(c, trace) && k < |trace| ==> NeverLost(c, trace, k, step))
            <==> queueCapacity <= c.minCapacity * Pow(c.mult, MAX_CLOSED)
  {
    var c := MakeConfig(queueCapacity, minCapacity, mult);
    SafeArguments(queueCapacity, minCapacity, mult);
    if AlwaysDecodes(c) {
      forall trace: seq<State<V>>, k: nat, step: Step<V> | Run(c, trace) && k < |trace| ensures NeverLost(c, trace, k, step) {
        if Enabled(c, trace[k], step) {
          SafeMeansLegal(c, trace, k, step);
        }
      }
    } else {
      var path := UnsafeLosesState(c, v);
      assert !NeverLost(c, path, |path| - 1, Step<V>.Unlock);
    }
  }

  /** The arguments 0x80000001, 1 and 2 are not safe: such a run exists. */
  lemma DoublingFromOneLosesState<V(!new)>(v: V) returns (path: seq<State<V>>)
    ensures var c := MakeConfig(0x8000_0001, 1, 2);
            Run(c, path) && Path(c, path) && LosesState(c, path[|path| - 1])
  {
    AssertedBoundIsTooWeak(0);
    path := UnsafeLosesState(MakeConfig(0x8000_0001, 1, 2), v);
  }
}
