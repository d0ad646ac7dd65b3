/**
 The dynamic MPMCQueue: slots arrays are replaced under a seqlock while operations are in flight.
 Every load and store of the shared fields is a step of its own.
 */
module DynamicQueue {
  import opened Wrappers
  import opened Arithmetic
  import opened Stride
  import opened Slots
  import opened Fifo

  // The packed seqlock and ticket offset

  const SEQLOCK_RANGE: nat := 64
  const MAX_CLOSED: nat := 31

  function Pack(offset: nat, numClosed: nat): nat {
    offset * SEQLOCK_RANGE + 2 * numClosed
  }

  function GetOffset(state: nat): nat {
    state / SEQLOCK_RANGE
  }

  function GetNumClosed(state: nat): nat {
    (state % SEQLOCK_RANGE) / 2
  }

  /** A packed state, locked or not, decodes to what was packed exactly when at most 31 arrays are closed. */
  lemma PackDecodes(offset: nat, numClosed: nat)
    ensures (GetOffset(Pack(offset, numClosed)) == offset && GetNumClosed(Pack(offset, numClosed)) == numClosed)
            <==> numClosed <= MAX_CLOSED
    ensures numClosed <= MAX_CLOSED ==>
              && Pack(offset, numClosed) % 2 == 0
              && GetOffset(Pack(offset, numClosed) + 1) == offset
              && GetNumClosed(Pack(offset, numClosed) + 1) == numClosed
  {
  }

  // Sizing

  datatype Config = Config(capacity: nat, minCapacity: nat, mult: nat)

  /** Expansions that are possible from a given capacity. */
  function Expansions(expanded: nat, capacity: nat, mult: nat): nat
    requires expanded > 0 && mult >= 2
    decreases capacity - expanded
  {
    if expanded >= capacity then 0 else
      ScaleMonotone(expanded, 2, mult);
      1 + Expansions(expanded * mult, capacity, mult)
  }

  ghost predicate ValidConfig(c: Config) {
    0 < c.minCapacity <= c.capacity && c.mult >= 2
  }

  /** The constructor's own adjustment of its arguments. */
  function MakeConfig(queueCapacity: nat, minCapacity: nat, mult: nat): Config {
    var atLeastOne := if minCapacity < 1 then 1 else minCapacity;
    Config(queueCapacity, if atLeastOne < queueCapacity then atLeastOne else queueCapacity, if mult < 2 then 2 else mult)
  }

  /** At most n expansions are possible exactly when n of them suffice to reach the capacity. */
  lemma {:induction false} ExpansionsAtMost(cap: nat, capacity: nat, mult: nat, n: nat)
    requires cap > 0 && mult >= 2
    ensures Expansions(cap, capacity, mult) <= n <==> capacity <= cap * Pow(mult, n)
    decreases n
  {
    PowPositive(mult, n);
    ScaleMonotone(cap, 1, Pow(mult, n));
    if n > 0 && cap < capacity {
      ScaleMonotone(cap, 2, mult);
      var next := cap * mult;
      ExpansionsAtMost(next, capacity, mult, n - 1);
      Associate(cap, mult, Pow(mult, n - 1));
      assert Expansions(cap, capacity, mult) == 1 + Expansions(next, capacity, mult);
    }
  }

  /** No run can ever close more arrays than the packed state has room for. */
  ghost predicate AlwaysDecodes(c: Config)
    requires c.minCapacity > 0 && c.mult >= 2
  {
    Expansions(c.minCapacity, c.capacity, c.mult) <= MAX_CLOSED
  }

  /** Exactly which constructor arguments are safe: 31 expansions must reach the capacity. */
  lemma SafeArguments(queueCapacity: nat, minCapacity: nat, mult: nat)
    requires queueCapacity > 0
    ensures var c := MakeConfig(queueCapacity, minCapacity, mult);
            && ValidConfig(c)
            && (AlwaysDecodes(c) <==> queueCapacity <= c.minCapacity * Pow(c.mult, MAX_CLOSED))
  {
    var c := MakeConfig(queueCapacity, minCapacity, mult);
    ExpansionsAtMost(c.minCapacity, c.capacity, c.mult, MAX_CLOSED);
  }

  /** The default arguments are safe for every 64-bit capacity. */
  lemma DefaultArgumentsAreSafe(queueCapacity: nat)
    requires 0 < queueCapacity < TWO_64
    ensures AlwaysDecodes(MakeConfig(queueCapacity, 10, 10))
  {
    ExpansionsAtMost(10, queueCapacity, 10, 19);
    assert Pow(10, 9) == 1_000_000_000;
    PowSum(10, 9, 9);
    PowSum(10, 1, 18);
  }

  /**
   Unsafe arguments: the bound the constructor computes is 32, so entry 31 is inside closed_, and it
   passes the assert 2 * index < 64; the state stored then reads as no closed array at all.
   */
  lemma AssertedBoundIsTooWeak(offset: nat)
    ensures var c := MakeConfig(0x8000_0001, 1, 2);
            Expansions(c.minCapacity, c.capacity, c.mult) == 32 && !AlwaysDecodes(c)
    ensures 2 * 31 < SEQLOCK_RANGE
    ensures GetNumClosed(Pack(offset, 31 + 1)) == 0 && GetOffset(Pack(offset, 31 + 1)) == offset + 1
  {
    ExpansionsAtMost(1, 0x8000_0001, 2, 31);
    ExpansionsAtMost(1, 0x8000_0001, 2, 32);
    assert Pow(2, 8) == 0x100;
    PowSum(2, 8, 8);
    PowSum(2, 16, 16);
    PowSum(2, 1, 31);
  }

  function NewCapacity(c: Config, cap: nat): nat {
    if c.mult * cap <= c.capacity then c.mult * cap else c.capacity
  }

  /** The bound on closed arrays, computed as the constructor does. */
  method MaxClosed(cap: nat, mult: nat, capacity: nat) returns (maxClosed: nat)
    requires cap > 0 && mult >= 2
    ensures maxClosed == Expansions(cap, capacity, mult)
  {
    maxClosed := 0;
    var expanded := cap;
    while expanded < capacity
      invariant expanded > 0
      invariant maxClosed + Expansions(expanded, capacity, mult) == Expansions(cap, capacity, mult)
      decreases capacity - expanded
    {
      ScaleMonotone(expanded, 2, mult);
      maxClosed := maxClosed + 1;
      expanded := expanded * mult;
    }
  }

  /** Each expansion grows the array and uses up exactly one of the possible expansions. */
  lemma ExpansionCounted(c: Config, cap: nat)
    requires 0 < cap < c.capacity && c.mult >= 2
    ensures cap < NewCapacity(c, cap) <= c.capacity
    ensures Expansions(cap, c.capacity, c.mult) == 1 + Expansions(NewCapacity(c, cap), c.capacity, c.mult)
  {
    ScaleMonotone(cap, 2, c.mult);
    assert c.mult * cap == cap * c.mult;
  }

  // State

  datatype Closed = Closed(offset: nat, slots: nat, capacity: nat, stride: nat)

  datatype Role<V> = Writer(value: V) | Reader

  /** Progress of one thread through the seqlock read section and the resolution of its ticket. */
  datatype Pc =
    | Start
    | HaveState(st: nat)
    | HaveSlots(st: nat, slots: nat)
    | HaveCap(st: nat, slots: nat, cap: nat)
    | HaveStride(st: nat, slots: nat, cap: nat, stride: nat)
    | Validated(st: nat, slots: nat, cap: nat, stride: nat)
    | Resolved(st: nat, arr: nat, epoch: Epoch)

  /** A ticket is held (issued) or only read from its counter so far. */
  datatype Thread<V> = Thread(role: Role<V>, kind: Kind, ticket: nat, issued: bool, pc: Pc)

  /** How far the holder of the seqlock has come in tryExpand. */
  datatype Phase =
    | Unlocked
    | Locked
    | HaveOne(side: Side, n: nat)
    | HaveTicket(tk: nat)
    | HaveArray(tk: nat)
    | ClosedWritten(tk: nat)
    | SlotsWritten(tk: nat)
    | CapWritten(tk: nat)
    | StrideWritten(tk: nat)

  datatype State<V> = State(
    q: Queue<V>,
    dstate: nat, dslots: nat, dcapacity: nat, dstride: nat,
    closed: seq<Closed>,
    threads: map<nat, Thread<V>>,
    owner: nat, phase: Phase)

  function Init<V>(c: Config): State<V>
    requires 0 < c.minCapacity && c.mult >= 2
  {
    State(InitQueue(c.minCapacity, StrideFor(c.minCapacity)),
          Pack(0, 0), 0, c.minCapacity, StrideFor(c.minCapacity),
          seq(Expansions(c.minCapacity, c.capacity, c.mult), _ => Closed(0, 0, 0, 0)),
          map[], 0, Unlocked)
  }

  function SideOf<V>(role: Role<V>): Side {
    if role.Writer? then PushSide else PopSide
  }

  function Issue<V>(q: Queue<V>, role: Role<V>, kind: Kind): Queue<V> {
    match role
    case Writer(v) => IssuePush(q, v, kind)
    case Reader => IssuePop(q, kind)
  }

  /** The most recent closed array below i whose offset is not above the ticket; None is the assert(false). */
  function SearchClosed(closed: seq<Closed>, i: nat, ticket: nat): (found: Option<nat>)
    requires i <= |closed|
    ensures found.Some? ==> found.value < i
  {
    if i == 0 then None
    else if closed[i - 1].offset <= ticket then Some(i - 1)
    else SearchClosed(closed, i - 1, ticket)
  }

  /** The loop of maybeUpdateFromClosed. */
  method FindClosed(closed: seq<Closed>, numClosed: nat, ticket: nat) returns (found: Option<nat>)
    requires numClosed <= |closed|
    ensures found == SearchClosed(closed, numClosed, ticket)
    ensures found.Some? ==> found.value < numClosed && closed[found.value].offset <= ticket
    ensures forall i :: (if found.Some? then found.value else -1) < i < numClosed ==> ticket < closed[i].offset
  {
    var i := numClosed - 1;
    while i >= 0
      invariant -1 <= i < numClosed
      invariant SearchClosed(closed, numClosed, ticket) == SearchClosed(closed, i + 1, ticket)
      invariant forall j :: i < j < numClosed ==> ticket < closed[j].offset
    {
      if closed[i].offset <= ticket {
        return Some(i);
      }
      i := i - 1;
    }
    return None;
  }

  /** maybeUpdateFromClosed: what the operation will use, from the section it read and closed_. */
  function Resolve(closed: seq<Closed>, ticket: nat, pc: Pc): Option<Pc>
    requires pc.Validated?
  {
    var offset := GetOffset(pc.st);
    if ticket >= offset then Some(Resolved(pc.st, pc.slots, Epoch(offset, pc.cap, pc.stride)))
    else if GetNumClosed(pc.st) > |closed| then None
    else match SearchClosed(closed, GetNumClosed(pc.st), ticket)
      case Some(i) => Some(Resolved(pc.st, closed[i].slots, Epoch(closed[i].offset, closed[i].capacity, closed[i].stride)))
      case None => None
  }

  // Steps

  datatype Step<V> =
    | Begin(tid: nat, role: Role<V>, kind: Kind)
    | LoadState(tid: nat)
    | LoadSlots(tid: nat)
    | LoadCap(tid: nat)
    | LoadStride(tid: nat)
    | Validate(tid: nat)
    | ResolveTicket(tid: nat)
    | Commit(tid: nat)
    | Retry(tid: nat)
    | Leave(tid: nat)
    | Work(tid: nat)
    | Lock(tid: nat)
    | LoadOne(side: Side)
    | LoadOther
    | AllocFails
    | Alloc
    | WriteClosed
    | WriteSlots
    | WriteCap
    | WriteStride
    | Unlock

  predicate Running<V>(s: State<V>, tid: nat) {
    tid in s.threads && !(s.phase != Unlocked && s.owner == tid)
  }

  predicate OwnerOk<V>(s: State<V>) {
    && s.phase != Unlocked && s.owner in s.threads && s.threads[s.owner].pc.Resolved?
    && GetNumClosed(s.threads[s.owner].pc.st) < |s.closed|
  }

  /** Where an operation works: from what it resolved, whatever happened since. */
  function WorkPlace<V>(th: Thread<V>): Location
    requires th.pc.Resolved? && th.pc.epoch.cap > 0 && th.pc.epoch.offset <= th.ticket
  {
    LocationIn(th.pc.arr, th.pc.epoch, th.ticket)
  }

  predicate Enabled<V>(c: Config, s: State<V>, step: Step<V>) {
    match step
    case Begin(tid, role, kind) => tid !in s.threads
    case LoadState(tid) => Running(s, tid) && s.threads[tid].pc.Start? && s.dstate % 2 == 0
    case LoadSlots(tid) => Running(s, tid) && s.threads[tid].pc.HaveState?
    case LoadCap(tid) => Running(s, tid) && s.threads[tid].pc.HaveSlots?
    case LoadStride(tid) => Running(s, tid) && s.threads[tid].pc.HaveCap?
    case Validate(tid) => Running(s, tid) && s.threads[tid].pc.HaveStride?
    case ResolveTicket(tid) =>
      && Running(s, tid) && s.threads[tid].pc.Validated?
      && Resolve(s.closed, s.threads[tid].ticket, s.threads[tid].pc).Some?
    case Commit(tid) =>
      && Running(s, tid) && s.threads[tid].pc.Resolved? && !s.threads[tid].issued
      && s.threads[tid].ticket == Count(s.q, SideOf(s.threads[tid].role))
    case Retry(tid) =>
      && Running(s, tid)
      && (s.threads[tid].issued ==> AtStage(s.q, SideOf(s.threads[tid].role), s.threads[tid].ticket, Issued))
    case Leave(tid) =>
      && Running(s, tid)
      && (s.threads[tid].issued ==> AtStage(s.q, SideOf(s.threads[tid].role), s.threads[tid].ticket, Done))
    case Work(tid) =>
      && Running(s, tid) && s.threads[tid].pc.Resolved? && s.threads[tid].issued
      && s.threads[tid].pc.epoch.cap > 0 && s.threads[tid].pc.epoch.offset <= s.threads[tid].ticket
      && CanAdvance(s.q, SideOf(s.threads[tid].role), s.threads[tid].ticket, WorkPlace(s.threads[tid]))
    case Lock(tid) =>
      && Running(s, tid) && s.threads[tid].pc.Resolved? && s.threads[tid].role.Writer?
      && s.threads[tid].pc.epoch.offset == GetOffset(s.threads[tid].pc.st)
      && s.threads[tid].pc.epoch.cap != c.capacity
      && s.dstate == s.threads[tid].pc.st
    case LoadOne(_) => s.phase.Locked?
    case LoadOther => s.phase.HaveOne?
    case AllocFails => OwnerOk(s) && s.phase.HaveTicket?
    case Alloc => OwnerOk(s) && s.phase.HaveTicket?
    case WriteClosed => OwnerOk(s) && s.phase.HaveArray?
    case WriteSlots => OwnerOk(s) && s.phase.ClosedWritten? && |s.q.mem| > 0
    case WriteCap => OwnerOk(s) && s.phase.SlotsWritten?
    case WriteStride => OwnerOk(s) && s.phase.CapWritten? && NewCapacity(c, s.threads[s.owner].pc.epoch.cap) > 0
    case Unlock => OwnerOk(s) && s.phase.StrideWritten?
  }

  function SetPc<V>(s: State<V>, tid: nat, pc: Pc): State<V>
    requires tid in s.threads
  {
    s.(threads := s.threads[tid := s.threads[tid].(pc := pc)])
  }

  function Apply<V>(c: Config, s: State<V>, step: Step<V>): State<V>
    requires Enabled(c, s, step)
  {
    match step
    case Begin(tid, role, kind) =>
      var th := Thread(role, kind, Count(s.q, SideOf(role)), kind.Blocking?, Start);
      s.(threads := s.threads[tid := th], q := if kind.Blocking? then Issue(s.q, role, kind) else s.q)
    case LoadState(tid) => SetPc(s, tid, HaveState(s.dstate))
    case LoadSlots(tid) => SetPc(s, tid, HaveSlots(s.threads[tid].pc.st, s.dslots))
    case LoadCap(tid) =>
      var pc := s.threads[tid].pc;
      SetPc(s, tid, HaveCap(pc.st, pc.slots, s.dcapacity))
    case LoadStride(tid) =>
      var pc := s.threads[tid].pc;
      SetPc(s, tid, HaveStride(pc.st, pc.slots, pc.cap, s.dstride))
    case Validate(tid) =>
      var pc := s.threads[tid].pc;
      SetPc(s, tid, if s.dstate == pc.st then Validated(pc.st, pc.slots, pc.cap, pc.stride) else Start)
    case ResolveTicket(tid) => SetPc(s, tid, Resolve(s.closed, s.threads[tid].ticket, s.threads[tid].pc).value)
    case Commit(tid) =>
      var th := s.threads[tid];
      s.(threads := s.threads[tid := th.(issued := true)], q := Issue(s.q, th.role, th.kind))
    case Retry(tid) =>
      var th := s.threads[tid];
      var ticket := if th.issued then th.ticket else Count(s.q, SideOf(th.role));
      s.(threads := s.threads[tid := th.(ticket := ticket, pc := Start)])
    case Leave(tid) => s.(threads := s.threads - {tid})
    case Work(tid) =>
      var th := s.threads[tid];
      s.(q := Advance(s.q, SideOf(th.role), th.ticket, WorkPlace(th)))
    case Lock(tid) => s.(dstate := s.dstate + 1, owner := tid, phase := Locked)
    case LoadOne(side) => s.(phase := HaveOne(side, Count(s.q, side)))
    case LoadOther =>
      var other := Count(s.q, if s.phase.side.PushSide? then PopSide else PushSide);
      s.(phase := HaveTicket(1 + if s.phase.n >= other then s.phase.n else other))
    case AllocFails => s.(dstate := s.threads[s.owner].pc.st, phase := Unlocked)
    case Alloc =>
      var newCap := NewCapacity(c, s.threads[s.owner].pc.epoch.cap);
      s.(q := s.q.(mem := s.q.mem + [NewArray(newCap)]), phase := HaveArray(s.phase.tk))
    case WriteClosed =>
      var pc := s.threads[s.owner].pc;
      var entry := Closed(GetOffset(pc.st), s.dslots, pc.epoch.cap, s.dstride);
      s.(closed := s.closed[GetNumClosed(pc.st) := entry], phase := ClosedWritten(s.phase.tk))
    case WriteSlots => s.(dslots := |s.q.mem| - 1, phase := SlotsWritten(s.phase.tk))
    case WriteCap =>
      s.(dcapacity := NewCapacity(c, s.threads[s.owner].pc.epoch.cap), phase := CapWritten(s.phase.tk))
    case WriteStride =>
      s.(dstride := StrideFor(NewCapacity(c, s.threads[s.owner].pc.epoch.cap)), phase := StrideWritten(s.phase.tk))
    case Unlock =>
      var pc := s.threads[s.owner].pc;
      var epoch := Epoch(s.phase.tk, s.dcapacity, s.dstride);
      SetPc(s.(dstate := Pack(s.phase.tk, GetNumClosed(pc.st) + 1),
               q := s.q.(epochs := s.q.epochs + [epoch]), phase := Unlocked), s.owner, Start)
  }

  // Invariant

  predicate HasNewTicket(phase: Phase) {
    !phase.Unlocked? && !phase.Locked? && !phase.HaveOne?
  }

  predicate HasNewArray(phase: Phase) {
    HasNewTicket(phase) && !phase.HaveTicket?
  }

  predicate Overwriting(phase: Phase) {
    phase.SlotsWritten? || phase.CapWritten? || phase.StrideWritten?
  }

  /** The offset being computed is above this ticket as far as it is known. */
  predicate SafeTicket(phase: Phase, side: Side, t: nat) {
    && (phase.HaveOne? && phase.side == side ==> t <= phase.n)
    && (HasNewTicket(phase) ==> t < phase.tk)
  }

  function Current(epochs: seq<Epoch>): Epoch
    requires |epochs| > 0
  {
    epochs[|epochs| - 1]
  }

  function CurrentState(epochs: seq<Epoch>): nat
    requires |epochs| > 0
  {
    Pack(Current(epochs).offset, |epochs| - 1)
  }

  /** Values loaded in a read section that can still be validated are those of the current array. */
  predicate SectionInv(epochs: seq<Epoch>, phase: Phase, pc: Pc)
    requires |epochs| > 0 && !pc.Start? && !pc.Resolved?
  {
    && pc.st <= CurrentState(epochs)
    && (pc.st == CurrentState(epochs) && !Overwriting(phase) ==>
          && (!pc.HaveState? ==> pc.slots == |epochs| - 1)
          && (!pc.HaveState? && !pc.HaveSlots? ==> pc.cap == Current(epochs).cap)
          && (pc.HaveStride? ==> pc.stride == Current(epochs).stride))
  }

  /** The state an operation validated is that of some array, and later arrays start above its ticket. */
  predicate ReadOf(epochs: seq<Epoch>, st: nat, ticket: nat) {
    var m := GetNumClosed(st);
    && m < |epochs| && st == Pack(epochs[m].offset, m)
    && (m + 1 < |epochs| ==> ticket < epochs[m + 1].offset)
  }

  predicate PcInv(epochs: seq<Epoch>, phase: Phase, side: Side, ticket: nat, pc: Pc)
    requires |epochs| > 0 && epochs[0].offset == 0
  {
    match pc
    case Start => true
    case Validated(st, slots, cap, stride) =>
      && ReadOf(epochs, st, ticket) && SafeTicket(phase, side, ticket)
      && slots == GetNumClosed(st) && cap == epochs[slots].cap && stride == epochs[slots].stride
    case Resolved(st, arr, epoch) =>
      && ReadOf(epochs, st, ticket) && SafeTicket(phase, side, ticket)
      && arr == EpochOf(epochs, ticket) && epoch == epochs[arr]
    case _ => SectionInv(epochs, phase, pc)
  }

  predicate ThreadInv<V>(epochs: seq<Epoch>, phase: Phase, pushes: nat, pops: nat, th: Thread<V>)
    requires |epochs| > 0 && epochs[0].offset == 0
  {
    var n := if SideOf(th.role).PushSide? then pushes else pops;
    && th.ticket <= n && (th.issued ==> th.ticket < n)
    && PcInv(epochs, phase, SideOf(th.role), th.ticket, th.pc)
  }

  ghost predicate ThreadsInv<V>(s: State<V>)
    requires |s.q.epochs| > 0 && s.q.epochs[0].offset == 0
  {
    forall tid :: tid in s.threads ==>
                    ThreadInv(s.q.epochs, s.phase, |s.q.pushes|, |s.q.pops|, s.threads[tid])
  }

  function EntryOf(epochs: seq<Epoch>, i: nat): Closed
    requires i < |epochs|
  {
    Closed(epochs[i].offset, i, epochs[i].cap, epochs[i].stride)
  }

  /** Capacities grow, strides fit them, and closed_ has room for every expansion still possible. */
  ghost predicate EpochsInv(c: Config, epochs: seq<Epoch>, closed: seq<Closed>, phase: Phase)
    requires c.mult >= 2
  {
    && ValidEpochs(epochs)
    && (forall i :: 0 <= i < |epochs| ==> epochs[i].cap <= c.capacity && epochs[i].stride == StrideFor(epochs[i].cap))
    && (forall i, j :: 0 <= i < j < |epochs| ==> epochs[i].cap < epochs[j].cap)
    && |closed| == |epochs| - 1 + Expansions(Current(epochs).cap, c.capacity, c.mult)
    && |epochs| - 1 <= MAX_CLOSED
    && (forall i :: 0 <= i < |epochs| - 1 ==> closed[i] == EntryOf(epochs, i))
    && (phase.ClosedWritten? || Overwriting(phase) ==>
          |closed| >= |epochs| && closed[|epochs| - 1] == EntryOf(epochs, |epochs| - 1))
  }

  /** The shared fields describe the current array, or the next one as far as they are overwritten. */
  ghost predicate FieldsInv<V>(c: Config, s: State<V>)
    requires |s.q.epochs| > 0
  {
    var n := |s.q.epochs| - 1;
    var cur := Current(s.q.epochs);
    && s.dstate == CurrentState(s.q.epochs) + (if s.phase.Unlocked? then 0 else 1)
    && s.dslots == (if Overwriting(s.phase) then n + 1 else n)
    && s.dcapacity == (if s.phase.CapWritten? || s.phase.StrideWritten? then NewCapacity(c, cur.cap) else cur.cap)
    && s.dstride == (if s.phase.StrideWritten? && NewCapacity(c, cur.cap) > 0 then StrideFor(NewCapacity(c, cur.cap)) else cur.stride)
    && |s.q.mem| == n + (if HasNewArray(s.phase) then 2 else 1)
    && (HasNewArray(s.phase) ==> s.q.mem[n + 1] == NewArray(NewCapacity(c, cur.cap)))
  }

  /** The holder of the seqlock works on the current array, which can grow, for a ticket it serves. */
  predicate OwnerInv<V>(c: Config, s: State<V>)
    requires |s.q.epochs| > 0
  {
    !s.phase.Unlocked? ==>
    && s.owner in s.threads
    && var th := s.threads[s.owner];
       && th.role.Writer? && th.pc.Resolved?
       && th.pc.st == CurrentState(s.q.epochs) && th.pc.arr == |s.q.epochs| - 1
       && th.pc.epoch == Current(s.q.epochs) && th.pc.epoch.cap < c.capacity
       && Current(s.q.epochs).offset <= th.ticket
  }

  /** Every ticket at work in a slot is below the offset being computed. */
  ghost predicate TouchedInv<V>(s: State<V>) {
    forall side, t: nat :: Touched(s.q, side, t) ==> SafeTicket(s.phase, side, t)
  }

  ghost predicate Inv<V>(c: Config, s: State<V>) {
    && ValidConfig(c)
    && SlotInv(s.q) && EpochsInv(c, s.q.epochs, s.closed, s.phase)
    && FieldsInv(c, s) && ThreadsInv(s) && OwnerInv(c, s) && TouchedInv(s)
  }

  lemma InitInv<V>(c: Config)
    requires ValidConfig(c)
    ensures Inv(c, Init<V>(c))
  {
    StrideIsCoprime(c.minCapacity);
    InitSlotInv<V>(c.minCapacity, StrideFor(c.minCapacity));
  }

  lemma StateDecodes<V>(c: Config, s: State<V>)
    requires Inv(c, s)
    ensures |s.q.epochs| - 1 <= MAX_CLOSED
    ensures CurrentState(s.q.epochs) % 2 == 0
    ensures GetOffset(CurrentState(s.q.epochs)) == Current(s.q.epochs).offset
    ensures GetNumClosed(CurrentState(s.q.epochs)) == |s.q.epochs| - 1
  {
    PackDecodes(Current(s.q.epochs).offset, |s.q.epochs| - 1);
  }

  // Steps of one thread through the read section

  predicate IsSectionStep<V>(step: Step<V>) {
    step.LoadState? || step.LoadSlots? || step.LoadCap? || step.LoadStride? || step.Validate?
  }

  /** One thread other than the holder of the seqlock gets on; nothing else changes. */
  lemma ThreadStepInv<V>(c: Config, s: State<V>, tid: nat, pc: Pc)
    requires Inv(c, s) && Running(s, tid)
    requires PcInv(s.q.epochs, s.phase, SideOf(s.threads[tid].role), s.threads[tid].ticket, pc)
    ensures Inv(c, SetPc(s, tid, pc))
  {
    assert ThreadInv(s.q.epochs, s.phase, |s.q.pushes|, |s.q.pops|, s.threads[tid]);
  }

  lemma SectionStepInv<V>(c: Config, s: State<V>, step: Step<V>)
    requires Inv(c, s) && IsSectionStep(step) && Enabled(c, s, step)
    ensures Inv(c, Apply(c, s, step))
  {
    StateDecodes(c, s);
    var th := s.threads[step.tid];
    assert ThreadInv(s.q.epochs, s.phase, |s.q.pushes|, |s.q.pops|, th);
    ThreadStepInv(c, s, step.tid, Apply(c, s, step).threads[step.tid].pc);
  }

  // Resolving a ticket

  lemma {:induction false} SearchFindsEpoch(epochs: seq<Epoch>, closed: seq<Closed>, i: nat, ticket: nat)
    requires ValidEpochs(epochs) && i < |epochs| && i <= |closed|
    requires forall j :: 0 <= j < i ==> closed[j] == EntryOf(epochs, j)
    requires ticket < epochs[i].offset
    ensures SearchClosed(closed, i, ticket) == Some(EpochOf(epochs, ticket))
  {
    if i > 0 && closed[i - 1].offset > ticket {
      SearchFindsEpoch(epochs, closed, i - 1, ticket);
    } else {
      EpochIs(epochs, ticket, i - 1);
    }
  }

  lemma EpochIs(epochs: seq<Epoch>, ticket: nat, e: nat)
    requires ValidEpochs(epochs) && e < |epochs| && epochs[e].offset <= ticket
    requires e + 1 < |epochs| ==> ticket < epochs[e + 1].offset
    ensures EpochOf(epochs, ticket) == e
  {
    assert e <= EpochOf(epochs, ticket);
    assert EpochOf(epochs, ticket) <= e;
  }

  /** What a validated thread resolves is the array, offset, capacity and stride of its ticket. */
  lemma ResolveIsEpochOf<V>(c: Config, s: State<V>, tid: nat)
    requires Inv(c, s) && tid in s.threads && s.threads[tid].pc.Validated?
    ensures var th := s.threads[tid];
            var e := EpochOf(s.q.epochs, th.ticket);
            Resolve(s.closed, th.ticket, th.pc) == Some(Resolved(th.pc.st, e, s.q.epochs[e]))
  {
    var th := s.threads[tid];
    assert ThreadInv(s.q.epochs, s.phase, |s.q.pushes|, |s.q.pops|, th);
    var m := GetNumClosed(th.pc.st);
    PackDecodes(s.q.epochs[m].offset, m);
    if th.ticket >= s.q.epochs[m].offset {
      EpochIs(s.q.epochs, th.ticket, m);
    } else {
      SearchFindsEpoch(s.q.epochs, s.closed, m, th.ticket);
    }
  }

  lemma ResolveStepInv<V>(c: Config, s: State<V>, step: Step<V>)
    requires Inv(c, s) && step.ResolveTicket? && Enabled(c, s, step)
    ensures Inv(c, Apply(c, s, step))
  {
    var th := s.threads[step.tid];
    ResolveIsEpochOf(c, s, step.tid);
    assert ThreadInv(s.q.epochs, s.phase, |s.q.pushes|, |s.q.pops|, th);
    var e := EpochOf(s.q.epochs, th.ticket);
    ThreadStepInv(c, s, step.tid, Resolved(th.pc.st, e, s.q.epochs[e]));
  }

  // Obtaining, retrying and giving up tickets

  lemma TicketStepThreads<V>(c: Config, s: State<V>, step: Step<V>)
    requires HasEpochs(s) && ThreadsInv(s) && (step.Begin? || step.Commit?) && Enabled(c, s, step)
    ensures HasEpochs(Apply(c, s, step)) && ThreadsInv(Apply(c, s, step))
  {
    var s' := Apply(c, s, step);
    forall tid | tid in s'.threads
      ensures ThreadInv(s'.q.epochs, s'.phase, |s'.q.pushes|, |s'.q.pops|, s'.threads[tid])
    {
      if tid in s.threads {
        assert ThreadInv(s.q.epochs, s.phase, |s.q.pushes|, |s.q.pops|, s.threads[tid]);
      }
    }
  }

  lemma TicketStepInv<V>(c: Config, s: State<V>, step: Step<V>)
    requires Inv(c, s) && (step.Begin? || step.Commit?) && Enabled(c, s, step)
    ensures Inv(c, Apply(c, s, step))
  {
    var s' := Apply(c, s, step);
    IssueKeeps(s.q, s'.q);
    TicketStepThreads(c, s, step);
    assert OwnerInv(c, s');
    assert TouchedInv(s') by {
      forall side, t: nat | Touched(s'.q, side, t) ensures SafeTicket(s'.phase, side, t) {
        assert Touched(s.q, side, t);
      }
    }
  }

  lemma IssueKeeps<V>(q: Queue<V>, q': Queue<V>)
    requires SlotInv(q)
    requires q' == q || exists role, kind :: q' == Issue(q, role, kind)
    ensures SlotInv(q') && q'.epochs == q.epochs && q'.mem == q.mem
    ensures |q.pushes| <= |q'.pushes| && |q.pops| <= |q'.pops|
    ensures forall side, t: nat :: Touched(q', side, t) ==> Touched(q, side, t)
  {
    if q' != q {
      var role, kind :| q' == Issue(q, role, kind);
      match role
      case Writer(v) => IssuePushSlotInv(q, v, kind);
      case Reader => IssuePopSlotInv(q, kind);
    }
  }

  lemma RetryStepInv<V>(c: Config, s: State<V>, step: Step<V>)
    requires Inv(c, s) && (step.Retry? || step.Leave?) && Enabled(c, s, step)
    ensures Inv(c, Apply(c, s, step))
  {
    var s' := Apply(c, s, step);
    forall tid | tid in s'.threads
      ensures ThreadInv(s'.q.epochs, s'.phase, |s'.q.pushes|, |s'.q.pops|, s'.threads[tid])
    {
      assert ThreadInv(s.q.epochs, s.phase, |s.q.pushes|, |s.q.pops|, s.threads[tid]);
    }
  }

  // Work at the slots

  /** A resolved thread works at the one place that belongs to its ticket. */
  lemma WorkPlaceIsLocate<V>(c: Config, s: State<V>, tid: nat)
    requires Inv(c, s) && tid in s.threads && s.threads[tid].pc.Resolved?
    ensures var th := s.threads[tid];
            && th.pc.epoch.cap > 0 && th.pc.epoch.offset <= th.ticket
            && WorkPlace(th) == Locate(s.q.epochs, th.ticket)
  {
    assert ThreadInv(s.q.epochs, s.phase, |s.q.pushes|, |s.q.pops|, s.threads[tid]);
  }

  lemma AdvanceFrame<V>(q: Queue<V>, side: Side, t: nat, loc: Location)
    requires CanAdvance(q, side, t, loc)
    ensures var q' := Advance(q, side, t, loc);
            && q'.epochs == q.epochs && |q'.mem| == |q.mem|
            && |q'.pushes| == |q.pushes| && |q'.pops| == |q.pops|
            && (forall i :: 0 <= i < |q.mem| && i != loc.arr ==> q'.mem[i] == q.mem[i])
            && (forall side', t': nat :: Touched(q', side', t') ==>
                                           Touched(q, side', t') || (side' == side && t' == t))
  {
  }

  lemma WorkStepInv<V>(c: Config, s: State<V>, step: Step<V>)
    requires Inv(c, s) && step.Work? && Enabled(c, s, step)
    ensures Inv(c, Apply(c, s, step))
  {
    var s' := Apply(c, s, step);
    var th := s.threads[step.tid];
    WorkPlaceIsLocate(c, s, step.tid);
    AdvanceSlotInv(s.q, SideOf(th.role), th.ticket);
    AdvanceFrame(s.q, SideOf(th.role), th.ticket, WorkPlace(th));
    assert ThreadInv(s.q.epochs, s.phase, |s.q.pushes|, |s.q.pops|, th);
    forall side, t: nat | Touched(s'.q, side, t) ensures SafeTicket(s'.phase, side, t) {
    }
  }

  // Expansion

  lemma LockIsCurrent<V>(c: Config, s: State<V>, tid: nat)
    requires Inv(c, s) && Enabled(c, s, Lock(tid))
    ensures s.phase.Unlocked? && s.threads[tid].pc.arr == |s.q.epochs| - 1
    ensures s.threads[tid].pc.epoch == Current(s.q.epochs) && s.threads[tid].pc.epoch.cap < c.capacity
  {
    StateDecodes(c, s);
    assert ThreadInv(s.q.epochs, s.phase, |s.q.pushes|, |s.q.pops|, s.threads[tid]);
  }

  lemma LockStepInv<V>(c: Config, s: State<V>, step: Step<V>)
    requires Inv(c, s) && step.Lock? && Enabled(c, s, step)
    ensures Inv(c, Apply(c, s, step))
  {
    LockIsCurrent(c, s, step.tid);
    var s' := Apply(c, s, step);
    PhaseThreads(s, s');
    assert SlotInv(s'.q) && EpochsInv(c, s'.q.epochs, s'.closed, s'.phase) && FieldsInv(c, s');
    assert OwnerInv(c, s');
  }

  /** A change of phase that asks nothing new of any ticket keeps the threads' invariants. */
  lemma PhaseThreads<V>(s: State<V>, s': State<V>)
    requires |s.q.epochs| > 0 && s.q.epochs[0].offset == 0
    requires s'.q.epochs == s.q.epochs && s'.threads == s.threads && ThreadsInv(s)
    requires |s'.q.pushes| == |s.q.pushes| && |s'.q.pops| == |s.q.pops|
    requires Overwriting(s.phase) ==> Overwriting(s'.phase)
    requires forall th :: th in s.threads.Values && (th.pc.Validated? || th.pc.Resolved?)
                          && SafeTicket(s.phase, SideOf(th.role), th.ticket)
                          && th.ticket <= Count(s.q, SideOf(th.role)) ==>
                            SafeTicket(s'.phase, SideOf(th.role), th.ticket)
    ensures ThreadsInv(s')
  {
    forall tid | tid in s'.threads
      ensures ThreadInv(s'.q.epochs, s'.phase, |s'.q.pushes|, |s'.q.pops|, s'.threads[tid])
    {
      assert ThreadInv(s.q.epochs, s.phase, |s.q.pushes|, |s.q.pops|, s.threads[tid]);
      assert s.threads[tid] in s.threads.Values;
    }
  }

  /** The first ticket counter is read after the seqlock was taken... */
  lemma LoadOneInv<V>(c: Config, s: State<V>, step: Step<V>)
    requires Inv(c, s) && step.LoadOne? && Enabled(c, s, step)
    ensures Inv(c, Apply(c, s, step))
  {
    var s' := Apply(c, s, step);
    PhaseThreads(s, s');
    assert SlotInv(s'.q) && EpochsInv(c, s'.q.epochs, s'.closed, s'.phase) && FieldsInv(c, s') && OwnerInv(c, s');
    forall side, t: nat | Touched(s'.q, side, t) ensures SafeTicket(s'.phase, side, t) {
      assert Touched(s.q, side, t);
    }
  }

  /** ...and so is the other, so the new offset passes every ticket in use. */
  lemma LoadOtherInv<V>(c: Config, s: State<V>, step: Step<V>)
    requires Inv(c, s) && step.LoadOther? && Enabled(c, s, step)
    ensures Inv(c, Apply(c, s, step))
  {
    var s' := Apply(c, s, step);
    PhaseThreads(s, s');
    assert SlotInv(s'.q) && EpochsInv(c, s'.q.epochs, s'.closed, s'.phase) && FieldsInv(c, s') && OwnerInv(c, s');
    forall side, t: nat | Touched(s'.q, side, t) ensures SafeTicket(s'.phase, side, t) {
      assert Touched(s.q, side, t);
    }
  }

  lemma OwnerIsOk<V>(c: Config, s: State<V>)
    requires Inv(c, s) && !s.phase.Unlocked?
    ensures OwnerOk(s)
    ensures var th := s.threads[s.owner];
            && GetNumClosed(th.pc.st) == |s.q.epochs| - 1 && GetOffset(th.pc.st) == Current(s.q.epochs).offset
            && s.dstate == th.pc.st + 1
    ensures Current(s.q.epochs).cap < NewCapacity(c, Current(s.q.epochs).cap) <= c.capacity
    ensures HasNewTicket(s.phase) ==> Current(s.q.epochs).offset < s.phase.tk
  {
    StateDecodes(c, s);
    ExpansionCounted(c, Current(s.q.epochs).cap);
    assert ThreadInv(s.q.epochs, s.phase, |s.q.pushes|, |s.q.pops|, s.threads[s.owner]);
  }

  lemma PhaseTouched<V>(s: State<V>, s': State<V>)
    requires TouchedInv(s) && s'.q.pushes == s.q.pushes && s'.q.pops == s.q.pops
    requires forall side, t: nat :: SafeTicket(s.phase, side, t) ==> SafeTicket(s'.phase, side, t)
    ensures TouchedInv(s')
  {
    forall side, t: nat | Touched(s'.q, side, t) ensures SafeTicket(s'.phase, side, t) {
      assert Touched(s.q, side, t);
    }
  }

  /** The expansion is given up, or closed_ is filled in: the shared fields still describe the current array. */
  lemma CloseStepInv<V>(c: Config, s: State<V>, step: Step<V>)
    requires Inv(c, s) && Enabled(c, s, step) && (step.AllocFails? || step.WriteClosed?)
    ensures Inv(c, Apply(c, s, step))
  {
    OwnerIsOk(c, s);
    var s' := Apply(c, s, step);
    PhaseThreads(s, s');
    PhaseTouched(s, s');
    assert SlotInv(s'.q);
    CloseStepEpochs(c, s, step);
    assert FieldsInv(c, s') && OwnerInv(c, s');
  }

  lemma CloseStepEpochs<V>(c: Config, s: State<V>, step: Step<V>)
    requires c.mult >= 2 && EpochsInv(c, s.q.epochs, s.closed, s.phase) && FieldsInv(c, s) && OwnerInv(c, s)
    requires Enabled(c, s, step) && (step.AllocFails? || step.WriteClosed?)
    requires GetNumClosed(s.threads[s.owner].pc.st) == |s.q.epochs| - 1
    requires GetOffset(s.threads[s.owner].pc.st) == Current(s.q.epochs).offset
    ensures var s' := Apply(c, s, step); EpochsInv(c, s'.q.epochs, s'.closed, s'.phase)
  {
  }

  /** The three stores that describe the new array. */
  lemma WriteStepInv<V>(c: Config, s: State<V>, step: Step<V>)
    requires Inv(c, s) && Enabled(c, s, step) && (step.WriteSlots? || step.WriteCap? || step.WriteStride?)
    ensures Inv(c, Apply(c, s, step))
  {
    OwnerIsOk(c, s);
    var s' := Apply(c, s, step);
    PhaseThreads(s, s');
    PhaseTouched(s, s');
    assert SlotInv(s'.q) && EpochsInv(c, s'.q.epochs, s'.closed, s'.phase);
    assert FieldsInv(c, s') && OwnerInv(c, s');
  }

  lemma AllocStepInv<V>(c: Config, s: State<V>, step: Step<V>)
    requires Inv(c, s) && step.Alloc? && Enabled(c, s, step)
    ensures Inv(c, Apply(c, s, step))
  {
    OwnerIsOk(c, s);
    var s' := Apply(c, s, step);
    PhaseThreads(s, s');
    assert ValidMemory(s'.q);
    forall t: nat ensures TicketInv(s'.q, t) {
      assert TicketInv(s.q, t);
    }
    forall side, t: nat | Touched(s'.q, side, t) ensures SafeTicket(s'.phase, side, t) {
      assert Touched(s.q, side, t);
    }
  }

  lemma UnlockStepInv<V>(c: Config, s: State<V>, step: Step<V>)
    requires Inv(c, s) && step.Unlock? && Legal(c, s, step)
    ensures Inv(c, Apply(c, s, step))
  {
    OwnerIsOk(c, s);
    var s' := Apply(c, s, step);
    var e := Epoch(s.phase.tk, s.dcapacity, s.dstride);
    UnlockEpochs(c, s.q.epochs, s.closed, s.phase, e);
    PublishSlotInv(s.q, e);
    forall tid | tid in s'.threads
      ensures ThreadInv(s'.q.epochs, s'.phase, |s'.q.pushes|, |s'.q.pops|, s'.threads[tid])
    {
      var th := s.threads[tid];
      assert ThreadInv(s.q.epochs, s.phase, |s.q.pushes|, |s.q.pops|, th);
      UnlockThread(s.q.epochs, s.phase, SideOf(th.role), th.ticket, th.pc, e);
    }
  }

  lemma AppendEpoch(epochs: seq<Epoch>, e: Epoch)
    requires ValidEpochs(epochs) && e.cap > 0 && Coprime(e.stride, e.cap) && Current(epochs).offset < e.offset
    ensures ValidEpochs(epochs + [e])
    ensures forall i :: 0 <= i < |epochs| ==> epochs[i].offset < e.offset
  {
    forall i | 0 <= i < |epochs| ensures epochs[i].offset < e.offset {
      assert i < |epochs| - 1 ==> epochs[i].offset < epochs[|epochs| - 1].offset;
    }
  }

  lemma UnlockEpochs(c: Config, epochs: seq<Epoch>, closed: seq<Closed>, phase: Phase, e: Epoch)
    requires c.mult >= 2 && EpochsInv(c, epochs, closed, phase) && phase.StrideWritten? && |epochs| <= MAX_CLOSED
    requires Current(epochs).cap < c.capacity && Current(epochs).offset < e.offset
    requires e.cap == NewCapacity(c, Current(epochs).cap) && e.cap > 0 && e.stride == StrideFor(e.cap)
    ensures EpochsInv(c, epochs + [e], closed, Unlocked)
    ensures Coprime(e.stride, e.cap)
    ensures forall i :: 0 <= i < |epochs| ==> epochs[i].offset < e.offset
  {
    ExpansionCounted(c, Current(epochs).cap);
    StrideIsCoprime(e.cap);
    AppendEpoch(epochs, e);
    UnlockCapacities(c, epochs, e);
    assert Current(epochs + [e]) == e;
    forall i | 0 <= i < |epochs| ensures closed[i] == EntryOf(epochs + [e], i) {
      assert closed[i] == EntryOf(epochs, i);
    }
  }

  lemma UnlockCapacities(c: Config, epochs: seq<Epoch>, e: Epoch)
    requires |epochs| > 0 && Current(epochs).cap < e.cap <= c.capacity
    requires forall i, j :: 0 <= i < j < |epochs| ==> epochs[i].cap < epochs[j].cap
    ensures var longer := epochs + [e]; forall i, j :: 0 <= i < j < |longer| ==> longer[i].cap < longer[j].cap
  {
    forall i | 0 <= i < |epochs| ensures epochs[i].cap < e.cap {
      assert i < |epochs| - 1 ==> epochs[i].cap < epochs[|epochs| - 1].cap;
    }
  }

  lemma UnlockThread(epochs: seq<Epoch>, phase: Phase, side: Side, ticket: nat, pc: Pc, e: Epoch)
    requires ValidEpochs(epochs) && |epochs| <= MAX_CLOSED && phase.StrideWritten? && phase.tk == e.offset
    requires Current(epochs).offset < e.offset
    requires PcInv(epochs, phase, side, ticket, pc)
    ensures PcInv(epochs + [e], Unlocked, side, ticket, pc)
  {
    EpochOfAppend(epochs, e, ticket);
    assert CurrentState(epochs) < CurrentState(epochs + [e]);
  }

  // Runs

  /** Steps that close at most the 31 arrays the packed state has room for. */
  predicate Legal<V>(c: Config, s: State<V>, step: Step<V>) {
    Enabled(c, s, step) && (step.Unlock? ==> |s.q.epochs| <= MAX_CLOSED)
  }

  /** Closing a 32nd array is where it goes wrong, and only there. */
  lemma UnlockKeepsIff<V>(c: Config, s: State<V>, step: Step<V>)
    requires Inv(c, s) && step.Unlock? && Enabled(c, s, step)
    ensures Inv(c, Apply(c, s, step)) <==> Legal(c, s, step)
    ensures !Legal(c, s, step) ==>
              var st := Apply(c, s, step).dstate;
              GetNumClosed(st) == 0 && GetOffset(st) == s.phase.tk + 1
  {
    OwnerIsOk(c, s);
    if Legal(c, s, step) {
      UnlockStepInv(c, s, step);
    } else {
      PackDecodes(s.phase.tk, 32);
    }
  }

  lemma StepInv<V>(c: Config, s: State<V>, step: Step<V>)
    requires Inv(c, s) && Legal(c, s, step)
    ensures Inv(c, Apply(c, s, step))
  {
    if IsSectionStep(step) {
      SectionStepInv(c, s, step);
    } else if step.ResolveTicket? {
      ResolveStepInv(c, s, step);
    } else if step.Begin? || step.Commit? {
      TicketStepInv(c, s, step);
    } else if step.Retry? || step.Leave? {
      RetryStepInv(c, s, step);
    } else if step.Work? {
      WorkStepInv(c, s, step);
    } else if step.Lock? {
      LockStepInv(c, s, step);
    } else if step.LoadOne? {
      LoadOneInv(c, s, step);
    } else if step.LoadOther? {
      LoadOtherInv(c, s, step);
    } else if step.Alloc? {
      AllocStepInv(c, s, step);
    } else if step.Unlock? {
      UnlockStepInv(c, s, step);
    } else if step.AllocFails? || step.WriteClosed? {
      CloseStepInv(c, s, step);
    } else {
      WriteStepInv(c, s, step);
    }
  }

  ghost predicate Next<V(!new)>(c: Config, s: State<V>, s': State<V>) {
    exists step: Step<V> :: Legal(c, s, step) && s' == Apply(c, s, step)
  }

  ghost predicate StepAt<V(!new)>(c: Config, trace: seq<State<V>>, i: nat)
    requires i + 1 < |trace|
  {
    Next(c, trace[i], trace[i + 1])
  }

  ghost predicate Run<V(!new)>(c: Config, trace: seq<State<V>>) {
    && ValidConfig(c) && |trace| > 0 && trace[0] == Init(c)
    && forall i: nat :: i + 1 < |trace| ==> StepAt(c, trace, i)
  }

  lemma {:induction false} RunInv<V(!new)>(c: Config, trace: seq<State<V>>, i: nat)
    requires Run(c, trace) && i < |trace|
    ensures Inv(c, trace[i])
  {
    if i == 0 {
      InitInv<V>(c);
    } else {
      RunInv(c, trace, i - 1);
      assert StepAt(c, trace, i - 1);
      var step :| Legal(c, trace[i - 1], step) && trace[i] == Apply(c, trace[i - 1], step);
      StepInv(c, trace[i - 1], step);
    }
  }

  // Agreement of lagging operations

  /** A ticket someone has resolved: no array published from now on takes it over. */
  predicate Settled<V>(s: State<V>, side: Side, t: nat) {
    SafeTicket(s.phase, side, t) && t <= Count(s.q, side)
  }

  /** The number and description of the array that serves a ticket. */
  function Serving(epochs: seq<Epoch>, t: nat): (nat, Epoch)
    requires |epochs| > 0 && epochs[0].offset == 0
  {
    (EpochOf(epochs, t), epochs[EpochOf(epochs, t)])
  }

  predicate HasEpochs<V>(s: State<V>) {
    |s.q.epochs| > 0 && s.q.epochs[0].offset == 0
  }

  /** Ticket counters only grow, arrays are only added, and only tryExpand changes its own phase. */
  predicate Frame<V>(s: State<V>, s': State<V>) {
    && |s.q.pushes| <= |s'.q.pushes| && |s.q.pops| <= |s'.q.pops|
    && (s'.q.epochs == s.q.epochs
        || (HasNewTicket(s.phase) && s'.q.epochs == s.q.epochs + [Epoch(s.phase.tk, s.dcapacity, s.dstride)]))
    && (s'.phase == s.phase || s'.phase.Unlocked? || s'.phase.Locked?
        || (s'.phase.HaveOne? && s'.phase.n == Count(s.q, s'.phase.side))
        || (s.phase.HaveOne? && s'.phase.HaveTicket? && s.phase.n < s'.phase.tk
            && forall side :: side != s.phase.side ==> Count(s.q, side) < s'.phase.tk)
        || (HasNewTicket(s.phase) && HasNewTicket(s'.phase) && s'.phase.tk == s.phase.tk))
  }

  lemma StepFrame<V>(c: Config, s: State<V>, step: Step<V>)
    requires Enabled(c, s, step)
    ensures Frame(s, Apply(c, s, step))
  {
    if step.Work? {
      var th := s.threads[step.tid];
      AdvanceFrame(s.q, SideOf(th.role), th.ticket, WorkPlace(th));
    }
  }

  lemma SettledFrame<V>(s: State<V>, s': State<V>, side: Side, t: nat)
    requires HasEpochs(s) && Frame(s, s') && Settled(s, side, t)
    ensures HasEpochs(s') && Settled(s', side, t)
    ensures Serving(s'.q.epochs, t) == Serving(s.q.epochs, t)
  {
    if s'.q.epochs != s.q.epochs {
      EpochOfAppend(s.q.epochs, Epoch(s.phase.tk, s.dcapacity, s.dstride), t);
    }
  }

  lemma SettledStep<V(!new)>(c: Config, s: State<V>, s': State<V>, side: Side, t: nat)
    requires HasEpochs(s) && Next(c, s, s') && Settled(s, side, t)
    ensures HasEpochs(s') && Settled(s', side, t)
    ensures Serving(s'.q.epochs, t) == Serving(s.q.epochs, t)
  {
    var step :| Legal(c, s, step) && s' == Apply(c, s, step);
    StepFrame(c, s, step);
    SettledFrame(s, s', side, t);
  }

  lemma {:induction false} SettledForever<V(!new)>(c: Config, trace: seq<State<V>>, i: nat, j: nat, side: Side, t: nat)
    requires Run(c, trace) && i <= j < |trace|
    requires HasEpochs(trace[i]) && Settled(trace[i], side, t)
    ensures HasEpochs(trace[j]) && Settled(trace[j], side, t)
    ensures Serving(trace[j].q.epochs, t) == Serving(trace[i].q.epochs, t)
    decreases j
  {
    if i < j {
      SettledForever(c, trace, i, j - 1, side, t);
      assert StepAt(c, trace, j - 1);
      SettledStep(c, trace[j - 1], trace[j], side, t);
    }
  }

  /** A resolved thread holds the description of the array serving its ticket, and the ticket is settled. */
  lemma ResolvedIsServing<V(!new)>(c: Config, trace: seq<State<V>>, i: nat, tid: nat)
    requires Run(c, trace) && i < |trace|
    requires tid in trace[i].threads && trace[i].threads[tid].pc.Resolved?
    ensures var th := trace[i].threads[tid];
            && HasEpochs(trace[i]) && Settled(trace[i], SideOf(th.role), th.ticket)
            && Serving(trace[i].q.epochs, th.ticket) == (th.pc.arr, th.pc.epoch)
            && th.pc.epoch.cap > 0 && th.pc.epoch.offset <= th.ticket
  {
    RunInv(c, trace, i);
    assert ThreadInv(trace[i].q.epochs, trace[i].phase, |trace[i].q.pushes|, |trace[i].q.pops|, trace[i].threads[tid]);
  }

  /**
   Any two operations, at any two instants of a run, that resolve the same ticket get the same
   array, capacity, stride and offset, hence the same slot and turn, whichever states they read.
   */
  lemma ResolutionsAgree<V(!new)>(c: Config, trace: seq<State<V>>, i: nat, a: nat, j: nat, b: nat)
    requires Run(c, trace) && i <= j < |trace|
    requires a in trace[i].threads && trace[i].threads[a].pc.Resolved?
    requires b in trace[j].threads && trace[j].threads[b].pc.Resolved?
    requires trace[i].threads[a].ticket == trace[j].threads[b].ticket
    ensures var x, y := trace[i].threads[a], trace[j].threads[b];
            && x.pc.arr == y.pc.arr && x.pc.epoch == y.pc.epoch
            && x.pc.epoch.cap > 0 && x.pc.epoch.offset <= x.ticket
            && WorkPlace(x) == WorkPlace(y)
  {
    ResolvedIsServing(c, trace, i, a);
    ResolvedIsServing(c, trace, j, b);
    SettledForever(c, trace, i, j, SideOf(trace[i].threads[a].role), trace[i].threads[a].ticket);
  }

  /** The dynamic queue is the same plain queue: expansions are invisible to it. */
  lemma RunRefinesFifo<V(!new)>(c: Config, trace: seq<State<V>>, i: nat)
    requires Run(c, trace) && i < |trace|
    ensures Abstract(trace[0].q) == Fifo([], [])
    ensures i + 1 < |trace| ==> FifoMove(Abstract(trace[i].q), Abstract(trace[i + 1].q))
    ensures AgreesWithFifo(trace[i].q)
  {
    RunAgrees(c, trace, i);
    if i + 1 < |trace| {
      assert StepAt(c, trace, i);
      var step :| Legal(c, trace[i], step) && trace[i + 1] == Apply(c, trace[i], step);
      StepMoves(c, trace[i], step);
    }
  }

  lemma RunAgrees<V(!new)>(c: Config, trace: seq<State<V>>, i: nat)
    requires Run(c, trace) && i < |trace|
    ensures AgreesWithFifo(trace[i].q)
  {
    RunInv(c, trace, i);
    SlotInvAgrees(trace[i].q);
  }

  lemma StepMoves<V(!new)>(c: Config, s: State<V>, step: Step<V>)
    requires Enabled(c, s, step)
    ensures FifoMove(Abstract(s.q), Abstract(Apply(c, s, step).q))
  {
    match step
    case Begin(_, role, kind) => IssueMoves(s.q, role, kind);
    case Commit(tid) => IssueMoves(s.q, s.threads[tid].role, s.threads[tid].kind);
    case Work(tid) =>
      var th := s.threads[tid];
      AdvanceRefines(s.q, SideOf(th.role), th.ticket, WorkPlace(th));
    case _ => assert Apply(c, s, step).q.pushes == s.q.pushes && Apply(c, s, step).q.pops == s.q.pops;
  }

  lemma IssueMoves<V(!new)>(q: Queue<V>, role: Role<V>, kind: Kind)
    ensures FifoMove(Abstract(q), Abstract(Issue(q, role, kind)))
  {
    match role
    case Writer(v) => PushMoves(q, v, kind);
    case Reader => PopMoves(q, kind);
  }

  // Bookkeeping of expansions

  /** Offsets and capacities of the arrays strictly increase, and closed_ lists all but the last. */
  lemma ClosedArraysIncrease<V(!new)>(c: Config, trace: seq<State<V>>, k: nat, i: nat, j: nat)
    requires Run(c, trace) && k < |trace| && i < j < |trace[k].q.epochs|
    ensures var epochs := trace[k].q.epochs;
            && epochs[i].offset < epochs[j].offset && epochs[i].cap < epochs[j].cap <= c.capacity
            && |trace[k].closed| == Expansions(c.minCapacity, c.capacity, c.mult)
            && j <= |trace[k].closed| && j <= MAX_CLOSED && trace[k].closed[i] == EntryOf(epochs, i)
  {
    RunInv(c, trace, k);
    ClosedLength(c, trace, k);
  }

  lemma {:induction false} ClosedLength<V(!new)>(c: Config, trace: seq<State<V>>, k: nat)
    requires Run(c, trace) && k < |trace|
    ensures |trace[k].closed| == Expansions(c.minCapacity, c.capacity, c.mult)
  {
    if k > 0 {
      ClosedLength(c, trace, k - 1);
      assert StepAt(c, trace, k - 1);
    }
  }

  /** With safe constructor arguments the restriction to legal steps restricts nothing. */
  lemma SafeMeansLegal<V(!new)>(c: Config, trace: seq<State<V>>, k: nat, step: Step<V>)
    requires Run(c, trace) && k < |trace| && AlwaysDecodes(c) && Enabled(c, trace[k], step)
    ensures Legal(c, trace[k], step)
  {
    RunInv(c, trace, k);
    ClosedLength(c, trace, k);
  }

  /**
   The asserts of tryExpand and maybeUpdateFromClosed hold in every run: whoever takes the seqlock
   passes the current capacity, closed_ is indexed inside its bound, the search finds an entry.
   */
  lemma AssertsHold<V(!new)>(c: Config, trace: seq<State<V>>, k: nat, tid: nat)
    requires Run(c, trace) && k < |trace| && tid in trace[k].threads
    ensures Enabled(c, trace[k], Lock(tid)) ==>
              && trace[k].threads[tid].pc.epoch.cap == trace[k].dcapacity
              && trace[k].dstate % 2 == 0
              && GetNumClosed(trace[k].dstate) < |trace[k].closed|
    ensures !trace[k].phase.Unlocked? ==> OwnerOk(trace[k])
    ensures trace[k].threads[tid].pc.Validated? ==>
              Resolve(trace[k].closed, trace[k].threads[tid].ticket, trace[k].threads[tid].pc).Some?
  {
    RunInv(c, trace, k);
    var s := trace[k];
    StateDecodes(c, s);
    if Enabled(c, s, Lock(tid)) {
      LockStepInv(c, s, Lock(tid));
      OwnerIsOk(c, Apply(c, s, Lock(tid)));
    }
    if !s.phase.Unlocked? {
      OwnerIsOk(c, s);
    }
    if s.threads[tid].pc.Validated? {
      ResolveIsEpochOf(c, s, tid);
    }
  }

  /** The test cap == curCap tells exactly whether the ticket belongs to the array whose section was read. */
  lemma SameCapacityMeansCurrent<V(!new)>(c: Config, trace: seq<State<V>>, k: nat, tid: nat)
    requires Run(c, trace) && k < |trace| && tid in trace[k].threads && trace[k].threads[tid].pc.Validated?
    ensures var th := trace[k].threads[tid];
            var r := Resolve(trace[k].closed, th.ticket, th.pc);
            && r.Some? && r.value.Resolved?
            && (r.value.epoch.cap == th.pc.cap <==> th.ticket >= GetOffset(th.pc.st))
  {
    RunInv(c, trace, k);
    var s := trace[k];
    var th := s.threads[tid];
    ResolveIsEpochOf(c, s, tid);
    assert ThreadInv(s.q.epochs, s.phase, |s.q.pushes|, |s.q.pops|, th);
    var m := GetNumClosed(th.pc.st);
    PackDecodes(s.q.epochs[m].offset, m);
    if th.ticket >= s.q.epochs[m].offset {
      EpochIs(s.q.epochs, th.ticket, m);
    } else {
      assert EpochOf(s.q.epochs, th.ticket) < m;
    }
  }
}
