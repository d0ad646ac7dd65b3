/**
 What the ready-ticket functions of the dynamic queue learn from testing a slot, with expansions and
 other operations going on between the reads.
 */
module DynamicTickets {
  import opened Wrappers
  import opened Stride
  import opened Slots
  import opened DynamicQueue
  import opened DynamicRuns
  import opened DynamicOffsets

  /** The slot of ticket t, in the array that serves it, is at the ticket's turn. */
  ghost predicate ReadyFor<V>(s: State<V>, side: Side, t: nat) {
    ValidMemory(s.q) && IsTurn(s.q, side, Locate(s.q.epochs, t))
  }

  /** The slot of the next ticket is ready. */
  ghost predicate NextReady<V>(s: State<V>, side: Side) {
    ReadyFor(s, side, Count(s.q, side))
  }

  // A ready slot waits for its operation

  /** A slot at the turn of one ticket and side admits no other operation. */
  lemma WorkElsewhere<V>(q: Queue<V>, side0: Side, t0: nat, side: Side, t: nat)
    requires SlotInv(q) && CanAdvance(q, side0, t0, Locate(q.epochs, t0))
    requires IsTurn(q, side, Locate(q.epochs, t)) && !(side == side0 && t == t0)
    ensures !SameSlot(Locate(q.epochs, t0), Locate(q.epochs, t))
  {
    assert TicketInv(q, t0);
    if SameSlot(Locate(q.epochs, t0), Locate(q.epochs, t)) {
      SameTurn(side0, Locate(q.epochs, t0).turn, side, Locate(q.epochs, t).turn);
      LocateInjective(q.epochs, t0, t);
    }
  }

  predicate SameSlot(loc0: Location, loc: Location) {
    loc0.arr == loc.arr && loc0.index == loc.index
  }

  lemma SameTurn(side0: Side, turn0: nat, side: Side, turn: nat)
    ensures TurnFor(side0, turn0) == TurnFor(side, turn) ==> side0 == side && turn0 == turn
  {
  }

  lemma AdvanceKeepsTurn<V>(q: Queue<V>, side0: Side, t0: nat, loc0: Location, side: Side, loc: Location)
    requires CanAdvance(q, side0, t0, loc0) && IsTurn(q, side, loc) && !SameSlot(loc0, loc)
    ensures IsTurn(Advance(q, side0, t0, loc0), side, loc)
    ensures Touched(Advance(q, side0, t0, loc0), side0, t0)
  {
  }

  lemma ReadyHeldWork<V>(c: Config, s: State<V>, step: Step<V>, side: Side, t: nat)
    requires Inv(c, s) && step.Work? && Enabled(c, s, step)
    requires ReadyFor(s, side, t) && !Touched(Apply(c, s, step).q, side, t)
    ensures IsTurn(Apply(c, s, step).q, side, Locate(s.q.epochs, t))
  {
    var th := s.threads[step.tid];
    WorkPlaceIsLocate(c, s, step.tid);
    WorkTouches(c, s, step);
    WorkElsewhere(s.q, SideOf(th.role), th.ticket, side, t);
    AdvanceKeepsTurn(s.q, SideOf(th.role), th.ticket, WorkPlace(th), side, Locate(s.q.epochs, t));
  }

  lemma WorkTouches<V>(c: Config, s: State<V>, step: Step<V>)
    requires step.Work? && Enabled(c, s, step)
    ensures Touched(Apply(c, s, step).q, SideOf(s.threads[step.tid].role), s.threads[step.tid].ticket)
  {
  }

  /** Other steps leave the slots as they are, or add an array. */
  lemma ReadyHeldElse<V>(c: Config, s: State<V>, step: Step<V>, loc: Location, side: Side)
    requires Enabled(c, s, step) && !step.Work? && IsTurn(s.q, side, loc)
    ensures IsTurn(Apply(c, s, step).q, side, loc)
  {
  }

  function StepsToGo(stage: Stage): nat {
    match stage case Issued => 3 case Entered => 2 case Moved => 1 case Done => 0
  }

  /** Operations stay, and only get on. */
  ghost predicate StagesGrow<V>(q: Queue<V>, q': Queue<V>) {
    forall side, t: nat :: HasTicket(q, side, t) ==>
                             HasTicket(q', side, t) && StepsToGo(StageOf(q', side, t)) <= StepsToGo(StageOf(q, side, t))
  }

  lemma AdvanceGrows<V>(q: Queue<V>, side: Side, t: nat, loc: Location)
    requires CanAdvance(q, side, t, loc)
    ensures StagesGrow(q, Advance(q, side, t, loc))
  {
  }

  lemma IssueGrows<V>(q: Queue<V>, role: Role<V>, kind: Kind)
    ensures StagesGrow(q, Issue(q, role, kind))
  {
  }

  lemma StepStagesGrow<V>(c: Config, s: State<V>, step: Step<V>)
    requires Enabled(c, s, step)
    ensures StagesGrow(s.q, Apply(c, s, step).q)
  {
    match step
    case Begin(_, role, kind) => IssueGrows(s.q, role, kind);
    case Commit(tid) => IssueGrows(s.q, s.threads[tid].role, s.threads[tid].kind);
    case Work(tid) =>
      var th := s.threads[tid];
      AdvanceGrows(s.q, SideOf(th.role), th.ticket, WorkPlace(th));
    case _ => assert Apply(c, s, step).q.pushes == s.q.pushes && Apply(c, s, step).q.pops == s.q.pops;
  }

  lemma NextStagesGrow<V(!new)>(c: Config, s: State<V>, s': State<V>)
    requires Next(c, s, s')
    ensures StagesGrow(s.q, s'.q)
  {
    var step :| Legal(c, s, step) && s' == Apply(c, s, step);
    StepStagesGrow(c, s, step);
  }

  lemma ServingIsLocate(epochs: seq<Epoch>, epochs': seq<Epoch>, t: nat)
    requires ValidEpochs(epochs) && ValidEpochs(epochs') && Serving(epochs, t) == Serving(epochs', t)
    ensures Locate(epochs, t) == Locate(epochs', t)
  {
  }

  lemma ReadyHeldStep<V(!new)>(c: Config, s: State<V>, s': State<V>, side: Side, t: nat)
    requires Inv(c, s) && Inv(c, s') && Next(c, s, s') && Settled(s, side, t)
    requires ReadyFor(s, side, t) && !Touched(s'.q, side, t)
    ensures ReadyFor(s', side, t) && Settled(s', side, t)
  {
    SettledStep(c, s, s', side, t);
    ServingIsLocate(s.q.epochs, s'.q.epochs, t);
    ReadyHeldNext(c, s, s', side, t);
  }

  lemma ReadyHeldNext<V(!new)>(c: Config, s: State<V>, s': State<V>, side: Side, t: nat)
    requires Inv(c, s) && Next(c, s, s') && ReadyFor(s, side, t) && !Touched(s'.q, side, t)
    ensures IsTurn(s'.q, side, Locate(s.q.epochs, t))
  {
    var step :| Legal(c, s, step) && s' == Apply(c, s, step);
    if step.Work? {
      ReadyHeldWork(c, s, step, side, t);
    } else {
      ReadyHeldElse(c, s, step, Locate(s.q.epochs, t), side);
    }
  }

  lemma UntouchedBefore<V(!new)>(c: Config, trace: seq<State<V>>, i: nat, j: nat, side: Side, t: nat)
    requires Run(c, trace) && i <= j < |trace| && !Touched(trace[j].q, side, t)
    ensures !Touched(trace[i].q, side, t)
  {
    var k := j;
    while k > i
      invariant i <= k <= j && !Touched(trace[k].q, side, t)
    {
      assert StepAt(c, trace, k - 1);
      UntouchedBack(c, trace[k - 1], trace[k], side, t);
      k := k - 1;
    }
  }

  lemma UntouchedBack<V(!new)>(c: Config, s: State<V>, s': State<V>, side: Side, t: nat)
    requires Next(c, s, s') && !Touched(s'.q, side, t)
    ensures !Touched(s.q, side, t)
  {
    NextStagesGrow(c, s, s');
  }

  ghost predicate HeldAt<V>(c: Config, trace: seq<State<V>>, k: nat, side: Side, t: nat) {
    k < |trace| && Inv(c, trace[k]) && ReadyFor(trace[k], side, t) && Settled(trace[k], side, t)
  }

  lemma HeldNext<V(!new)>(c: Config, trace: seq<State<V>>, k: nat, side: Side, t: nat)
    requires k + 1 < |trace| && StepAt(c, trace, k) && HeldAt(c, trace, k, side, t)
    requires Inv(c, trace[k + 1]) && !Touched(trace[k + 1].q, side, t)
    ensures HeldAt(c, trace, k + 1, side, t)
  {
    ReadyHeldStep(c, trace[k], trace[k + 1], side, t);
  }

  /** A slot found ready for a resolved ticket stays ready, over expansions, until that operation enters it. */
  lemma ReadyHeld<V(!new)>(c: Config, trace: seq<State<V>>, i: nat, j: nat, side: Side, t: nat)
    requires Run(c, trace) && i <= j < |trace|
    requires HeldAt(c, trace, i, side, t) && !Touched(trace[j].q, side, t)
    ensures HeldAt(c, trace, j, side, t)
  {
    var k := i;
    while k < j
      invariant i <= k <= j && HeldAt(c, trace, k, side, t)
    {
      assert StepAt(c, trace, k);
      RunInv(c, trace, k + 1);
      UntouchedBefore(c, trace, k + 1, j, side, t);
      HeldNext(c, trace, k, side, t);
      k := k + 1;
    }
  }

  /** Past its turn wait an operation is never held up. */
  lemma StartedNeverBlocks<V>(c: Config, s: State<V>, tid: nat)
    requires Inv(c, s) && tid in s.threads && s.threads[tid].pc.Resolved?
    ensures var th := s.threads[tid];
            && th.pc.epoch.cap > 0 && th.pc.epoch.offset <= th.ticket
            && (Busy(s.q, SideOf(th.role), th.ticket) ==> CanAdvance(s.q, SideOf(th.role), th.ticket, WorkPlace(th)))
  {
    WorkPlaceIsLocate(c, s, tid);
    assert TicketInv(s.q, s.threads[tid].ticket);
  }

  /**
   Ready tickets never block in the dynamic queue either: once a thread has found the slot of its
   ticket ready, whoever holds that ticket can take its next step at every later instant until done.
   */
  lemma ReadyTicketNeverBlocks<V(!new)>(c: Config, trace: seq<State<V>>, i: nat, a: nat, j: nat, b: nat)
    requires Run(c, trace) && i <= j < |trace|
    requires a in trace[i].threads && trace[i].threads[a].pc.Resolved?
    requires trace[i].threads[a].pc.epoch.cap > 0 && trace[i].threads[a].pc.epoch.offset <= trace[i].threads[a].ticket
    requires IsTurn(trace[i].q, SideOf(trace[i].threads[a].role), WorkPlace(trace[i].threads[a]))
    requires b in trace[j].threads && trace[j].threads[b].pc.Resolved? && trace[j].threads[b].issued
    requires trace[j].threads[b].ticket == trace[i].threads[a].ticket
    requires SideOf(trace[j].threads[b].role) == SideOf(trace[i].threads[a].role)
    requires !AtStage(trace[j].q, SideOf(trace[j].threads[b].role), trace[j].threads[b].ticket, Done)
    ensures var th := trace[j].threads[b];
            && th.pc.epoch.cap > 0 && th.pc.epoch.offset <= th.ticket
            && CanAdvance(trace[j].q, SideOf(th.role), th.ticket, WorkPlace(th))
  {
    var side, t := SideOf(trace[i].threads[a].role), trace[i].threads[a].ticket;
    FoundReady(c, trace, i, a);
    RunInv(c, trace, j);
    StartedNeverBlocks(c, trace[j], b);
    HolderHasTicket(c, trace[j], b);
    if !Touched(trace[j].q, side, t) {
      ReadyHeld(c, trace, i, j, side, t);
      WorkPlaceIsLocate(c, trace[j], b);
    }
  }

  lemma FoundReady<V(!new)>(c: Config, trace: seq<State<V>>, i: nat, a: nat)
    requires Run(c, trace) && i < |trace| && a in trace[i].threads && trace[i].threads[a].pc.Resolved?
    requires trace[i].threads[a].pc.epoch.cap > 0 && trace[i].threads[a].pc.epoch.offset <= trace[i].threads[a].ticket
    requires IsTurn(trace[i].q, SideOf(trace[i].threads[a].role), WorkPlace(trace[i].threads[a]))
    ensures HeldAt(c, trace, i, SideOf(trace[i].threads[a].role), trace[i].threads[a].ticket)
  {
    RunInv(c, trace, i);
    WorkPlaceIsLocate(c, trace[i], a);
    ResolvedIsServing(c, trace, i, a);
  }

  lemma HolderHasTicket<V>(c: Config, s: State<V>, tid: nat)
    requires Inv(c, s) && tid in s.threads && s.threads[tid].issued
    ensures HasTicket(s.q, SideOf(s.threads[tid].role), s.threads[tid].ticket)
  {
    assert ThreadInv(s.q.epochs, s.phase, |s.q.pushes|, |s.q.pops|, s.threads[tid]);
  }

  // One holder for each ticket

  /** No two threads hold the same push ticket, or the same pop ticket. */
  ghost predicate HoldersApart<V>(s: State<V>) {
    forall a, b :: a in s.threads && b in s.threads && a != b
                   && s.threads[a].issued && s.threads[b].issued && SideOf(s.threads[a].role) == SideOf(s.threads[b].role)
                   ==> s.threads[a].ticket != s.threads[b].ticket
  }

  /** What a step does to a thread's ticket: nothing, once it is issued; a new one is the next of its side. */
  ghost predicate TicketKept<V>(s: State<V>, s': State<V>, tid: nat)
    requires tid in s'.threads
  {
    var th := s'.threads[tid];
    th.issued ==>
      || (tid in s.threads && s.threads[tid].issued && s.threads[tid].ticket == th.ticket && s.threads[tid].role == th.role)
      || (th.ticket == Count(s.q, SideOf(th.role)) && Count(s'.q, SideOf(th.role)) == th.ticket + 1)
  }

  lemma StepTicketKept<V>(c: Config, s: State<V>, step: Step<V>, tid: nat)
    requires Enabled(c, s, step) && tid in Apply(c, s, step).threads
    ensures TicketKept(s, Apply(c, s, step), tid)
    ensures tid in s.threads && s.threads[tid].issued ==> Apply(c, s, step).threads[tid].issued
  {
  }

  /** Only one thread gets a ticket in one step. */
  lemma OneIssued<V>(c: Config, s: State<V>, step: Step<V>, a: nat, b: nat)
    requires Enabled(c, s, step) && a in Apply(c, s, step).threads && b in Apply(c, s, step).threads && a != b
    ensures var s' := Apply(c, s, step);
            (a in s.threads && s'.threads[a].issued == s.threads[a].issued)
            || (b in s.threads && s'.threads[b].issued == s.threads[b].issued)
  {
  }

  lemma StepHoldersApart<V>(c: Config, s: State<V>, step: Step<V>)
    requires Inv(c, s) && HoldersApart(s) && Enabled(c, s, step)
    ensures HoldersApart(Apply(c, s, step))
  {
    var s' := Apply(c, s, step);
    forall a, b | a in s'.threads && b in s'.threads && a != b && s'.threads[a].issued && s'.threads[b].issued
                  && SideOf(s'.threads[a].role) == SideOf(s'.threads[b].role)
      ensures s'.threads[a].ticket != s'.threads[b].ticket
    {
      StepTicketKept(c, s, step, a);
      StepTicketKept(c, s, step, b);
      OneIssued(c, s, step, a, b);
      HeldBelow(c, s, a);
      HeldBelow(c, s, b);
    }
  }

  lemma HeldBelow<V>(c: Config, s: State<V>, tid: nat)
    requires Inv(c, s)
    ensures tid in s.threads && s.threads[tid].issued ==> s.threads[tid].ticket < Count(s.q, SideOf(s.threads[tid].role))
  {
    if tid in s.threads {
      assert ThreadInv(s.q.epochs, s.phase, |s.q.pushes|, |s.q.pops|, s.threads[tid]);
    }
  }

  lemma NextHoldersApart<V(!new)>(c: Config, s: State<V>, s': State<V>)
    requires Inv(c, s) && HoldersApart(s) && Next(c, s, s')
    ensures HoldersApart(s')
  {
    var step :| Legal(c, s, step) && s' == Apply(c, s, step);
    StepHoldersApart(c, s, step);
  }

  /** In every run each ticket has one holder, so each element is delivered by one operation only. */
  lemma RunHoldersApart<V(!new)>(c: Config, trace: seq<State<V>>, i: nat)
    requires Run(c, trace) && i < |trace|
    ensures HoldersApart(trace[i])
  {
    var j := 0;
    while j < i
      invariant j <= i && HoldersApart(trace[j])
    {
      RunInv(c, trace, j);
      assert StepAt(c, trace, j);
      NextHoldersApart(c, trace[j], trace[j + 1]);
      j := j + 1;
    }
  }

  /** A thread whose peeked ticket is still the next one obtains it: the exchange succeeds. */
  lemma UnchangedIsObtained<V>(c: Config, s: State<V>, tid: nat)
    requires Inv(c, s) && Running(s, tid) && s.threads[tid].pc.Resolved? && !s.threads[tid].issued
    requires s.threads[tid].ticket == Count(s.q, SideOf(s.threads[tid].role))
    ensures Enabled(c, s, Step<V>.Commit(tid))
    ensures var th := s.threads[tid];
            var q' := Apply(c, s, Commit(tid)).q;
            && Count(q', SideOf(th.role)) == th.ticket + 1 && AtStage(q', SideOf(th.role), th.ticket, Issued)
            && (th.role.Writer? ==> q'.pushes[th.ticket].value == th.role.value)
            && q'.mem == s.q.mem
  {
  }

  // When a false return is right

  /**
   At instant j the test of the slot fails; if the ticket counter, read again at a later instant l,
   is still the thread's ticket, then the slot of the next ticket was not ready at j. That is the
   second read tryObtainReadyPushTicket makes, and tryObtainReadyPopTicket does not.
   */
  lemma UnchangedFalseIsRight<V(!new)>(c: Config, trace: seq<State<V>>, j: nat, l: nat, tid: nat)
    requires Run(c, trace) && j <= l < |trace| && tid in trace[j].threads && trace[j].threads[tid].pc.Resolved?
    requires FailsTest(trace[j], tid)
    requires Count(trace[l].q, SideOf(trace[j].threads[tid].role)) == trace[j].threads[tid].ticket
    ensures !NextReady(trace[j], SideOf(trace[j].threads[tid].role))
  {
    var th := trace[j].threads[tid];
    RunInv(c, trace, j);
    CountsGrow(c, trace, j, l, SideOf(th.role));
    assert ThreadInv(trace[j].q.epochs, trace[j].phase, |trace[j].q.pushes|, |trace[j].q.pops|, th);
    WorkPlaceIsLocate(c, trace[j], tid);
  }

  /** mayEnqueue or mayDequeue says no. */
  ghost predicate FailsTest<V>(s: State<V>, tid: nat)
    requires tid in s.threads && s.threads[tid].pc.Resolved?
  {
    var th := s.threads[tid];
    th.pc.epoch.cap > 0 && th.pc.epoch.offset <= th.ticket && !IsTurn(s.q, SideOf(th.role), WorkPlace(th))
  }

  // A run in which a false return is wrong

  /** A slot is ready for a push until the push is done, in the first lap, and for a pop from then until the pop is done. */
  lemma PopReady<V>(c: Config, s: State<V>, t: nat)
    requires Inv(c, s) && AtStage(s.q, PushSide, t, Done)
    ensures ReadyFor(s, PopSide, t) <==> !AtStage(s.q, PopSide, t, Done)
  {
    assert TicketInv(s.q, t);
  }

  lemma FirstLapReady<V>(c: Config, s: State<V>, t: nat)
    requires Inv(c, s) && |s.q.epochs| == 1 && t < s.q.epochs[0].cap && !AtStage(s.q, PushSide, t, Done)
    ensures ReadyFor(s, PushSide, t)
  {
    assert TicketInv(s.q, t);
    assert EpochOf(s.q.epochs, t) == 0;
    FirstTurn(t, s.q.epochs[0].cap);
  }

  lemma FirstTurn(t: nat, cap: nat)
    requires t < cap
    ensures Turn(t, cap) == 0
  {
  }

  ghost predicate KeepsThreads<V>(s: State<V>, s': State<V>) {
    forall d :: d in s.threads ==> d in s'.threads && s'.threads[d] == s.threads[d]
  }

  /** Thread tid is at work with a ticket of its own. */
  ghost predicate Working<V>(c: Config, s: State<V>, tid: nat, side: Side, t: nat) {
    && Inv(c, s) && s.phase.Unlocked? && tid in s.threads && s.threads[tid].issued && s.threads[tid].pc.Resolved?
    && SideOf(s.threads[tid].role) == side && s.threads[tid].ticket == t
  }

  /** Only the stage of this operation and its slot change. */
  ghost predicate OnlyWorks<V>(s: State<V>, s': State<V>, side: Side, t: nat) {
    && s'.threads == s.threads && s'.q.epochs == s.q.epochs && s'.phase == s.phase
    && |s'.q.pushes| == |s.q.pushes| && |s'.q.pops| == |s.q.pops|
    && forall side', t': nat :: HasTicket(s.q, side', t') && !(side' == side && t' == t) ==>
                                  StageOf(s'.q, side', t') == StageOf(s.q, side', t')
  }

  lemma WorkMoves<V>(c: Config, s: State<V>, tid: nat, side: Side, t: nat)
    requires Working(c, s, tid, side, t) && Enabled(c, s, Work(tid))
    ensures var s' := Apply(c, s, Work(tid));
            && OnlyWorks(s, s', side, t) && HasTicket(s.q, side, t) && HasTicket(s'.q, side, t)
            && StageOf(s.q, side, t) == (match StageOf(s'.q, side, t) case Entered => Issued case Moved => Entered case _ => Moved)
            && StageOf(s'.q, side, t) != Issued
  {
  }

  lemma WorkOnce<V(!new)>(c: Config, s: State<V>, tid: nat, side: Side, t: nat)
    returns (path: seq<State<V>>, s': State<V>)
    requires Working(c, s, tid, side, t) && HasTicket(s.q, side, t) && StageOf(s.q, side, t) != Done
    requires StageOf(s.q, side, t) == Issued ==> ReadyFor(s, side, t)
    ensures Leads(c, s, path, s') && |path| == 2 && Working(c, s', tid, side, t) && OnlyWorks(s, s', side, t)
    ensures HasTicket(s'.q, side, t) && StageOf(s'.q, side, t) != Issued
    ensures StepsToGo(StageOf(s'.q, side, t)) < StepsToGo(StageOf(s.q, side, t))
  {
    StartedNeverBlocks(c, s, tid);
    WorkPlaceIsLocate(c, s, tid);
    WorkMoves(c, s, tid, side, t);
    StepInv(c, s, Work(tid));
    path := PathOne(c, s, Step<V>.Work(tid));
    s' := Apply(c, s, Work(tid));
  }

  lemma WorkPath<V(!new)>(c: Config, s: State<V>, tid: nat, side: Side, t: nat)
    returns (path: seq<State<V>>, s': State<V>)
    requires Working(c, s, tid, side, t) && HasTicket(s.q, side, t) && ReadyFor(s, side, t)
    ensures Leads(c, s, path, s') && Working(c, s', tid, side, t) && OnlyWorks(s, s', side, t)
    ensures AtStage(s'.q, side, t, Done) && forall k :: 0 <= k < |path| ==> path[k].threads == s.threads
  {
    path, s' := [s], s;
    while StageOf(s'.q, side, t) != Done
      invariant Leads(c, s, path, s') && Working(c, s', tid, side, t) && OnlyWorks(s, s', side, t)
      invariant HasTicket(s'.q, side, t) && (StageOf(s'.q, side, t) == Issued ==> ReadyFor(s', side, t))
      invariant forall k :: 0 <= k < |path| ==> path[k].threads == s.threads
      decreases StepsToGo(StageOf(s'.q, side, t))
    {
      var more, next := WorkOnce(c, s', tid, side, t);
      path := Join(c, s, path, s', more, next);
      s' := next;
    }
  }

  /** A new thread obtains a ticket, resolves it, and finishes its operation at a slot that is ready. */
  ghost predicate Operated<V>(s: State<V>, s': State<V>, tid: nat, role: Role<V>) {
    var side, t := SideOf(role), Count(s.q, SideOf(role));
    && s'.q.epochs == s.q.epochs && s'.phase.Unlocked? && s'.threads.Keys == s.threads.Keys + {tid}
    && Count(s'.q, side) == t + 1 && AtStage(s'.q, side, t, Done)
    && (forall other :: other != side ==> Count(s'.q, other) == Count(s.q, other))
    && (forall side', t': nat :: AtStage(s.q, side', t', Done) ==> AtStage(s'.q, side', t', Done))
  }

  lemma BeginOperation<V(!new)>(c: Config, s: State<V>, tid: nat, role: Role<V>)
    returns (path: seq<State<V>>, s': State<V>)
    requires Inv(c, s) && s.phase.Unlocked? && tid !in s.threads && NextReady(s, SideOf(role))
    ensures Leads(c, s, path, s') && s'.phase.Unlocked? && path == [s, s']
    ensures s' == s.(q := Issue(s.q, role, Blocking), threads := s.threads[tid := Thread(role, Blocking, Count(s.q, SideOf(role)), true, Start)])
    ensures s'.q.epochs == s.q.epochs && s'.q.mem == s.q.mem
  {
    path := PathOne(c, s, Begin(tid, role, Blocking));
    s' := Apply(c, s, Begin(tid, role, Blocking));
  }

  lemma ResolvedOperation<V(!new)>(c: Config, s: State<V>, tid: nat, role: Role<V>)
    returns (path: seq<State<V>>, s': State<V>)
    requires Inv(c, s) && s.phase.Unlocked? && tid !in s.threads && NextReady(s, SideOf(role))
    ensures Leads(c, s, path, s') && Working(c, s', tid, SideOf(role), Count(s.q, SideOf(role)))
    ensures s'.q == Issue(s.q, role, Blocking) && s'.threads.Keys == s.threads.Keys + {tid}
    ensures ReadyFor(s', SideOf(role), Count(s.q, SideOf(role))) && KeepsThreads(s, s')
    ensures forall k :: 0 <= k < |path| ==> KeepsThreads(s, path[k])
  {
    var p1, s1 := BeginOperation(c, s, tid, role);
    LeadsInv(c, s, p1, s1);
    var p2 := SectionPath(c, s1, tid);
    s' := SetPc(s1, tid, ResolvedPc(s1, tid));
    OthersKept(s, s1, tid, p2);
    path := Join(c, s, p1, s1, p2, s');
    ConcatAll(p1, p2, x => KeepsThreads(s, x));
  }

  lemma OthersKept<V>(s: State<V>, s1: State<V>, tid: nat, path: seq<State<V>>)
    requires KeepsThreads(s, s1) && tid !in s.threads && tid in s1.threads
    requires forall k :: 0 <= k < |path| ==> OnlyPc(s1, tid, path[k])
    ensures forall k :: 0 <= k < |path| ==> KeepsThreads(s, path[k])
  {
    forall k | 0 <= k < |path| ensures KeepsThreads(s, path[k]) {
      assert OnlyPc(s1, tid, path[k]);
    }
  }

  lemma ConcatAll<S>(p: seq<S>, r: seq<S>, P: S -> bool)
    requires r != [] && (forall k :: 0 <= k < |p| ==> P(p[k])) && (forall k :: 0 <= k < |r| ==> P(r[k]))
    ensures forall k :: 0 <= k < |p + r[1..]| ==> P((p + r[1..])[k])
  {
  }

  lemma OperationPath<V(!new)>(c: Config, s: State<V>, tid: nat, role: Role<V>)
    returns (path: seq<State<V>>, s': State<V>)
    requires Inv(c, s) && s.phase.Unlocked? && tid !in s.threads && NextReady(s, SideOf(role))
    ensures Leads(c, s, path, s') && Operated(s, s', tid, role) && KeepsThreads(s, s')
    ensures forall k :: 0 <= k < |path| ==> KeepsThreads(s, path[k])
  {
    var p1, s1 := ResolvedOperation(c, s, tid, role);
    var p2, s2 := WorkPath(c, s1, tid, SideOf(role), Count(s.q, SideOf(role)));
    path := Join(c, s, p1, s1, p2, s2);
    s' := s2;
    OperatedStages(s, tid, role, s1, s2);
    ConcatAll(p1, p2, x => KeepsThreads(s, x));
  }

  lemma OperatedStages<V>(s: State<V>, tid: nat, role: Role<V>, s2: State<V>, s': State<V>)
    requires s2.q == Issue(s.q, role, Blocking) && OnlyWorks(s2, s', SideOf(role), Count(s.q, SideOf(role)))
    requires s2.phase.Unlocked? && s2.threads.Keys == s.threads.Keys + {tid}
    requires AtStage(s'.q, SideOf(role), Count(s.q, SideOf(role)), Done)
    ensures Operated(s, s', tid, role)
  {
    forall side', t': nat | AtStage(s.q, side', t', Done) ensures AtStage(s'.q, side', t', Done) {
      assert AtStage(s2.q, side', t', Done);
    }
  }

  const TWO_SLOTS: Config := Config(2, 2, 2)

  /** Two elements are in the queue. */
  lemma TwoPushed<V(!new)>(v0: V, v1: V) returns (path: seq<State<V>>, s: State<V>)
    ensures Leads(TWO_SLOTS, Init(TWO_SLOTS), path, s) && s.phase.Unlocked?
    ensures AtStage(s.q, PushSide, 0, Done) && AtStage(s.q, PushSide, 1, Done) && |s.q.pops| == 0
    ensures s.threads.Keys == {0, 1}
  {
    var c, s0 := TWO_SLOTS, Init<V>(TWO_SLOTS);
    InitInv<V>(c);
    FirstLapReady(c, s0, 0);
    var p1, s1 := OperationPath(c, s0, 0, Writer(v0));
    LeadsInv(c, s0, p1, s1);
    FirstLapReady(c, s1, 1);
    var p2, s2 := OperationPath(c, s1, 1, Writer(v1));
    path := Join(c, s0, p1, s1, p2, s2);
    s := s2;
    assert {} + {0} + {1} == {0, 1};
    assert Count(s1.q, PopSide) == Count(s0.q, PopSide) && Count(s2.q, PopSide) == Count(s1.q, PopSide);
  }

  /** Thread tid is inside tryObtainReadyPopTicket, having read ticket t. */
  ghost predicate Peeking<V>(s: State<V>, tid: nat, t: nat) {
    && tid in s.threads && s.threads[tid].role.Reader? && s.threads[tid].kind == Ready
    && !s.threads[tid].issued && s.threads[tid].ticket == t
  }

  lemma PeekBegins<V(!new)>(c: Config, s: State<V>, tid: nat) returns (path: seq<State<V>>, s': State<V>)
    requires Inv(c, s) && s.phase.Unlocked? && tid !in s.threads
    ensures Leads(c, s, path, s') && |path| == 2 && Inv(c, s') && s'.phase.Unlocked?
    ensures s' == s.(threads := s.threads[tid := Thread(Reader, Ready, |s.q.pops|, false, Start)])
  {
    var step: Step<V> := Begin(tid, Reader, Ready);
    StepInv(c, s, step);
    path := PathOne(c, s, step);
    s' := Apply(c, s, step);
  }

  lemma OthersOperate<V(!new)>(s: State<V>) returns (path: seq<State<V>>, s': State<V>)
    requires Inv(TWO_SLOTS, s) && s.phase.Unlocked? && 3 !in s.threads && Peeking(s, 2, 0)
    requires AtStage(s.q, PushSide, 0, Done) && |s.q.pops| == 0
    ensures Leads(TWO_SLOTS, s, path, s') && s'.phase.Unlocked?
    ensures forall k :: 0 <= k < |path| ==> Peeking(path[k], 2, 0)
    ensures KeepsThreads(s, s') && |s'.q.pops| == 1 && AtStage(s'.q, PopSide, 0, Done)
  {
    PopReady(TWO_SLOTS, s, 0);
    path, s' := OperationPath(TWO_SLOTS, s, 3, Reader);
    forall k | 0 <= k < |path| ensures Peeking(path[k], 2, 0) {
      assert KeepsThreads(s, path[k]);
    }
  }

  lemma PeekResolves<V(!new)>(s: State<V>) returns (path: seq<State<V>>, s': State<V>)
    requires Inv(TWO_SLOTS, s) && s.phase.Unlocked? && Peeking(s, 2, 0) && s.threads[2].pc.Start?
    ensures Leads(TWO_SLOTS, s, path, s') && s'.q == s.q
    ensures 2 in s'.threads && s'.threads[2].pc.Resolved?
    ensures forall k :: 0 <= k < |path| ==> Peeking(path[k], 2, 0)
  {
    path := SectionPath(TWO_SLOTS, s, 2);
    s' := SetPc(s, 2, ResolvedPc(s, 2));
    forall k | 0 <= k < |path| ensures Peeking(path[k], 2, 0) {
      assert OnlyPc(s, 2, path[k]);
    }
  }

  /** While thread 2 is in its call thread 3 takes the element it was about to find. */
  lemma OvertakenPop<V(!new)>(s: State<V>) returns (path: seq<State<V>>, s': State<V>)
    requires Inv(TWO_SLOTS, s) && s.phase.Unlocked? && s.threads.Keys == {0, 1}
    requires AtStage(s.q, PushSide, 0, Done) && |s.q.pops| == 0
    ensures Leads(TWO_SLOTS, s, path, s') && |path| > 2
    ensures forall k :: 1 <= k < |path| ==> Peeking(path[k], 2, 0)
    ensures path[1].q == s.q
    ensures 2 in s'.threads && s'.threads[2].pc.Resolved? && |s'.q.pops| == 1 && AtStage(s'.q, PopSide, 0, Done)
  {
    var p1, s1 := PeekBegins(TWO_SLOTS, s, 2);
    var p2, s2 := OvertakenAfter(s1);
    path := Join(TWO_SLOTS, s, p1, s1, p2, s2);
    s' := s2;
    assert forall k :: 1 <= k < |path| ==> path[k] == p2[k - 1];
    assert |p2| > 1 by {
      assert p2[0] != p2[|p2| - 1];
    }
  }

  lemma OvertakenAfter<V(!new)>(s: State<V>) returns (path: seq<State<V>>, s': State<V>)
    requires Inv(TWO_SLOTS, s) && s.phase.Unlocked? && 3 !in s.threads && Peeking(s, 2, 0) && s.threads[2].pc.Start?
    requires AtStage(s.q, PushSide, 0, Done) && |s.q.pops| == 0
    ensures Leads(TWO_SLOTS, s, path, s')
    ensures forall k :: 0 <= k < |path| ==> Peeking(path[k], 2, 0)
    ensures 2 in s'.threads && s'.threads[2].pc.Resolved? && |s'.q.pops| == 1 && AtStage(s'.q, PopSide, 0, Done)
  {
    var p1, s1 := OthersOperate(s);
    LeadsInv(TWO_SLOTS, s, p1, s1);
    var p2, s2 := PeekResolves(s1);
    path := Join(TWO_SLOTS, s, p1, s1, p2, s2);
    s' := s2;
    ConcatAll(p1, p2, x => Peeking(x, 2, 0));
  }

  lemma DoneForever<V(!new)>(c: Config, trace: seq<State<V>>, i: nat, j: nat, side: Side, t: nat)
    requires Run(c, trace) && i <= j < |trace| && AtStage(trace[i].q, side, t, Done)
    ensures AtStage(trace[j].q, side, t, Done)
  {
    var k := i;
    while k < j
      invariant i <= k <= j && AtStage(trace[k].q, side, t, Done)
    {
      assert StepAt(c, trace, k);
      DoneStays(c, trace[k], trace[k + 1], side, t);
      k := k + 1;
    }
  }

  lemma DoneStays<V(!new)>(c: Config, s: State<V>, s': State<V>, side: Side, t: nat)
    requires Next(c, s, s') && AtStage(s.q, side, t, Done)
    ensures AtStage(s'.q, side, t, Done)
  {
    NextStagesGrow(c, s, s');
  }

  /**
   tryObtainReadyPopTicket of the dynamic queue may return false although the slot of the next
   ticket was ready at every instant of the call: thread tid has read its ticket when the call
   begins at i, and its test fails at j.
   */
  lemma FalsePopMayBeWrong<V(!new)>(v0: V, v1: V) returns (trace: seq<State<V>>, i: nat, j: nat, tid: nat)
    ensures Run(TWO_SLOTS, trace) && i < j < |trace|
    ensures forall k :: i <= k <= j ==> Peeking(trace[k], tid, |trace[i].q.pops|) && NextReady(trace[k], PopSide)
    ensures tid in trace[j].threads && trace[j].threads[tid].pc.Resolved? && FailsTest(trace[j], tid)
  {
    trace, i := TwoPushedOneOvertaken(v0, v1);
    j, tid := |trace| - 1, 2;
    PathIsRun(TWO_SLOTS, trace);
    ReadyFrom(trace, i - 1);
    WrongTest(trace, j);
  }

  lemma TwoPushedOneOvertaken<V(!new)>(v0: V, v1: V) returns (trace: seq<State<V>>, i: nat)
    ensures Path(TWO_SLOTS, trace) && trace[0] == Init(TWO_SLOTS) && 0 < i < |trace| - 1
    ensures AtStage(trace[i - 1].q, PushSide, 0, Done) && AtStage(trace[i - 1].q, PushSide, 1, Done)
    ensures forall k :: i <= k < |trace| ==> Peeking(trace[k], 2, |trace[i].q.pops|)
    ensures |trace[i].q.pops| == 0
    ensures var s := trace[|trace| - 1];
            2 in s.threads && s.threads[2].pc.Resolved? && |s.q.pops| == 1 && AtStage(s.q, PopSide, 0, Done)
  {
    var p1, s1 := TwoPushed(v0, v1);
    LeadsTwo(p1, s1);
    var p2, s2 := OvertakenPop(s1);
    trace := Join(TWO_SLOTS, Init(TWO_SLOTS), p1, s1, p2, s2);
    i := |p1|;
    assert trace[i - 1] == s1 && trace[i] == p2[1];
    assert forall k :: i <= k < |trace| ==> trace[k] == p2[k - |p1| + 1];
  }

  lemma LeadsTwo<V(!new)>(path: seq<State<V>>, s: State<V>)
    requires Leads(TWO_SLOTS, Init(TWO_SLOTS), path, s)
    ensures Inv(TWO_SLOTS, s)
  {
    InitInv<V>(TWO_SLOTS);
    LeadsInv(TWO_SLOTS, Init(TWO_SLOTS), path, s);
  }

  lemma ReadyFrom<V(!new)>(trace: seq<State<V>>, i: nat)
    requires Run(TWO_SLOTS, trace) && i < |trace| && |trace[|trace| - 1].q.pops| == 1
    requires AtStage(trace[i].q, PushSide, 0, Done) && AtStage(trace[i].q, PushSide, 1, Done)
    ensures forall k :: i <= k < |trace| ==> NextReady(trace[k], PopSide)
  {
    forall k | i <= k < |trace| ensures NextReady(trace[k], PopSide) {
      AlwaysReady(trace, i, k);
    }
  }

  lemma WrongTest<V(!new)>(trace: seq<State<V>>, j: nat)
    requires Run(TWO_SLOTS, trace) && j < |trace| && Peeking(trace[j], 2, 0) && trace[j].threads[2].pc.Resolved?
    requires AtStage(trace[j].q, PopSide, 0, Done)
    ensures FailsTest(trace[j], 2)
  {
    RunInv(TWO_SLOTS, trace, j);
    WorkPlaceIsLocate(TWO_SLOTS, trace[j], 2);
    assert TicketInv(trace[j].q, 0);
  }

  lemma AlwaysReady<V(!new)>(trace: seq<State<V>>, i: nat, k: nat)
    requires Run(TWO_SLOTS, trace) && i <= k < |trace| && |trace[|trace| - 1].q.pops| == 1
    requires AtStage(trace[i].q, PushSide, 0, Done) && AtStage(trace[i].q, PushSide, 1, Done)
    ensures NextReady(trace[k], PopSide)
  {
    var c := TWO_SLOTS;
    RunInv(c, trace, k);
    CountsGrow(c, trace, k, |trace| - 1, PopSide);
    DoneForever(c, trace, i, k, PushSide, 0);
    DoneForever(c, trace, i, k, PushSide, 1);
    PopReady(c, trace[k], |trace[k].q.pops|);
  }
}
