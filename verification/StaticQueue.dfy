/**
 The fixed-capacity MPMCQueue as a step system: threads obtain tickets of three kinds and then
 work at their slots, interleaved in any order.
 */
module StaticQueue {
  import opened Wrappers
  import opened Stride
  import opened Slots
  import opened Fifo

  function Init<V>(cap: nat): Queue<V>
    requires cap > 0
  {
    InitQueue(cap, StrideFor(cap))
  }

  /** All tickets of a static queue live in one array. */
  predicate IsStatic<V>(q: Queue<V>, cap: nat) {
    cap > 0 && q.epochs == [Epoch(0, cap, StrideFor(cap))]
  }

  function Place(cap: nat, t: nat): Location
    requires cap > 0
  {
    Location(0, Idx(t, cap, StrideFor(cap)), Turn(t, cap))
  }

  datatype Step<V> =
    | GetPush(v: V, kind: Kind)
    | GetPop(kind: Kind)
    | Work(side: Side, t: nat)

  /** The condition under which the ticket functions increment the ticket counter. */
  predicate MayIssue<V>(q: Queue<V>, cap: nat, side: Side, kind: Kind)
    requires cap > 0
  {
    match kind
    case Blocking => true
    case Ready => IsTurn(q, side, Place(cap, Count(q, side)))
    case Promised => if side.PushSide? then |q.pushes| - |q.pops| < cap else |q.pops| < |q.pushes|
  }

  predicate Enabled<V>(q: Queue<V>, cap: nat, step: Step<V>)
    requires cap > 0
  {
    match step
    case GetPush(_, kind) => MayIssue(q, cap, PushSide, kind)
    case GetPop(kind) => MayIssue(q, cap, PopSide, kind)
    case Work(side, t) => CanAdvance(q, side, t, Place(cap, t))
  }

  function Apply<V>(q: Queue<V>, cap: nat, step: Step<V>): Queue<V>
    requires cap > 0 && Enabled(q, cap, step)
  {
    match step
    case GetPush(v, kind) => IssuePush(q, v, kind)
    case GetPop(kind) => IssuePop(q, kind)
    case Work(side, t) => Advance(q, side, t, Place(cap, t))
  }

  ghost predicate Next<V(!new)>(q: Queue<V>, q': Queue<V>, cap: nat)
    requires cap > 0
  {
    exists step: Step<V> :: Enabled(q, cap, step) && q' == Apply(q, cap, step)
  }

  ghost predicate StepAt<V(!new)>(trace: seq<Queue<V>>, cap: nat, i: nat)
    requires cap > 0 && i + 1 < |trace|
  {
    Next(trace[i], trace[i + 1], cap)
  }

  /** Consecutive states of an interleaving. */
  ghost predicate Steps<V(!new)>(trace: seq<Queue<V>>, cap: nat)
    requires cap > 0
  {
    |trace| > 0 && forall i: nat :: i + 1 < |trace| ==> StepAt(trace, cap, i)
  }

  ghost predicate Run<V(!new)>(trace: seq<Queue<V>>, cap: nat)
    requires cap > 0
  {
    Steps(trace, cap) && trace[0] == Init(cap)
  }

  function KindOf<V>(q: Queue<V>, side: Side, t: nat): Kind
    requires HasTicket(q, side, t)
  {
    if side.PushSide? then q.pushes[t].kind else q.pops[t].kind
  }

  predicate WaitsReady<V>(q: Queue<V>, side: Side, t: nat) {
    AtStage(q, side, t, Issued) && KindOf(q, side, t) == Ready
  }

  predicate Unfinished<V>(q: Queue<V>, side: Side, t: nat) {
    HasTicket(q, side, t) && StageOf(q, side, t) != Done
  }

  /** No operation with a blocking ticket is in flight; finished ones do not matter. */
  ghost predicate NoneBlocking<V>(q: Queue<V>) {
    forall side, t: nat :: Unfinished(q, side, t) ==> KindOf(q, side, t) != Blocking
  }

  predicate InWindow<V>(q: Queue<V>, cap: nat) {
    |q.pops| <= |q.pushes| <= |q.pops| + cap
  }

  /** The counterpart an operation waits for has its ticket: a push its pop one lap earlier, a pop its push. */
  predicate Promise<V>(q: Queue<V>, cap: nat, side: Side, t: nat) {
    if side.PushSide? then t < |q.pops| + cap else t < |q.pushes|
  }

  ghost predicate Inv<V>(q: Queue<V>, cap: nat) {
    && IsStatic(q, cap) && SlotInv(q)
    && (forall side, t: nat :: WaitsReady(q, side, t) ==> IsTurn(q, side, Place(cap, t)))
    && (forall side, t: nat :: HasTicket(q, side, t) && KindOf(q, side, t) != Blocking ==> Promise(q, cap, side, t))
  }

  lemma PlaceIsLocate<V>(q: Queue<V>, cap: nat, t: nat)
    requires IsStatic(q, cap)
    ensures Place(cap, t) == Locate(q.epochs, t)
  {
  }

  /** A slot has reached a ticket's push turn exactly when the pop one lap earlier is done. */
  lemma EarlierLap<V>(q: Queue<V>, cap: nat, t: nat)
    requires IsStatic(q, cap) && SlotInv(q) && cap <= t
    ensures HasSlot(q, Place(cap, t))
    ensures AtStage(q, PopSide, t - cap, Done) <==>
            SlotAt(q, Place(cap, t)).seqno >= TurnFor(PushSide, Turn(t, cap))
  {
    NextLap(t - cap, cap, StrideFor(cap));
    PlaceIsLocate(q, cap, t - cap);
    assert TicketInv(q, t - cap);
  }

  lemma InitInv<V>(cap: nat)
    requires cap > 0
    ensures Inv(Init<V>(cap), cap)
  {
    StrideIsCoprime(cap);
    InitSlotInv<V>(cap, StrideFor(cap));
  }

  /** A ticket that is not blocking is handed out only when its counterpart has one. */
  lemma IssuePromise<V>(q: Queue<V>, cap: nat, side: Side, kind: Kind)
    requires IsStatic(q, cap) && SlotInv(q) && MayIssue(q, cap, side, kind) && kind != Blocking
    ensures Promise(q, cap, side, Count(q, side))
  {
    var n := Count(q, side);
    if kind == Ready {
      PlaceIsLocate(q, cap, n);
      assert TicketInv(q, n);
      if side.PushSide? && n >= cap {
        EarlierLap(q, cap, n);
      }
    }
  }

  lemma IssueSlotInv<V>(q: Queue<V>, cap: nat, step: Step<V>)
    requires cap > 0 && SlotInv(q) && !step.Work? && Enabled(q, cap, step)
    ensures SlotInv(Apply(q, cap, step))
  {
    if step.GetPush? {
      IssuePushSlotInv(q, step.v, step.kind);
    } else {
      IssuePopSlotInv(q, step.kind);
    }
  }

  lemma IssueInv<V>(q: Queue<V>, cap: nat, step: Step<V>)
    requires Inv(q, cap) && !step.Work? && Enabled(q, cap, step)
    ensures Inv(Apply(q, cap, step), cap)
  {
    var side := if step.GetPush? then PushSide else PopSide;
    var q' := Apply(q, cap, step);
    IssueSlotInv(q, cap, step);
    if step.kind != Blocking {
      IssuePromise(q, cap, side, step.kind);
    }
    forall side', t: nat | WaitsReady(q', side', t) ensures IsTurn(q', side', Place(cap, t)) {
      if HasTicket(q, side', t) {
        assert WaitsReady(q, side', t);
      }
    }
    forall side', t: nat | HasTicket(q', side', t) && KindOf(q', side', t) != Blocking
      ensures Promise(q', cap, side', t)
    {
      if HasTicket(q, side', t) {
        assert KindOf(q, side', t) == KindOf(q', side', t) && Promise(q, cap, side', t);
      }
    }
  }

  /** Work of one ticket leaves every other ticket's slot at its turn. */
  lemma WorkKeepsReady<V>(q: Queue<V>, cap: nat, side: Side, t0: nat, side': Side, t: nat)
    requires Inv(q, cap) && CanAdvance(q, side, t0, Place(cap, t0))
    requires WaitsReady(Advance(q, side, t0, Place(cap, t0)), side', t)
    ensures IsTurn(Advance(q, side, t0, Place(cap, t0)), side', Place(cap, t))
  {
    assert WaitsReady(q, side', t);
    PlaceIsLocate(q, cap, t0);
    PlaceIsLocate(q, cap, t);
    assert TicketInv(q, t0);
    if Place(cap, t) == Place(cap, t0) {
      LocateInjective(q.epochs, t, t0);
    }
  }

  lemma WorkInv<V>(q: Queue<V>, cap: nat, side: Side, t0: nat)
    requires Inv(q, cap) && CanAdvance(q, side, t0, Place(cap, t0))
    ensures Inv(Advance(q, side, t0, Place(cap, t0)), cap)
  {
    PlaceIsLocate(q, cap, t0);
    AdvanceSlotInv(q, side, t0);
    var q' := Advance(q, side, t0, Place(cap, t0));
    forall side', t: nat | WaitsReady(q', side', t) ensures IsTurn(q', side', Place(cap, t)) {
      WorkKeepsReady(q, cap, side, t0, side', t);
    }
    forall side', t: nat | HasTicket(q', side', t) && KindOf(q', side', t) != Blocking
      ensures Promise(q', cap, side', t)
    {
      assert HasTicket(q, side', t) && KindOf(q, side', t) == KindOf(q', side', t);
    }
  }

  lemma NextInv<V(!new)>(q: Queue<V>, q': Queue<V>, cap: nat)
    requires cap > 0 && Inv(q, cap) && Next(q, q', cap)
    ensures Inv(q', cap)
  {
    var step :| Enabled(q, cap, step) && q' == Apply(q, cap, step);
    if step.Work? {
      WorkInv(q, cap, step.side, step.t);
    } else {
      IssueInv(q, cap, step);
    }
  }

  lemma {:induction false} RunInv<V(!new)>(trace: seq<Queue<V>>, cap: nat, i: nat)
    requires cap > 0 && Run(trace, cap) && i < |trace|
    ensures Inv(trace[i], cap)
  {
    if i == 0 {
      InitInv<V>(cap);
    } else {
      RunInv(trace, cap, i - 1);
      assert StepAt(trace, cap, i - 1);
      NextInv(trace[i - 1], trace[i], cap);
    }
  }

  // Refinement to a plain queue

  /** Every step of every interleaving is a move of one plain queue, and finished pops agree with it. */
  lemma RunRefinesFifo<V(!new)>(trace: seq<Queue<V>>, cap: nat, i: nat)
    requires cap > 0 && Run(trace, cap) && i < |trace|
    ensures Abstract(trace[0]) == Fifo([], [])
    ensures i + 1 < |trace| ==> FifoMove(Abstract(trace[i]), Abstract(trace[i + 1]))
    ensures AgreesWithFifo(trace[i])
  {
    RunAgrees(trace, cap, i);
    if i + 1 < |trace| {
      assert StepAt(trace, cap, i);
      NextMoves(trace[i], trace[i + 1], cap);
    }
  }

  lemma RunAgrees<V(!new)>(trace: seq<Queue<V>>, cap: nat, i: nat)
    requires cap > 0 && Run(trace, cap) && i < |trace|
    ensures AgreesWithFifo(trace[i])
  {
    RunInv(trace, cap, i);
    SlotInvAgrees(trace[i]);
  }

  lemma NextMoves<V(!new)>(q: Queue<V>, q': Queue<V>, cap: nat)
    requires cap > 0 && Next(q, q', cap)
    ensures FifoMove(Abstract(q), Abstract(q'))
  {
    var step :| Enabled(q, cap, step) && q' == Apply(q, cap, step);
    match step
    case GetPush(v, kind) => PushMoves(q, v, kind);
    case GetPop(kind) => PopMoves(q, kind);
    case Work(side, t) => AdvanceRefines(q, side, t, Place(cap, t));
  }

  /** A finished pop has exactly the element pushed with its own ticket, so none is delivered twice. */
  lemma PopReturnsItsPush<V(!new)>(trace: seq<Queue<V>>, cap: nat, i: nat, t: nat)
    requires cap > 0 && Run(trace, cap) && i < |trace| && AtStage(trace[i], PopSide, t, Done)
    ensures AtStage(trace[i], PushSide, t, Done)
    ensures trace[i].pops[t].got == Some(trace[i].pushes[t].value)
  {
    RunInv(trace, cap, i);
    assert TicketInv(trace[i], t);
  }

  /**
   A slot holds an element exactly when its counter is odd, except while the one operation whose
   turn it is has constructed or removed the element and not yet completed the turn.
   */
  lemma SlotHoldsIffOdd<V(!new)>(trace: seq<Queue<V>>, cap: nat, i: nat, j: nat) returns (t: nat)
    requires cap > 0 && Run(trace, cap) && i < |trace| && j < cap
    ensures IsStatic(trace[i], cap) && |trace[i].mem| == 1 && |trace[i].mem[0]| == cap
    ensures var s := trace[i].mem[0][j];
            && Place(cap, t) == Location(0, j, s.seqno / 2)
            && s.contents.Some? == (if s.seqno % 2 == 1 then !AtStage(trace[i], PopSide, t, Moved)
                                    else AtStage(trace[i], PushSide, t, Moved))
            && (s.contents.Some? ==> t < |trace[i].pushes| && s.contents.value == trace[i].pushes[t].value)
  {
    RunInv(trace, cap, i);
    var q := trace[i];
    OneArray(trace, cap, i);
    StrideIsCoprime(cap);
    t := SlotAndTurnSurjective(j, q.mem[0][j].seqno / 2, cap, StrideFor(cap));
    PlaceIsLocate(q, cap, t);
    assert TicketInv(q, t);
  }

  lemma {:induction false} OneArray<V(!new)>(trace: seq<Queue<V>>, cap: nat, i: nat)
    requires cap > 0 && Run(trace, cap) && i < |trace|
    ensures |trace[i].mem| == 1
  {
    if i > 0 {
      OneArray(trace, cap, i - 1);
      assert StepAt(trace, cap, i - 1);
    }
  }

  // Ready tickets

  /** In every run an operation with a ready ticket can always take its next step, until it is done. */
  lemma ReadyTicketNeverBlocks<V(!new)>(trace: seq<Queue<V>>, cap: nat, i: nat, side: Side, t: nat)
    requires cap > 0 && Run(trace, cap) && i < |trace|
    requires HasTicket(trace[i], side, t) && KindOf(trace[i], side, t) == Ready
    requires StageOf(trace[i], side, t) != Done
    ensures CanAdvance(trace[i], side, t, Place(cap, t))
  {
    RunInv(trace, cap, i);
    StartedNeverBlocks(trace[i], cap, side, t);
    if StageOf(trace[i], side, t) == Issued {
      assert WaitsReady(trace[i], side, t);
    }
  }

  /** Past its turn wait an operation is never held up. */
  lemma StartedNeverBlocks<V>(q: Queue<V>, cap: nat, side: Side, t: nat)
    requires Inv(q, cap)
    ensures HasSlot(q, Place(cap, t))
    ensures Busy(q, side, t) ==> CanAdvance(q, side, t, Place(cap, t))
  {
    PlaceIsLocate(q, cap, t);
    assert TicketInv(q, t);
  }

  // Promised tickets

  function Rank(side: Side, t: nat): nat {
    if side.PushSide? then 2 * t else 2 * t + 1
  }

  ghost predicate AllDoneBelow<V>(q: Queue<V>, rank: nat) {
    forall side, t: nat :: HasTicket(q, side, t) && Rank(side, t) < rank ==> StageOf(q, side, t) == Done
  }

  lemma {:induction false} LeastUnfinished<V>(q: Queue<V>, side: Side, t: nat, from: nat)
    returns (side0: Side, t0: nat)
    requires Unfinished(q, side, t) && AllDoneBelow(q, from) && from <= Rank(side, t)
    ensures Unfinished(q, side0, t0) && AllDoneBelow(q, Rank(side0, t0))
    decreases Rank(side, t) - from
  {
    var s, u := if from % 2 == 0 then PushSide else PopSide, from / 2;
    if Unfinished(q, s, u) {
      side0, t0 := s, u;
    } else {
      forall s', u': nat | HasTicket(q, s', u') && Rank(s', u') < from + 1
        ensures StageOf(q, s', u') == Done
      {
        if Rank(s', u') == from {
          assert s' == s && u' == u;
        }
      }
      side0, t0 := LeastUnfinished(q, side, t, from + 1);
    }
  }

  /** With no blocking operation in flight, the unfinished operation of least rank is never held up. */
  lemma LeastRankCanAdvance<V>(q: Queue<V>, cap: nat, side: Side, t: nat)
    requires Inv(q, cap) && NoneBlocking(q)
    requires Unfinished(q, side, t) && AllDoneBelow(q, Rank(side, t))
    ensures CanAdvance(q, side, t, Place(cap, t))
  {
    StartedNeverBlocks(q, cap, side, t);
    if StageOf(q, side, t) == Issued {
      assert Promise(q, cap, side, t);
      assert side.PopSide? ==> AtStage(q, PushSide, t, Done) by {
        assert side.PopSide? ==> HasTicket(q, PushSide, t) && Rank(PushSide, t) < Rank(side, t);
      }
      if side.PushSide? && t >= cap {
        assert HasTicket(q, PopSide, t - cap) && Rank(PopSide, t - cap) < Rank(side, t);
        EarlierLap(q, cap, t);
      }
      PlaceIsLocate(q, cap, t);
      assert TicketInv(q, t);
      TurnBelowCap(t, cap);
    }
  }

  /** A finished operation, of whatever kind, had its counterpart. */
  lemma DonePromise<V>(q: Queue<V>, cap: nat, side: Side, t: nat)
    requires Inv(q, cap) && AtStage(q, side, t, Done)
    ensures Promise(q, cap, side, t)
  {
    PlaceIsLocate(q, cap, t);
    assert TicketInv(q, t);
    if side.PushSide? && t >= cap {
      EarlierLap(q, cap, t);
    }
  }

  lemma AnyPromise<V>(q: Queue<V>, cap: nat, side: Side, t: nat)
    requires Inv(q, cap) && NoneBlocking(q) && HasTicket(q, side, t)
    ensures Promise(q, cap, side, t)
  {
    if Unfinished(q, side, t) {
      assert KindOf(q, side, t) != Blocking;
    } else {
      DonePromise(q, cap, side, t);
    }
  }

  /** With no blocking operation in flight the two counters are within one capacity of each other. */
  lemma CountersInWindow<V>(q: Queue<V>, cap: nat)
    requires Inv(q, cap) && NoneBlocking(q)
    ensures InWindow(q, cap)
  {
    if |q.pushes| > 0 {
      AnyPromise(q, cap, PushSide, |q.pushes| - 1);
    }
    if |q.pops| > 0 {
      AnyPromise(q, cap, PopSide, |q.pops| - 1);
    }
  }

  lemma TurnBelowCap(t: nat, cap: nat)
    requires cap > 0
    ensures t < cap ==> Turn(t, cap) == 0
  {
  }

  /** Steps an operation still has to take. */
  function ToGo(stage: Stage): nat {
    match stage case Issued => 3 case Entered => 2 case Moved => 1 case Done => 0
  }

  ghost function Work(stages: seq<Stage>): nat {
    if stages == [] then 0 else Work(stages[..|stages| - 1]) + ToGo(stages[|stages| - 1])
  }

  ghost function Stages<V>(q: Queue<V>, side: Side): (stages: seq<Stage>)
    ensures |stages| == Count(q, side) && forall t :: 0 <= t < |stages| ==> stages[t] == StageOf(q, side, t)
  {
    seq(Count(q, side), t requires 0 <= t < Count(q, side) => StageOf(q, side, t))
  }

  ghost function WorkLeft<V>(q: Queue<V>): nat {
    Work(Stages(q, PushSide)) + Work(Stages(q, PopSide))
  }

  lemma {:induction false} WorkUpdate(stages: seq<Stage>, t: nat, stage: Stage)
    requires t < |stages|
    ensures Work(stages[t := stage]) == Work(stages) - ToGo(stages[t]) + ToGo(stage)
    ensures ToGo(stages[t]) <= Work(stages)
  {
    var n := |stages| - 1;
    if t == n {
      assert stages[t := stage][..n] == stages[..n];
    } else {
      assert stages[t := stage][..n] == stages[..n][t := stage];
      WorkUpdate(stages[..n], t, stage);
    }
  }

  lemma AdvanceUsesWork<V>(q: Queue<V>, side: Side, t: nat, loc: Location)
    requires CanAdvance(q, side, t, loc)
    ensures WorkLeft(Advance(q, side, t, loc)) == WorkLeft(q) - 1
  {
    var q' := Advance(q, side, t, loc);
    var other := if side.PushSide? then PopSide else PushSide;
    assert Stages(q', other) == Stages(q, other);
    assert Stages(q', side) == Stages(q, side)[t := StageOf(q', side, t)];
    WorkUpdate(Stages(q, side), t, StageOf(q', side, t));
  }

  lemma {:induction false} WorkSomewhere(stages: seq<Stage>) returns (t: nat)
    requires Work(stages) > 0
    ensures t < |stages| && stages[t] != Done
  {
    t := |stages| - 1;
    if stages[t] == Done {
      t := WorkSomewhere(stages[..t]);
    }
  }

  lemma WorkMeansUnfinished<V>(q: Queue<V>) returns (side: Side, t: nat)
    requires WorkLeft(q) > 0
    ensures Unfinished(q, side, t)
  {
    side := if Work(Stages(q, PushSide)) > 0 then PushSide else PopSide;
    t := WorkSomewhere(Stages(q, side));
  }

  /** Some operation works at its slot; no ticket is obtained. */
  ghost predicate WorkStep<V>(q: Queue<V>, q': Queue<V>, cap: nat)
    requires cap > 0
  {
    exists side, t: nat :: CanAdvance(q, side, t, Place(cap, t)) && q' == Advance(q, side, t, Place(cap, t))
  }

  ghost predicate WorkSteps<V>(trace: seq<Queue<V>>, cap: nat)
    requires cap > 0
  {
    |trace| > 0 && forall i :: 0 <= i < |trace| - 1 ==> WorkStep(trace[i], trace[i + 1], cap)
  }

  predicate AnyCanAdvance<V>(q: Queue<V>, cap: nat, side: Side, t: nat)
    requires cap > 0
  {
    CanAdvance(q, side, t, Place(cap, t))
  }

  lemma WorkStepKeeps<V>(q: Queue<V>, q': Queue<V>, cap: nat)
    requires cap > 0 && WorkStep(q, q', cap) && Inv(q, cap)
    ensures Inv(q', cap) && WorkLeft(q') == WorkLeft(q) - 1
    ensures NoneBlocking(q) ==> NoneBlocking(q')
  {
    var side, t: nat :| CanAdvance(q, side, t, Place(cap, t)) && q' == Advance(q, side, t, Place(cap, t));
    WorkInv(q, cap, side, t);
    AdvanceUsesWork(q, side, t, Place(cap, t));
    forall side', t': nat | Unfinished(q', side', t')
      ensures Unfinished(q, side', t') && KindOf(q, side', t') == KindOf(q', side', t')
    {
    }
  }

  lemma {:induction false} WorkStepsKeep<V>(trace: seq<Queue<V>>, cap: nat, i: nat)
    requires cap > 0 && WorkSteps(trace, cap) && i < |trace|
    requires Inv(trace[0], cap) && NoneBlocking(trace[0])
    ensures Inv(trace[i], cap) && NoneBlocking(trace[i])
    ensures WorkLeft(trace[i]) == WorkLeft(trace[0]) - i
  {
    if i > 0 {
      WorkStepsKeep(trace, cap, i - 1);
      WorkStepKeeps(trace[i - 1], trace[i], cap);
    }
  }

  /**
   Promised (and ready) tickets never deadlock. From any reachable state in which no operation in
   flight is a blocking one, whatever was done before, the counters are within one capacity of each
   other, some unfinished operation can always go on, and every schedule finishes all of them in
   exactly as many steps as are left to take.
   */
  lemma PromisedTicketsDrain<V(!new)>(run: seq<Queue<V>>, cap: nat, i: nat, work: seq<Queue<V>>)
    requires cap > 0 && Run(run, cap) && i < |run| && NoneBlocking(run[i])
    requires WorkSteps(work, cap) && work[0] == run[i]
    ensures InWindow(run[i], cap)
    ensures |work| - 1 <= WorkLeft(run[i])
    ensures var q := work[|work| - 1];
            if |work| - 1 == WorkLeft(run[i])
            then forall side, t: nat :: !Unfinished(q, side, t)
            else exists side, t: nat :: AnyCanAdvance(q, cap, side, t)
  {
    RunInv(run, cap, i);
    CountersInWindow(run[i], cap);
    var n := |work| - 1;
    WorkStepsKeep(work, cap, n);
    var q := work[n];
    if n == WorkLeft(run[i]) {
      forall side, t: nat ensures !Unfinished(q, side, t) {
        UnfinishedMeansWork(q, side, t);
      }
    } else {
      var side, t := WorkMeansUnfinished(q);
      side, t := LeastUnfinished(q, side, t, 0);
      LeastRankCanAdvance(q, cap, side, t);
      assert AnyCanAdvance(q, cap, side, t);
    }
  }

  lemma UnfinishedMeansWork<V>(q: Queue<V>, side: Side, t: nat)
    ensures Unfinished(q, side, t) ==> WorkLeft(q) > 0
  {
    if Unfinished(q, side, t) {
      WorkUpdate(Stages(q, side), t, StageOf(q, side, t));
    }
  }
}
