/**
 The slot layer shared by the static and the dynamic ticketed queue.

 Tickets are handed out in order, so the push operation with ticket t is pushes[t] and the pop
 operation with ticket t is pops[t]; |pushes| and |pops| are pushTicket_ and popTicket_. A slots
 array serves the tickets from its offset on; the static queue has the one array with offset 0.
 Each slot has a turn counter (the TurnSequencer) and storage for one element.
 */
module Slots {
  import opened Wrappers
  import opened Arithmetic
  import opened Stride

  datatype Side = PushSide | PopSide

  /** waitForTurn not yet passed, passed, element constructed or moved out, completeTurn done. */
  datatype Stage = Issued | Entered | Moved | Done

  /** How the ticket was obtained. */
  datatype Kind = Blocking | Ready | Promised

  datatype Push<V> = Push(value: V, kind: Kind, stage: Stage)
  datatype Pop<V> = Pop(kind: Kind, stage: Stage, got: Option<V>)
  datatype Slot<V> = Slot(seqno: nat, contents: Option<V>)
  datatype Epoch = Epoch(offset: nat, cap: nat, stride: nat)
  datatype Location = Location(arr: nat, index: nat, turn: nat)

  datatype Queue<V> = Queue(
    epochs: seq<Epoch>,
    mem: seq<seq<Slot<V>>>,
    pushes: seq<Push<V>>,
    pops: seq<Pop<V>>)

  ghost predicate ValidEpochs(epochs: seq<Epoch>) {
    && |epochs| > 0 && epochs[0].offset == 0
    && (forall i :: 0 <= i < |epochs| ==> epochs[i].cap > 0 && Coprime(epochs[i].stride, epochs[i].cap))
    && (forall i, j :: 0 <= i < j < |epochs| ==> epochs[i].offset < epochs[j].offset)
  }

  /** The newest array whose offset is not above the ticket. */
  function EpochOf(epochs: seq<Epoch>, t: nat): (e: nat)
    requires |epochs| > 0 && epochs[0].offset == 0
    ensures e < |epochs| && epochs[e].offset <= t
    ensures forall i :: e < i < |epochs| ==> t < epochs[i].offset
  {
    var last := |epochs| - 1;
    if epochs[last].offset <= t then last else EpochOf(epochs[..last], t)
  }

  function LocationIn(arr: nat, epoch: Epoch, t: nat): Location
    requires epoch.cap > 0 && epoch.offset <= t
  {
    Location(arr, Idx(t - epoch.offset, epoch.cap, epoch.stride), Turn(t - epoch.offset, epoch.cap))
  }

  function Locate(epochs: seq<Epoch>, t: nat): Location
    requires |epochs| > 0 && epochs[0].offset == 0
    requires forall i :: 0 <= i < |epochs| ==> epochs[i].cap > 0
  {
    var e := EpochOf(epochs, t);
    LocationIn(e, epochs[e], t)
  }

  /** No two tickets share a slot and a turn, across all arrays. */
  lemma LocateInjective(epochs: seq<Epoch>, t1: nat, t2: nat)
    requires ValidEpochs(epochs) && Locate(epochs, t1) == Locate(epochs, t2)
    ensures t1 == t2
  {
    var e := epochs[EpochOf(epochs, t1)];
    SlotAndTurnInjective(t1 - e.offset, t2 - e.offset, e.cap, e.stride);
  }

  ghost predicate ValidMemory<V>(q: Queue<V>) {
    && ValidEpochs(q.epochs)
    && |q.epochs| <= |q.mem|
    && (forall i :: 0 <= i < |q.epochs| ==> |q.mem[i]| == q.epochs[i].cap)
  }

  predicate HasSlot<V>(q: Queue<V>, loc: Location) {
    loc.arr < |q.mem| && loc.index < |q.mem[loc.arr]|
  }

  function SlotAt<V>(q: Queue<V>, loc: Location): Slot<V>
    requires HasSlot(q, loc)
  {
    q.mem[loc.arr][loc.index]
  }

  function SetSlot<V>(q: Queue<V>, loc: Location, s: Slot<V>): Queue<V>
    requires HasSlot(q, loc)
  {
    q.(mem := q.mem[loc.arr := q.mem[loc.arr][loc.index := s]])
  }

  /** Even turns are pushes, odd turns are pops. */
  function TurnFor(side: Side, turn: nat): nat {
    if side.PushSide? then 2 * turn else 2 * turn + 1
  }

  /** Tickets handed out so far: pushTicket_ or popTicket_. */
  function Count<V>(q: Queue<V>, side: Side): nat {
    if side.PushSide? then |q.pushes| else |q.pops|
  }

  predicate HasTicket<V>(q: Queue<V>, side: Side, t: nat) {
    if side.PushSide? then t < |q.pushes| else t < |q.pops|
  }

  function StageOf<V>(q: Queue<V>, side: Side, t: nat): Stage
    requires HasTicket(q, side, t)
  {
    if side.PushSide? then q.pushes[t].stage else q.pops[t].stage
  }

  predicate AtStage<V>(q: Queue<V>, side: Side, t: nat, stage: Stage) {
    HasTicket(q, side, t) && StageOf(q, side, t) == stage
  }

  predicate Busy<V>(q: Queue<V>, side: Side, t: nat) {
    AtStage(q, side, t, Entered) || AtStage(q, side, t, Moved)
  }

  /** isTurn: the slot waits for exactly this operation. */
  predicate IsTurn<V>(q: Queue<V>, side: Side, loc: Location) {
    HasSlot(q, loc) && SlotAt(q, loc).seqno == TurnFor(side, loc.turn)
  }

  function IssuePush<V>(q: Queue<V>, v: V, kind: Kind): Queue<V> {
    q.(pushes := q.pushes + [Push(v, kind, Issued)])
  }

  function IssuePop<V>(q: Queue<V>, kind: Kind): Queue<V> {
    q.(pops := q.pops + [Pop(kind, Issued, None)])
  }

  function SetStage<V>(q: Queue<V>, side: Side, t: nat, stage: Stage): Queue<V>
    requires HasTicket(q, side, t)
  {
    if side.PushSide? then q.(pushes := q.pushes[t := q.pushes[t].(stage := stage)])
    else q.(pops := q.pops[t := q.pops[t].(stage := stage)])
  }

  /** The operation holding a ticket, working at a slot, can take its next step. */
  predicate CanAdvance<V>(q: Queue<V>, side: Side, t: nat, loc: Location) {
    && HasTicket(q, side, t) && HasSlot(q, loc)
    && match StageOf(q, side, t)
       case Issued => IsTurn(q, side, loc)
       case Entered => side.PopSide? ==> SlotAt(q, loc).contents.Some?
       case Moved => true
       case Done => false
  }

  /** waitForTurn returns; the element is constructed, or moved out and destroyed; completeTurn. */
  function Advance<V>(q: Queue<V>, side: Side, t: nat, loc: Location): Queue<V>
    requires CanAdvance(q, side, t, loc)
  {
    var s := SlotAt(q, loc);
    match StageOf(q, side, t)
    case Issued => SetStage(q, side, t, Entered)
    case Entered =>
      if side.PushSide? then
        SetStage(SetSlot(q, loc, s.(contents := Some(q.pushes[t].value))), side, t, Moved)
      else
        var q' := SetSlot(q, loc, s.(contents := None));
        q'.(pops := q'.pops[t := Pop(q.pops[t].kind, Moved, s.contents)])
    case Moved =>
      SetStage(SetSlot(q, loc, s.(seqno := TurnFor(side, loc.turn) + 1)), side, t, Done)
  }

  /** What holds of ticket t and the slot it belongs to. */
  predicate TicketInvAt<V(==)>(q: Queue<V>, t: nat, loc: Location)
    requires HasSlot(q, loc)
  {
    var s := SlotAt(q, loc);
    && (AtStage(q, PushSide, t, Done) <==> s.seqno > TurnFor(PushSide, loc.turn))
    && (AtStage(q, PopSide, t, Done) <==> s.seqno > TurnFor(PopSide, loc.turn))
    && (Busy(q, PushSide, t) ==> s.seqno == TurnFor(PushSide, loc.turn))
    && (Busy(q, PopSide, t) ==> s.seqno == TurnFor(PopSide, loc.turn))
    && (s.seqno == TurnFor(PushSide, loc.turn) ==>
          s.contents == if AtStage(q, PushSide, t, Moved) then Some(q.pushes[t].value) else None)
    && (s.seqno == TurnFor(PopSide, loc.turn) ==>
          s.contents == if AtStage(q, PopSide, t, Moved) then None else Some(q.pushes[t].value))
    && (AtStage(q, PopSide, t, Moved) || AtStage(q, PopSide, t, Done) ==>
          t < |q.pushes| && q.pops[t].got == Some(q.pushes[t].value))
  }

  ghost predicate TicketInv<V>(q: Queue<V>, t: nat)
    requires ValidMemory(q)
  {
    TicketInvAt(q, t, Locate(q.epochs, t))
  }

  ghost predicate SlotInv<V>(q: Queue<V>) {
    ValidMemory(q) && forall t: nat :: TicketInv(q, t)
  }

  /** A freshly constructed slots array. */
  function NewArray<V>(cap: nat): (a: seq<Slot<V>>)
    ensures |a| == cap && forall i :: 0 <= i < cap ==> a[i] == Slot(0, None)
  {
    seq(cap, _ => Slot(0, None))
  }

  function InitQueue<V>(cap: nat, stride: nat): Queue<V> {
    Queue([Epoch(0, cap, stride)], [NewArray(cap)], [], [])
  }

  lemma InitSlotInv<V>(cap: nat, stride: nat)
    requires cap > 0 && Coprime(stride, cap)
    ensures SlotInv(InitQueue<V>(cap, stride))
  {
  }

  lemma IssuePushSlotInv<V>(q: Queue<V>, v: V, kind: Kind)
    requires SlotInv(q)
    ensures SlotInv(IssuePush(q, v, kind))
  {
    forall t: nat ensures TicketInv(IssuePush(q, v, kind), t) {
      assert TicketInv(q, t);
    }
  }

  lemma IssuePopSlotInv<V>(q: Queue<V>, kind: Kind)
    requires SlotInv(q)
    ensures SlotInv(IssuePop(q, kind))
  {
    forall t: nat ensures TicketInv(IssuePop(q, kind), t) {
      assert TicketInv(q, t);
    }
  }

  /** One operation's step at its slot keeps what holds of another ticket. */
  lemma AdvanceOther<V>(q: Queue<V>, side: Side, t0: nat, loc0: Location, t: nat, loc: Location)
    requires CanAdvance(q, side, t0, loc0) && HasSlot(q, loc)
    requires TicketInvAt(q, t0, loc0) && TicketInvAt(q, t, loc) && t != t0 && loc != loc0
    ensures var q' := Advance(q, side, t0, loc0); HasSlot(q', loc) && TicketInvAt(q', t, loc)
  {
  }

  lemma AdvanceSelf<V>(q: Queue<V>, side: Side, t: nat, loc: Location)
    requires CanAdvance(q, side, t, loc) && TicketInvAt(q, t, loc)
    ensures var q' := Advance(q, side, t, loc); HasSlot(q', loc) && TicketInvAt(q', t, loc)
  {
  }

  /** One operation's step at the slot of its ticket keeps every ticket's invariant. */
  lemma AdvanceSlotInv<V>(q: Queue<V>, side: Side, t0: nat)
    requires SlotInv(q) && CanAdvance(q, side, t0, Locate(q.epochs, t0))
    ensures SlotInv(Advance(q, side, t0, Locate(q.epochs, t0)))
  {
    var loc0 := Locate(q.epochs, t0);
    var q' := Advance(q, side, t0, loc0);
    assert q'.epochs == q.epochs && ValidMemory(q');
    forall t: nat ensures TicketInv(q', t) {
      assert TicketInv(q, t0) && TicketInv(q, t);
      if t == t0 {
        AdvanceSelf(q, side, t0, loc0);
      } else {
        if Locate(q.epochs, t) == loc0 {
          LocateInjective(q.epochs, t, t0);
        }
        AdvanceOther(q, side, t0, loc0, t, Locate(q.epochs, t));
      }
    }
  }

  // Adding an array

  /** An operation has begun to work at a slot, or has finished. */
  predicate Touched<V>(q: Queue<V>, side: Side, t: nat) {
    HasTicket(q, side, t) && StageOf(q, side, t) != Issued
  }

  lemma EpochOfAppend(epochs: seq<Epoch>, e: Epoch, t: nat)
    requires |epochs| > 0 && epochs[0].offset == 0
    ensures (epochs + [e])[0] == epochs[0]
    ensures EpochOf(epochs + [e], t) == if e.offset <= t then |epochs| else EpochOf(epochs, t)
  {
    assert (epochs + [e])[..|epochs|] == epochs;
  }

  /** Publishing a new array above every ticket already at work moves no ticket that matters. */
  lemma PublishSlotInv<V>(q: Queue<V>, e: Epoch)
    requires SlotInv(q) && |q.mem| > |q.epochs| && q.mem[|q.epochs|] == NewArray(e.cap)
    requires e.cap > 0 && Coprime(e.stride, e.cap)
    requires forall i :: 0 <= i < |q.epochs| ==> q.epochs[i].offset < e.offset
    requires forall side, t: nat :: Touched(q, side, t) ==> t < e.offset
    ensures SlotInv(q.(epochs := q.epochs + [e]))
  {
    var q' := q.(epochs := q.epochs + [e]);
    assert ValidMemory(q');
    forall t: nat ensures TicketInv(q', t) {
      PublishTicket(q, e, t);
    }
  }

  lemma PublishTicket<V>(q: Queue<V>, e: Epoch, t: nat)
    requires SlotInv(q) && |q.mem| > |q.epochs| && q.mem[|q.epochs|] == NewArray(e.cap)
    requires ValidMemory(q.(epochs := q.epochs + [e]))
    requires e.offset <= t ==> !Touched(q, PushSide, t) && !Touched(q, PopSide, t)
    ensures TicketInv(q.(epochs := q.epochs + [e]), t)
  {
    var q' := q.(epochs := q.epochs + [e]);
    EpochOfAppend(q.epochs, e, t);
    assert TicketInv(q, t);
    if e.offset <= t {
      assert SlotAt(q', Locate(q'.epochs, t)) == Slot(0, None);
    }
  }
}
