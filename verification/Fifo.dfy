/** A plain first-in first-out queue, and the abstraction of the ticketed queue to it. */
module Fifo {
  import opened Wrappers
  import opened Slots

  /** The elements waiting, and the elements taken so far in the order they were taken. */
  datatype Fifo<V> = Fifo(contents: seq<V>, taken: seq<V>)

  function Enqueue<V>(f: Fifo<V>, v: V): Fifo<V> {
    f.(contents := f.contents + [v])
  }

  function Dequeue<V>(f: Fifo<V>): Fifo<V>
    requires f.contents != []
  {
    Fifo(f.contents[1..], f.taken + [f.contents[0]])
  }

  function Values<V>(pushes: seq<Push<V>>): (vs: seq<V>)
    ensures |vs| == |pushes| && forall i :: 0 <= i < |vs| ==> vs[i] == pushes[i].value
  {
    seq(|pushes|, i requires 0 <= i < |pushes| => pushes[i].value)
  }

  /** A pop takes effect once both it and the push with the same ticket have their tickets. */
  function Linearized<V>(q: Queue<V>): nat {
    if |q.pops| <= |q.pushes| then |q.pops| else |q.pushes|
  }

  function Abstract<V>(q: Queue<V>): Fifo<V> {
    Fifo(Values(q.pushes)[Linearized(q)..], Values(q.pushes)[..Linearized(q)])
  }

  /** A push ticket is an enqueue; if a pop is already waiting for it, that pop's dequeue follows at once. */
  lemma PushRefines<V>(q: Queue<V>, v: V, kind: Kind)
    ensures var f := Enqueue(Abstract(q), v);
            Abstract(IssuePush(q, v, kind)) ==
            if |q.pops| > |q.pushes| then Dequeue(f) else f
  {
    var q' := IssuePush(q, v, kind);
    var n := Linearized(q);
    assert Values(q'.pushes) == Values(q.pushes) + [v];
    if |q.pops| > |q.pushes| {
      assert Values(q.pushes)[n..] == [];
    } else {
      assert (Values(q.pushes) + [v])[n..] == Values(q.pushes)[n..] + [v];
    }
  }

  /** A pop ticket is a dequeue, or a pop that waits when there is nothing to take. */
  lemma PopRefines<V>(q: Queue<V>, kind: Kind)
    ensures (Abstract(q).contents == []) == (|q.pops| >= |q.pushes|)
    ensures Abstract(IssuePop(q, kind)) ==
            if |q.pops| < |q.pushes| then Dequeue(Abstract(q)) else Abstract(q)
  {
    var n := Linearized(q);
    if |q.pops| < |q.pushes| {
      assert Values(q.pushes)[..n + 1] == Values(q.pushes)[..n] + [Values(q.pushes)[n]];
    }
  }

  /** Work at a slot does not change the abstract queue. */
  lemma AdvanceRefines<V>(q: Queue<V>, side: Side, t: nat, loc: Location)
    requires CanAdvance(q, side, t, loc)
    ensures Abstract(Advance(q, side, t, loc)) == Abstract(q)
  {
    assert Values(Advance(q, side, t, loc).pushes) == Values(q.pushes);
  }

  /** A finished pop holds exactly the element the plain queue gave to the pop of that rank. */
  lemma FinishedPopIsFifo<V>(q: Queue<V>, t: nat)
    requires SlotInv(q) && AtStage(q, PopSide, t, Done)
    ensures t < |Abstract(q).taken|
    ensures q.pops[t].got == Some(Abstract(q).taken[t])
  {
    assert TicketInv(q, t);
  }

  /** Zero, one or two steps of the plain queue: nothing, a dequeue, an enqueue, or a hand-off. */
  ghost predicate FifoMove<V(!new)>(f: Fifo<V>, f': Fifo<V>) {
    || f' == f
    || (f.contents != [] && f' == Dequeue(f))
    || exists v :: f' == Enqueue(f, v) || (f.contents == [] && f' == Dequeue(Enqueue(f, v)))
  }

  lemma PushMoves<V(!new)>(q: Queue<V>, v: V, kind: Kind)
    ensures FifoMove(Abstract(q), Abstract(IssuePush(q, v, kind)))
  {
    PushRefines(q, v, kind);
    PopRefines(q, kind);
  }

  lemma PopMoves<V(!new)>(q: Queue<V>, kind: Kind)
    ensures FifoMove(Abstract(q), Abstract(IssuePop(q, kind)))
  {
    PopRefines(q, kind);
  }

  /** Every finished pop holds the element the plain queue gave to the pop of its rank. */
  ghost predicate AgreesWithFifo<V>(q: Queue<V>) {
    forall t: nat :: AtStage(q, PopSide, t, Done) ==>
                       t < |Abstract(q).taken| && q.pops[t].got == Some(Abstract(q).taken[t])
  }

  lemma SlotInvAgrees<V>(q: Queue<V>)
    requires SlotInv(q)
    ensures AgreesWithFifo(q)
  {
    forall t: nat | AtStage(q, PopSide, t, Done)
      ensures t < |Abstract(q).taken| && q.pops[t].got == Some(Abstract(q).taken[t])
    {
      FinishedPopIsFifo(q, t);
    }
  }
}
