/**
 The lock-free loops of MPMCQueueBase that hand out tickets, and size(), as they run against
 arbitrary interference. The shared queue is a field; between any two accesses to it the other
 threads take any number of steps of the StaticQueue step system. The ghost trace records every
 state the queue has been in, so a result can be tied to an instant of the call.
 */
module TicketFunctions {
  import opened Wrappers
  import opened Stride
  import opened Slots
  import opened StaticQueue

  lemma {:induction false} CountsGrow<V(!new)>(trace: seq<Queue<V>>, cap: nat, i: nat, j: nat, side: Side)
    requires cap > 0 && Steps(trace, cap) && i <= j < |trace|
    ensures Count(trace[i], side) <= Count(trace[j], side)
    decreases j
  {
    if i < j {
      CountsGrow(trace, cap, i, j - 1, side);
      assert StepAt(trace, cap, j - 1);
    }
  }

  /** Only the holder of a ticket moves the ticket's slot on from the ticket's turn. */
  lemma TurnHeld<V(!new)>(q: Queue<V>, q': Queue<V>, cap: nat, side: Side, t: nat)
    requires cap > 0 && Inv(q, cap) && Next(q, q', cap)
    requires IsTurn(q, side, Place(cap, t)) && !HasTicket(q, side, t)
    ensures IsTurn(q', side, Place(cap, t))
  {
    var step :| Enabled(q, cap, step) && q' == Apply(q, cap, step);
    if step.Work? {
      var t0 := step.t;
      PlaceIsLocate(q, cap, t0);
      PlaceIsLocate(q, cap, t);
      assert TicketInv(q, t0) && TicketInv(q, t);
      if Place(cap, t) == Place(cap, t0) {
        LocateInjective(q.epochs, t, t0);
      }
      WorkElsewhere(q, cap, side, t, step.side, t0);
    }
  }

  lemma WorkElsewhere<V>(q: Queue<V>, cap: nat, side: Side, t: nat, side0: Side, t0: nat)
    requires cap > 0 && CanAdvance(q, side0, t0, Place(cap, t0))
    requires HasSlot(q, Place(cap, t)) && TicketInvAt(q, t0, Place(cap, t0))
    requires IsTurn(q, side, Place(cap, t)) && !HasTicket(q, side, t)
    requires Place(cap, t) == Place(cap, t0) ==> t == t0
    ensures IsTurn(Advance(q, side0, t0, Place(cap, t0)), side, Place(cap, t))
  {
  }

  lemma {:induction false} TurnHeldOver<V(!new)>(trace: seq<Queue<V>>, cap: nat, i: nat, j: nat, side: Side, t: nat)
    requires cap > 0 && Run(trace, cap) && i <= j < |trace|
    requires IsTurn(trace[i], side, Place(cap, t)) && Count(trace[j], side) <= t
    ensures IsTurn(trace[j], side, Place(cap, t))
    decreases j
  {
    if i < j {
      CountsGrow(trace, cap, j - 1, j, side);
      TurnHeldOver(trace, cap, i, j - 1, side, t);
      TurnHeldAt(trace, cap, j - 1, side, t);
    }
  }

  lemma TurnHeldAt<V(!new)>(trace: seq<Queue<V>>, cap: nat, i: nat, side: Side, t: nat)
    requires cap > 0 && Run(trace, cap) && i + 1 < |trace|
    requires IsTurn(trace[i], side, Place(cap, t)) && Count(trace[i], side) <= t
    ensures IsTurn(trace[i + 1], side, Place(cap, t))
  {
    RunInv(trace, cap, i);
    assert StepAt(trace, cap, i);
    TurnHeld(trace[i], trace[i + 1], cap, side, t);
  }

  lemma RunExtends<V(!new)>(trace: seq<Queue<V>>, cap: nat, step: Step<V>)
    requires cap > 0 && Run(trace, cap) && Enabled(trace[|trace| - 1], cap, step)
    ensures Run(trace + [Apply(trace[|trace| - 1], cap, step)], cap)
  {
    var longer := trace + [Apply(trace[|trace| - 1], cap, step)];
    forall i: nat | i + 1 < |longer| ensures StepAt(longer, cap, i) {
      if i + 1 < |trace| {
        assert StepAt(trace, cap, i);
      }
    }
  }

  /** The turn counter of the slot of the next push or pop ticket is at twice its lap, or one more for a pop. */
  predicate NextSlotReady<V>(q: Queue<V>, cap: nat, side: Side)
    requires cap > 0
  {
    var t := if side.PushSide? then |q.pushes| else |q.pops|;
    var i := (t * StrideFor(cap)) % cap;
    |q.mem| == 1 && i < |q.mem[0]| && q.mem[0][i].seqno == 2 * (t / cap) + if side.PushSide? then 0 else 1
  }

  lemma NextReadyIff<V(!new)>(trace: seq<Queue<V>>, cap: nat, k: nat, side: Side, t: nat)
    requires cap > 0 && Run(trace, cap) && k < |trace| && Count(trace[k], side) == t
    ensures IsTurn(trace[k], side, Place(cap, t)) <==> NextSlotReady(trace[k], cap, side)
  {
    RunInv(trace, cap, k);
    OneArray(trace, cap, k);
  }

  class MpmcQueue<V(!new)> {
    const cap: nat
    var q: Queue<V>
    ghost var trace: seq<Queue<V>>

    ghost predicate Valid()
      reads this
    {
      cap > 0 && Run(trace, cap) && trace[|trace| - 1] == q
    }

    constructor (capacity: nat)
      requires capacity > 0
      ensures Valid() && cap == capacity && q == Init(capacity)
    {
      cap := capacity;
      q := Init(capacity);
      trace := [Init(capacity)];
    }

    /**
     Other threads run: any burst of steps, handing out no ticket beyond the limit. The methods
     below rely only on this contract, so they hold against every interference.
     */
    method Interfere(limit: nat)
      requires Valid() && Count(q, PushSide) <= limit && Count(q, PopSide) <= limit
      modifies this`q, this`trace
      ensures Valid() && old(trace) <= trace
      ensures Count(q, PushSide) <= limit && Count(q, PopSide) <= limit
    {
      var burst: seq<Step<V>> := *;
      for i := 0 to |burst|
        invariant Valid() && old(trace) <= trace
        invariant Count(q, PushSide) <= limit && Count(q, PopSide) <= limit
      {
        if Enabled(q, cap, burst[i]) {
          RunExtends(trace, cap, burst[i]);
          var q' := Apply(q, cap, burst[i]);
          if Count(q', PushSide) <= limit && Count(q', PopSide) <= limit {
            q := q';
            trace := trace + [q];
          }
        }
      }
    }

    /** Compare-and-exchange on pushTicket_ that succeeds: the ticket is this thread's. */
    method TakePushTicket(v: V, kind: Kind)
      requires Valid() && MayIssue(q, cap, PushSide, kind)
      modifies this`q, this`trace
      ensures Valid() && trace == old(trace) + [q]
      ensures q == IssuePush(old(q), v, kind)
    {
      RunExtends(trace, cap, GetPush(v, kind));
      q := IssuePush(q, v, kind);
      trace := trace + [q];
    }

    method TakePopTicket(kind: Kind)
      requires Valid() && MayIssue(q, cap, PopSide, kind)
      modifies this`q, this`trace
      ensures Valid() && trace == old(trace) + [q]
      ensures q == IssuePop(old(q), kind)
    {
      RunExtends(trace, cap, GetPop(kind));
      q := IssuePop(q, kind);
      trace := trace + [q];
    }

    /**
     True: the ticket is taken at an instant when its slot is ready. False: at some instant of the
     call the slot of the next ticket was not ready.
     */
    method TryObtainReadyPushTicket(v: V, limit: nat) returns (ok: bool, ticket: nat)
      requires Valid() && Count(q, PushSide) <= limit && Count(q, PopSide) <= limit
      modifies this`q, this`trace
      ensures Valid() && old(trace) <= trace
      ensures ok ==>
                && |trace| > |old(trace)| && q == IssuePush(trace[|trace| - 2], v, Ready)
                && ticket == |trace[|trace| - 2].pushes| && NextSlotReady(trace[|trace| - 2], cap, PushSide)
      ensures !ok ==> exists i :: |old(trace)| - 1 <= i < |trace| && !NextSlotReady(trace[i], cap, PushSide)
    {
      ticket := |q.pushes|; // A
      ghost var seen := |trace| - 1;
      Interfere(limit);
      while true
        invariant Valid() && old(trace) <= trace && |old(trace)| - 1 <= seen < |trace|
        invariant Count(trace[seen], PushSide) == ticket
        invariant Count(q, PushSide) <= limit && Count(q, PopSide) <= limit
        decreases limit - ticket
      {
        var mayEnqueue := IsTurn(q, PushSide, Place(cap, ticket));
        ghost var checked := |trace| - 1;
        CountsGrow(trace, cap, seen, checked, PushSide);
        Interfere(limit);
        CountsGrow(trace, cap, checked, |trace| - 1, PushSide);
        if !mayEnqueue {
          var prev := ticket;
          ticket := |q.pushes|; // B
          seen := |trace| - 1;
          if prev == ticket {
            NextReadyIff(trace, cap, checked, PushSide, ticket);
            return false, ticket;
          }
        } else if |q.pushes| == ticket {
          TurnHeldOver(trace, cap, checked, |trace| - 1, PushSide, ticket);
          NextReadyIff(trace, cap, |trace| - 1, PushSide, ticket);
          TakePushTicket(v, Ready);
          return true, ticket;
        } else {
          ticket := |q.pushes|;
          seen := |trace| - 1;
        }
        Interfere(limit);
      }
    }

    method TryObtainReadyPopTicket(limit: nat) returns (ok: bool, ticket: nat)
      requires Valid() && Count(q, PushSide) <= limit && Count(q, PopSide) <= limit
      modifies this`q, this`trace
      ensures Valid() && old(trace) <= trace
      ensures ok ==>
                && |trace| > |old(trace)| && q == IssuePop(trace[|trace| - 2], Ready)
                && ticket == |trace[|trace| - 2].pops| && NextSlotReady(trace[|trace| - 2], cap, PopSide)
      ensures !ok ==> exists i :: |old(trace)| - 1 <= i < |trace| && !NextSlotReady(trace[i], cap, PopSide)
    {
      ticket := |q.pops|;
      ghost var seen := |trace| - 1;
      Interfere(limit);
      while true
        invariant Valid() && old(trace) <= trace && |old(trace)| - 1 <= seen < |trace|
        invariant Count(trace[seen], PopSide) == ticket
        invariant Count(q, PushSide) <= limit && Count(q, PopSide) <= limit
        decreases limit - ticket
      {
        var mayDequeue := IsTurn(q, PopSide, Place(cap, ticket));
        ghost var checked := |trace| - 1;
        CountsGrow(trace, cap, seen, checked, PopSide);
        Interfere(limit);
        CountsGrow(trace, cap, checked, |trace| - 1, PopSide);
        if !mayDequeue {
          var prev := ticket;
          ticket := |q.pops|;
          seen := |trace| - 1;
          if prev == ticket {
            NextReadyIff(trace, cap, checked, PopSide, ticket);
            return false, ticket;
          }
        } else if |q.pops| == ticket {
          TurnHeldOver(trace, cap, checked, |trace| - 1, PopSide, ticket);
          NextReadyIff(trace, cap, |trace| - 1, PopSide, ticket);
          TakePopTicket(Ready);
          return true, ticket;
        } else {
          ticket := |q.pops|;
          seen := |trace| - 1;
        }
        Interfere(limit);
      }
    }

    /** pushTicket_++ of blockingWrite: always granted, at whatever instant. */
    method BlockingPushTicket(v: V) returns (ticket: nat)
      requires Valid()
      modifies this`q, this`trace
      ensures Valid() && trace == old(trace) + [q]
      ensures ticket == |old(q).pushes| && q == old(q).(pushes := old(q).pushes + [Push(v, Blocking, Issued)])
    {
      ticket := |q.pushes|;
      TakePushTicket(v, Blocking);
    }

    method BlockingPopTicket() returns (ticket: nat)
      requires Valid()
      modifies this`q, this`trace
      ensures Valid() && trace == old(trace) + [q]
      ensures ticket == |old(q).pops| && q == old(q).(pops := old(q).pops + [Pop(Blocking, Issued, None)])
    {
      ticket := |q.pops|;
      TakePopTicket(Blocking);
    }

    /** False: at some instant of the call a full capacity of push tickets was ahead of the pops. */
    method TryObtainPromisedPushTicket(v: V, limit: nat) returns (ok: bool, ticket: nat)
      requires Valid() && Count(q, PushSide) <= limit && Count(q, PopSide) <= limit
      modifies this`q, this`trace
      ensures Valid() && old(trace) <= trace
      ensures ok ==>
                && |trace| > |old(trace)| && q == IssuePush(trace[|trace| - 2], v, Promised)
                && var before := trace[|trace| - 2];
                   ticket == |before.pushes| && |before.pushes| - |before.pops| < cap
      ensures !ok ==> exists i :: |old(trace)| - 1 <= i < |trace| && |trace[i].pushes| - |trace[i].pops| >= cap
    {
      var numPushes := |q.pushes|; // A
      ghost var seen := |trace| - 1;
      Interfere(limit);
      while true
        invariant Valid() && old(trace) <= trace && |old(trace)| - 1 <= seen < |trace|
        invariant Count(trace[seen], PushSide) == numPushes
        invariant Count(q, PushSide) <= limit && Count(q, PopSide) <= limit
        decreases limit - numPushes
      {
        ticket := numPushes;
        var numPops := |q.pops|; // B
        ghost var atB := |trace| - 1;
        CountsGrow(trace, cap, seen, atB, PushSide);
        if numPushes - numPops >= cap {
          assert |trace[atB].pushes| - |trace[atB].pops| >= cap;
          return false, ticket;
        }
        Interfere(limit);
        CountsGrow(trace, cap, atB, |trace| - 1, PushSide);
        CountsGrow(trace, cap, atB, |trace| - 1, PopSide);
        if |q.pushes| == numPushes {
          TakePushTicket(v, Promised);
          return true, ticket;
        }
        numPushes := |q.pushes|;
        seen := |trace| - 1;
        Interfere(limit);
      }
    }

    /** False: at some instant of the call every push ticket handed out had its pop ticket too. */
    method TryObtainPromisedPopTicket(limit: nat) returns (ok: bool, ticket: nat)
      requires Valid() && Count(q, PushSide) <= limit && Count(q, PopSide) <= limit
      modifies this`q, this`trace
      ensures Valid() && old(trace) <= trace
      ensures ok ==>
                && |trace| > |old(trace)| && q == IssuePop(trace[|trace| - 2], Promised)
                && var before := trace[|trace| - 2];
                   ticket == |before.pops| && |before.pops| < |before.pushes|
      ensures !ok ==> exists i :: |old(trace)| - 1 <= i < |trace| && |trace[i].pops| >= |trace[i].pushes|
    {
      var numPops := |q.pops|; // A
      ghost var seen := |trace| - 1;
      Interfere(limit);
      while true
        invariant Valid() && old(trace) <= trace && |old(trace)| - 1 <= seen < |trace|
        invariant Count(trace[seen], PopSide) == numPops
        invariant Count(q, PushSide) <= limit && Count(q, PopSide) <= limit
        decreases limit - numPops
      {
        ticket := numPops;
        var numPushes := |q.pushes|; // B
        ghost var atB := |trace| - 1;
        CountsGrow(trace, cap, seen, atB, PopSide);
        if numPops >= numPushes {
          assert |trace[atB].pops| >= |trace[atB].pushes|;
          return false, ticket;
        }
        Interfere(limit);
        CountsGrow(trace, cap, atB, |trace| - 1, PushSide);
        CountsGrow(trace, cap, atB, |trace| - 1, PopSide);
        if |q.pops| == numPops {
          TakePopTicket(Promised);
          return true, ticket;
        }
        numPops := |q.pops|;
        seen := |trace| - 1;
        Interfere(limit);
      }
    }

    /** The result is the true difference of the two counters at one instant of the call. */
    method Size(limit: nat) returns (n: int)
      requires Valid() && Count(q, PushSide) <= limit && Count(q, PopSide) <= limit
      modifies this`q, this`trace
      ensures Valid() && old(trace) <= trace
      ensures exists i :: |old(trace)| - 1 <= i < |trace| && n == |trace[i].pushes| - |trace[i].pops|
    {
      var pushes := |q.pushes|; // A
      ghost var iPush := |trace| - 1;
      Interfere(limit);
      var pops := |q.pops|; // B
      ghost var iPop := |trace| - 1;
      Interfere(limit);
      while true
        invariant Valid() && old(trace) <= trace
        invariant |old(trace)| - 1 <= iPush <= iPop < |trace|
        invariant Count(trace[iPush], PushSide) == pushes && Count(trace[iPop], PopSide) == pops
        invariant Count(q, PushSide) <= limit && Count(q, PopSide) <= limit
        decreases limit - pushes
      {
        var nextPushes := |q.pushes|; // C
        ghost var iNextPush := |trace| - 1;
        CountsGrow(trace, cap, iPush, iPop, PushSide);
        CountsGrow(trace, cap, iPop, iNextPush, PushSide);
        if pushes == nextPushes {
          assert |trace[iPop].pushes| == pushes;
          return pushes - pops;
        }
        pushes := nextPushes;
        Interfere(limit);
        var nextPops := |q.pops|; // D
        ghost var iNextPop := |trace| - 1;
        CountsGrow(trace, cap, iPop, iNextPush, PopSide);
        CountsGrow(trace, cap, iNextPush, iNextPop, PopSide);
        if pops == nextPops {
          assert |trace[iNextPush].pops| == pops;
          return pushes - pops;
        }
        pops := nextPops;
        iPush, iPop := iNextPush, iNextPop;
        Interfere(limit);
      }
    }
  }
}
