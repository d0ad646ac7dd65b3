/**
 Where an expansion puts the boundary between the arrays: right above the larger ticket counter, as
 the expanding thread reads the two while it holds the seqlock.
 */
module DynamicOffsets {
  import opened Slots
  import opened DynamicQueue

  function Larger(a: nat, b: nat): (m: nat)
    ensures m >= a && m >= b && (m == a || m == b)
  {
    if a >= b then a else b
  }

  function OtherSide(side: Side): Side {
    if side.PushSide? then PopSide else PushSide
  }

  /** How the phase of an expansion came about. */
  lemma PhaseBefore<V(!new)>(c: Config, s: State<V>, s': State<V>)
    requires Next(c, s, s')
    ensures HasNewTicket(s'.phase) ==>
              || (HasNewTicket(s.phase) && s'.phase.tk == s.phase.tk)
              || (s.phase.HaveOne? && s'.phase.tk == 1 + Larger(s.phase.n, Count(s.q, OtherSide(s.phase.side))))
    ensures s'.phase.HaveOne? ==>
              s.phase == s'.phase || (s.phase.Locked? && s'.phase.n == Count(s.q, s'.phase.side))
  {
    var step :| Legal(c, s, step) && s' == Apply(c, s, step);
  }

  /** The state in which the second counter was read. */
  lemma SecondLoad<V(!new)>(c: Config, trace: seq<State<V>>, k: nat) returns (b: nat)
    requires Run(c, trace) && k < |trace| && HasNewTicket(trace[k].phase)
    ensures b < k && trace[b].phase.HaveOne?
    ensures trace[k].phase.tk == 1 + Larger(trace[b].phase.n, Count(trace[b].q, OtherSide(trace[b].phase.side)))
    ensures forall i :: b <= i <= k ==> !trace[i].phase.Unlocked?
  {
    b := k;
    while HasNewTicket(trace[b].phase)
      invariant b <= k && (HasNewTicket(trace[b].phase) ==> trace[b].phase.tk == trace[k].phase.tk)
      invariant HasNewTicket(trace[b].phase)
                || (b < k && trace[b].phase.HaveOne?
                    && trace[k].phase.tk == 1 + Larger(trace[b].phase.n, Count(trace[b].q, OtherSide(trace[b].phase.side))))
      invariant forall i :: b <= i <= k ==> !trace[i].phase.Unlocked?
      decreases b
    {
      assert b > 0;
      assert StepAt(c, trace, b - 1);
      PhaseBefore(c, trace[b - 1], trace[b]);
      b := b - 1;
    }
  }

  /** The state in which the first counter was read. */
  lemma FirstLoad<V(!new)>(c: Config, trace: seq<State<V>>, b: nat) returns (a: nat)
    requires Run(c, trace) && b < |trace| && trace[b].phase.HaveOne?
    ensures a < b && trace[a].phase.Locked? && trace[b].phase.n == Count(trace[a].q, trace[b].phase.side)
    ensures forall i :: a <= i <= b ==> !trace[i].phase.Unlocked?
  {
    a := b;
    while trace[a].phase.HaveOne?
      invariant a <= b && (trace[a].phase.HaveOne? ==> trace[a].phase == trace[b].phase)
      invariant trace[a].phase.HaveOne?
                || (a < b && trace[a].phase.Locked? && trace[b].phase.n == Count(trace[a].q, trace[b].phase.side))
      invariant forall i :: a <= i <= b ==> !trace[i].phase.Unlocked?
      decreases a
    {
      assert a > 0;
      assert StepAt(c, trace, a - 1);
      PhaseBefore(c, trace[a - 1], trace[a]);
      a := a - 1;
    }
  }

  /** A new array appears only with the last store of an expansion. */
  lemma NewArrayOffset<V(!new)>(c: Config, s: State<V>, s': State<V>)
    requires Next(c, s, s') && |s'.q.epochs| > |s.q.epochs|
    ensures HasNewTicket(s.phase) && |s'.q.epochs| == |s.q.epochs| + 1 && Current(s'.q.epochs).offset == s.phase.tk
  {
    var step :| Legal(c, s, step) && s' == Apply(c, s, step);
    StepFrame(c, s, step);
  }

  lemma CountsGrow<V(!new)>(c: Config, trace: seq<State<V>>, i: nat, j: nat, side: Side)
    requires Run(c, trace) && i <= j < |trace|
    ensures Count(trace[i].q, side) <= Count(trace[j].q, side)
  {
    var k := i;
    while k < j
      invariant i <= k <= j && Count(trace[i].q, side) <= Count(trace[k].q, side)
    {
      assert StepAt(c, trace, k);
      CountStep(c, trace[k], trace[k + 1], side);
      k := k + 1;
    }
  }

  lemma CountStep<V(!new)>(c: Config, s: State<V>, s': State<V>, side: Side)
    requires Next(c, s, s')
    ensures Count(s.q, side) <= Count(s'.q, side)
  {
    var step :| Legal(c, s, step) && s' == Apply(c, s, step);
    StepFrame(c, s, step);
  }

  /**
   Every array a run adds starts one above the larger of the two counters, one read at a and the other
   at b, both with the seqlock held. So it serves exactly the tickets above that: all of those above
   both counters at b, and none that was below either counter at a.
   */
  lemma NewArrayServes<V(!new)>(c: Config, trace: seq<State<V>>, j: nat) returns (a: nat, b: nat)
    requires Run(c, trace) && j + 1 < |trace| && |trace[j + 1].q.epochs| > |trace[j].q.epochs|
    ensures a < b <= j && forall i :: a <= i <= j ==> !trace[i].phase.Unlocked?
    ensures exists side :: Current(trace[j + 1].q.epochs).offset
                           == 1 + Larger(Count(trace[a].q, side), Count(trace[b].q, OtherSide(side)))
    ensures HasEpochs(trace[j + 1])
    ensures var epochs := trace[j + 1].q.epochs;
            && |epochs| == |trace[j].q.epochs| + 1
            && (forall t: nat :: t > Larger(|trace[b].q.pushes|, |trace[b].q.pops|) ==> EpochOf(epochs, t) == |epochs| - 1)
            && (forall t: nat :: t <= Larger(|trace[a].q.pushes|, |trace[a].q.pops|) ==> EpochOf(epochs, t) < |epochs| - 1)
  {
    assert StepAt(c, trace, j);
    NewArrayOffset(c, trace[j], trace[j + 1]);
    b := SecondLoad(c, trace, j);
    a := FirstLoad(c, trace, b);
    var side := trace[b].phase.side;
    CountsGrow(c, trace, a, b, side);
    CountsGrow(c, trace, a, b, OtherSide(side));
    RunInv(c, trace, j + 1);
    LastServes(trace[j + 1].q.epochs);
  }

  lemma LastServes(epochs: seq<Epoch>)
    requires ValidEpochs(epochs)
    ensures forall t: nat :: EpochOf(epochs, t) == |epochs| - 1 <==> Current(epochs).offset <= t
  {
    forall t: nat ensures EpochOf(epochs, t) == |epochs| - 1 <==> Current(epochs).offset <= t {
      if Current(epochs).offset <= t {
        EpochIs(epochs, t, |epochs| - 1);
      }
    }
  }
}
