/** The ticket arithmetic of MPMCQueueBase: the stride, the slot index and the turn. */
module Stride {
  import opened Arithmetic

  const SMALL_PRIMES: seq<nat> := [2, 3, 5, 7, 11, 13, 17, 19, 23]

  /** Distance, going round the slots either way, between the slots of consecutive tickets. */
  function Separation(stride: nat, capacity: nat): nat
    requires capacity > 0
  {
    var sep := stride % capacity;
    if sep <= capacity - sep then sep else capacity - sep
  }

  /** The strides the search looks at. */
  predicate Candidate(stride: nat, capacity: nat)
    requires capacity > 0
  {
    stride in SMALL_PRIMES && stride % capacity != 0 && capacity % stride != 0
  }

  /** The stride kept after looking at the first n primes. */
  function BestAmong(capacity: nat, n: nat): nat
    requires capacity > 0 && n <= |SMALL_PRIMES|
  {
    if n == 0 then 1
    else
      var best := BestAmong(capacity, n - 1);
      var p := SMALL_PRIMES[n - 1];
      if Candidate(p, capacity) && Separation(p, capacity) > SeparationOfBest(best, capacity)
      then p else best
  }

  /** The default stride 1 counts as separation 1, even for capacity 1. */
  function SeparationOfBest(best: nat, capacity: nat): nat
    requires capacity > 0
  {
    if best == 1 then 1 else Separation(best, capacity)
  }

  function StrideFor(capacity: nat): nat
    requires capacity > 0
  {
    BestAmong(capacity, |SMALL_PRIMES|)
  }

  /** The search of the source: a loop over the primes with two running variables. */
  method ComputeStride(capacity: nat) returns (bestStride: nat)
    requires capacity > 0
    ensures bestStride == StrideFor(capacity)
    ensures bestStride == 1 || Candidate(bestStride, capacity)
    ensures Coprime(bestStride, capacity)
    ensures forall p :: Candidate(p, capacity) ==>
                          Separation(p, capacity) <= SeparationOfBest(bestStride, capacity)
  {
    bestStride := 1;
    var bestSep := 1;
    for i := 0 to |SMALL_PRIMES|
      invariant bestStride == BestAmong(capacity, i)
      invariant bestSep == SeparationOfBest(bestStride, capacity)
    {
      var stride := SMALL_PRIMES[i];
      assert stride in SMALL_PRIMES && stride >= 2;
      if stride % capacity == 0 || capacity % stride == 0 {
        continue;
      }
      var sep := stride % capacity;
      sep := if sep <= capacity - sep then sep else capacity - sep;
      if sep > bestSep {
        bestStride := stride;
        bestSep := sep;
      }
    }
    StrideIsBest(capacity);
    StrideIsCoprime(capacity);
  }

  lemma {:induction false} BestAmongIsBest(capacity: nat, n: nat)
    requires capacity > 0 && n <= |SMALL_PRIMES|
    ensures var best := BestAmong(capacity, n);
            && (best == 1 || Candidate(best, capacity))
            && forall i :: 0 <= i < n && Candidate(SMALL_PRIMES[i], capacity) ==>
                             Separation(SMALL_PRIMES[i], capacity) <= SeparationOfBest(best, capacity)
  {
    if n > 0 {
      BestAmongIsBest(capacity, n - 1);
    }
  }

  /** No other candidate spreads consecutive tickets further apart than the chosen stride. */
  lemma StrideIsBest(capacity: nat)
    requires capacity > 0
    ensures StrideFor(capacity) == 1 || Candidate(StrideFor(capacity), capacity)
    ensures forall p :: Candidate(p, capacity) ==>
                          Separation(p, capacity) <= SeparationOfBest(StrideFor(capacity), capacity)
  {
    BestAmongIsBest(capacity, |SMALL_PRIMES|);
    forall p | Candidate(p, capacity)
      ensures Separation(p, capacity) <= SeparationOfBest(StrideFor(capacity), capacity)
    {
      var i :| 0 <= i < |SMALL_PRIMES| && SMALL_PRIMES[i] == p;
    }
  }

  /** The first prime of largest separation is kept, if that is more than 1. */
  lemma {:induction false} BestIndex(capacity: nat, n: nat) returns (m: nat)
    requires capacity > 0 && n <= |SMALL_PRIMES| && BestAmong(capacity, n) != 1
    ensures m < n && BestAmong(capacity, n) == SMALL_PRIMES[m] && Separation(SMALL_PRIMES[m], capacity) > 1
    ensures forall i :: 0 <= i < m && Candidate(SMALL_PRIMES[i], capacity) ==>
                          Separation(SMALL_PRIMES[i], capacity) < Separation(SMALL_PRIMES[m], capacity)
  {
    BestAmongIsBest(capacity, n - 1);
    if BestAmong(capacity, n) == BestAmong(capacity, n - 1) {
      m := BestIndex(capacity, n - 1);
    } else {
      m := n - 1;
      OldBestAtLeastOne(capacity, n - 1);
    }
  }

  lemma {:induction false} OldBestAtLeastOne(capacity: nat, n: nat)
    requires capacity > 0 && n <= |SMALL_PRIMES|
    ensures SeparationOfBest(BestAmong(capacity, n), capacity) >= 1
  {
    if n > 0 {
      OldBestAtLeastOne(capacity, n - 1);
    }
  }

  lemma PrimesSorted(i: nat, j: nat)
    requires i < |SMALL_PRIMES| && j < |SMALL_PRIMES|
    ensures SMALL_PRIMES[i] < SMALL_PRIMES[j] <==> i < j
  {
  }

  /** Among strides of equal separation the smallest is kept, and 1 unless one does better. */
  lemma StrideIsFirstBest(capacity: nat, p: nat)
    requires capacity > 0 && Candidate(p, capacity)
    ensures StrideFor(capacity) == 1 ==> Separation(p, capacity) <= 1
    ensures StrideFor(capacity) != 1 ==>
              && Separation(StrideFor(capacity), capacity) > 1
              && (p < StrideFor(capacity) ==> Separation(p, capacity) < Separation(StrideFor(capacity), capacity))
  {
    StrideIsBest(capacity);
    if StrideFor(capacity) != 1 {
      var m := BestIndex(capacity, |SMALL_PRIMES|);
      var i: nat :| i < |SMALL_PRIMES| && SMALL_PRIMES[i] == p;
      PrimesSorted(i, m);
    }
  }

  /** The table holds exactly the primes below 24. */
  lemma SmallPrimesComplete(p: nat)
    requires 2 <= p < 24
    ensures p in SMALL_PRIMES <==> NoDivisorUpTo(p, p - 1)
  {
    if p in SMALL_PRIMES {
      SmallPrimesArePrime(p);
    } else if NoDivisorUpTo(p, p - 1) {
      var d := if p % 2 == 0 then 2 else 3;
      NoDivisorUpToAt(p, p - 1, d);
    }
  }

  predicate NoDivisorUpTo(p: nat, k: nat) {
    k <= 1 || (p % k != 0 && NoDivisorUpTo(p, k - 1))
  }

  lemma {:induction false} NoDivisorUpToAt(p: nat, k: nat, d: nat)
    requires NoDivisorUpTo(p, k) && 1 < d <= k
    ensures p % d != 0
  {
    if d < k {
      NoDivisorUpToAt(p, k - 1, d);
    }
  }

  lemma SmallPrimesArePrime(p: nat)
    requires p in SMALL_PRIMES
    ensures p > 1 && NoDivisorUpTo(p, p - 1)
  {
    assert NoDivisorUpTo(2, 1) && NoDivisorUpTo(3, 2) && NoDivisorUpTo(5, 4) && NoDivisorUpTo(7, 6);
    assert NoDivisorUpTo(11, 10) && NoDivisorUpTo(13, 12) && NoDivisorUpTo(17, 16);
    assert NoDivisorUpTo(19, 10);
    assert NoDivisorUpTo(19, 18);
    assert NoDivisorUpTo(23, 12);
    assert NoDivisorUpTo(23, 22);
  }

  lemma PrimeCoprime(p: nat, capacity: nat)
    requires p in SMALL_PRIMES && capacity > 0
    ensures p > 1
    ensures capacity % p != 0 ==> Coprime(p, capacity)
  {
    SmallPrimesArePrime(p);
    if capacity % p != 0 {
      forall d: nat | d > 1 && Divides(d, p) ensures !Divides(d, capacity) {
        DividesIffMod(d, p);
        if d < p {
          NoDivisorUpToAt(p, p - 1, d);
        }
        DividesIffMod(p, capacity);
      }
    }
  }

  /** For every capacity the stride shares no divisor with it. */
  lemma StrideIsCoprime(capacity: nat)
    requires capacity > 0
    ensures StrideFor(capacity) >= 1
    ensures Coprime(StrideFor(capacity), capacity)
  {
    StrideIsBest(capacity);
    var s := StrideFor(capacity);
    if s == 1 {
      forall d: nat | d > 1 ensures !Divides(d, 1) {
        DividesIffMod(d, 1);
      }
    } else {
      PrimeCoprime(s, capacity);
    }
  }

  /** Slot index of a ticket; the padding at both ends of the slots array is not counted. */
  function Idx(ticket: nat, cap: nat, stride: nat): (i: nat)
    requires cap > 0
    ensures i < cap
  {
    (ticket * stride) % cap
  }

  function Turn(ticket: nat, cap: nat): nat
    requires cap > 0
  {
    ticket / cap
  }

  /** How far apart two slots are, going round the array the shorter way. */
  function Distance(i: nat, j: nat, cap: nat): int
    requires i < cap && j < cap
  {
    var d := if i <= j then j - i else i - j;
    if d <= cap - d then d else cap - d
  }

  /** The separation the search maximizes is the distance between the slots of consecutive tickets. */
  lemma SeparationIsDistance(t: nat, cap: nat, stride: nat)
    requires cap > 0
    ensures Distance(Idx(t, cap, stride), Idx(t + 1, cap, stride), cap) == Separation(stride, cap)
  {
    var i, s := Idx(t, cap, stride), stride % cap;
    assert t * stride == cap * ((t * stride) / cap) + i;
    assert stride == cap * (stride / cap) + s;
    var k := (t * stride) / cap + stride / cap;
    assert (t + 1) * stride == t * stride + stride;
    Distribute(cap, (t * stride) / cap, stride / cap);
    assert (t + 1) * stride == (i + s) + cap * k;
    ModOfSum(i + s, k, cap);
    WrapAround(i + s, cap);
  }

  lemma WrapAround(x: nat, cap: nat)
    requires 0 < cap && x < 2 * cap
    ensures x % cap == if x < cap then x else x - cap
  {
  }

  /** Among any cap consecutive tickets no two share a slot. */
  lemma IdxInjectiveInWindow(t1: nat, t2: nat, cap: nat, stride: nat)
    requires cap > 0 && Coprime(stride, cap)
    requires 0 - cap < t1 - t2 < cap
    requires Idx(t1, cap, stride) == Idx(t2, cap, stride)
    ensures t1 == t2
  {
    SameRemainder(t1 * stride, t2 * stride, cap);
    assert t1 * stride - t2 * stride == (t1 - t2) * stride;
    CancelCoprime(cap, stride, t1 - t2);
    var k :| t1 - t2 == cap * k;
    MultipleInRange(t1 - t2, k, cap);
  }

  /** Slot and turn together identify the ticket, over all tickets. */
  lemma SlotAndTurnInjective(t1: nat, t2: nat, cap: nat, stride: nat)
    requires cap > 0 && Coprime(stride, cap)
    requires Idx(t1, cap, stride) == Idx(t2, cap, stride) && Turn(t1, cap) == Turn(t2, cap)
    ensures t1 == t2
  {
    assert t1 == cap * (t1 / cap) + t1 % cap;
    assert t2 == cap * (t2 / cap) + t2 % cap;
    IdxInjectiveInWindow(t1, t2, cap, stride);
  }

  /** A ticket is determined by its turn and its place within the turn. */
  lemma TurnOf(turn: nat, r: nat, cap: nat)
    requires r < cap
    ensures Turn(cap * turn + r, cap) == turn
  {
    var t := cap * turn + r;
    assert t == cap * (t / cap) + t % cap;
    assert cap * (t / cap - turn) == r - t % cap;
    MultipleInRange(r - t % cap, t / cap - turn, cap);
  }

  /** Shifting a ticket by whole turns does not move it to another slot. */
  lemma IdxShift(x: int, k: int, cap: nat, stride: nat)
    requires cap > 0
    ensures ((x + cap * k) * stride) % cap == (x * stride) % cap
  {
    assert (x + cap * k) * stride == x * stride + cap * (k * stride) by {
      assert (cap * k) * stride == cap * (k * stride);
    }
    ModOfSum(x * stride, k * stride, cap);
  }

  /** The place within a turn that lands on slot i: i times the inverse of the stride. */
  lemma PlaceOf(i: nat, cap: nat, stride: nat) returns (r: nat)
    requires cap > 0 && Coprime(stride, cap) && i < cap
    ensures r < cap && (r * stride) % cap == i
  {
    var u, w := InverseExists(cap, stride);
    var x := i * u;
    r := x % cap;
    assert x == r + cap * (x / cap);
    IdxShift(r, x / cap, cap, stride);
    ScaleInverse(cap, stride, i, u, w);
    ModOfSum(i, i * w, cap);
    SmallMod(i, cap);
  }

  /** Every slot is used in every turn, by exactly one ticket of that turn. */
  lemma SlotAndTurnSurjective(i: nat, turn: nat, cap: nat, stride: nat) returns (t: nat)
    requires cap > 0 && Coprime(stride, cap) && i < cap
    ensures Idx(t, cap, stride) == i && Turn(t, cap) == turn
    ensures forall t': nat :: Idx(t', cap, stride) == i && Turn(t', cap) == turn ==> t' == t
  {
    var r := PlaceOf(i, cap, stride);
    t := cap * turn + r;
    TurnOf(turn, r, cap);
    IdxShift(r, turn, cap, stride);
    forall t': nat | Idx(t', cap, stride) == i && Turn(t', cap) == turn ensures t' == t {
      SlotAndTurnInjective(t', t, cap, stride);
    }
  }

  /** The ticket cap later comes back to the same slot one turn later. */
  lemma NextLap(t: nat, cap: nat, stride: nat)
    requires cap > 0
    ensures Idx(t + cap, cap, stride) == Idx(t, cap, stride)
    ensures Turn(t + cap, cap) == Turn(t, cap) + 1
  {
    IdxShift(t, 1, cap, stride);
    assert t == cap * (t / cap) + t % cap;
    assert cap * (t / cap + 1) == cap * (t / cap) + cap;
    TurnOf(t / cap + 1, t % cap, cap);
  }

  // The source computes the index in 64 bits and the doubled turn in 32 bits.

  const TWO_32: nat := 0x1_0000_0000
  const TWO_64: nat := 0x1_0000_0000_0000_0000

  function Idx64(ticket: nat, cap: nat, stride: nat): nat
    requires cap > 0
  {
    ((ticket * stride) % TWO_64) % cap
  }

  function EnqueueTurn32(ticket: nat, cap: nat): nat
    requires cap > 0
  {
    ((ticket / cap) % TWO_32) * 2 % TWO_32
  }

  function DequeueTurn32(ticket: nat, cap: nat): nat
    requires cap > 0
  {
    (((ticket / cap) % TWO_32) * 2 + 1) % TWO_32
  }

  /** Below the no-wrap bounds the machine arithmetic is the unbounded one, for every stride chosen. */
  lemma MachineArithmeticExact(ticket: nat, cap: nat)
    requires cap > 0 && ticket * 23 < TWO_64 && 2 * Turn(ticket, cap) + 1 < TWO_32
    ensures Idx64(ticket, cap, StrideFor(cap)) == Idx(ticket, cap, StrideFor(cap))
    ensures EnqueueTurn32(ticket, cap) == 2 * Turn(ticket, cap)
    ensures DequeueTurn32(ticket, cap) == 2 * Turn(ticket, cap) + 1
  {
    StrideIsBest(cap);
    var s := StrideFor(cap);
    ScaleMonotone(ticket, s, 23);
    SmallMod(ticket * s, TWO_64);
    var k := Turn(ticket, cap);
    SmallMod(k, TWO_32);
    SmallMod(k * 2, TWO_32);
    SmallMod(k * 2 + 1, TWO_32);
  }

  lemma SmallMod(x: nat, m: nat)
    requires x < m
    ensures x % m == x
  {
  }
}
