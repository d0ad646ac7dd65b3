/**
 The blocking Baton: one poster and one waiter per lifetime, each access of state_ a step of its
 own. The futex sleeps only if the value is still the expected one, and may wake spuriously.
 */
module Baton {

  datatype Cell = INIT | EARLY_DELIVERY | WAITING | LATE_DELIVERY | TIMED_OUT

  /** post(): before loading, before the exchange, before storing LATE_DELIVERY, returned. */
  datatype Poster = NotCalled | BeforeCas | BeforeStore | Returned

  /** wait() or a timed wait: spinning, before futexWait, asleep, woken, past the deadline, returned. */
  datatype Waiter =
    | NotWaiting
    | Spinning(timed: bool)
    | BeforeSleep(timed: bool)
    | Asleep(timed: bool)
    | Woken(timed: bool)
    | PastDeadline
    | Finished(ok: bool, untimed: bool)

  /** posted: the delivery has been stored. wakes: futexWake calls still to come, of any lifetime. */
  datatype State = State(cell: Cell, poster: Poster, waiter: Waiter, posted: bool, wakes: nat)

  const FRESH: State := State(INIT, NotCalled, NotWaiting, false, 0)

  datatype Step =
    | PostLoad
    | PostCas
    | PostStore
    | Wake
    | TryWait(waiting: bool, timed: bool)
    | SpinReady
    | SpinTimeout
    | BlockCas
    | FutexWait
    | Spurious
    | DeadlinePasses
    | StoreTimedOut
    | LoadAfterWake
    | Reset

  predicate IsPostStep(step: Step) {
    step.PostLoad? || step.PostCas? || step.PostStore?
  }

  predicate Enabled(s: State, step: Step) {
    match step
    case PostLoad => s.poster.NotCalled?
    case PostCas => s.poster.BeforeCas?
    case PostStore => s.poster.BeforeStore?
    case Wake => s.wakes > 0
    case TryWait(_, _) => s.waiter.NotWaiting?
    case SpinReady => s.waiter.Spinning? && (s.cell.EARLY_DELIVERY? || s.cell.LATE_DELIVERY?)
    case SpinTimeout => s.waiter.Spinning? && s.waiter.timed
    case BlockCas => s.waiter.Spinning?
    case FutexWait => s.waiter.BeforeSleep?
    case Spurious => s.waiter.Asleep?
    case DeadlinePasses => (s.waiter.Asleep? || s.waiter.BeforeSleep?) && s.waiter.timed
    case StoreTimedOut => s.waiter.PastDeadline?
    case LoadAfterWake => s.waiter.Woken?
    case Reset => s.waiter.Finished? && (s.poster.NotCalled? || s.poster.Returned?)
  }

  /** What post() does with the value it has seen. */
  function AfterSeeing(s: State, before: Cell): State {
    s.(poster := if before.TIMED_OUT? then Returned else BeforeStore)
  }

  function Apply(s: State, step: Step): State
    requires Enabled(s, step)
  {
    match step
    case PostLoad => if s.cell.INIT? then s.(poster := BeforeCas) else AfterSeeing(s, s.cell)
    case PostCas =>
      if s.cell.INIT? then s.(cell := EARLY_DELIVERY, poster := Returned, posted := true)
      else AfterSeeing(s, s.cell)
    case PostStore => s.(cell := LATE_DELIVERY, poster := Returned, posted := true, wakes := s.wakes + 1)
    case Wake => s.(wakes := s.wakes - 1, waiter := if s.waiter.Asleep? then Woken(s.waiter.timed) else s.waiter)
    case TryWait(waiting, timed) =>
      if s.cell.EARLY_DELIVERY? then s.(waiter := Finished(true, !timed))
      else if waiting then s.(waiter := Spinning(timed))
      else s
    case SpinReady => s.(waiter := Finished(true, !s.waiter.timed))
    case SpinTimeout => s.(waiter := Finished(false, !s.waiter.timed))
    case BlockCas =>
      if s.cell.INIT? then s.(cell := WAITING, waiter := BeforeSleep(s.waiter.timed))
      else s.(waiter := Finished(true, !s.waiter.timed))
    case FutexWait => s.(waiter := if s.cell.WAITING? then Asleep(s.waiter.timed) else Woken(s.waiter.timed))
    case Spurious => s.(waiter := Woken(s.waiter.timed))
    case DeadlinePasses => s.(waiter := PastDeadline)
    case StoreTimedOut => s.(cell := TIMED_OUT, waiter := Finished(false, false))
    case LoadAfterWake =>
      if s.cell.LATE_DELIVERY? then s.(waiter := Finished(true, !s.waiter.timed))
      else s.(waiter := BeforeSleep(s.waiter.timed))
    case Reset => FRESH.(wakes := s.wakes)
  }

  /**
   The assert the source makes at each step; the reset and destructor assert is state_ != WAITING.
   That a futex without a deadline does not report a timeout is an assumption about the futex.
   */
  predicate AssertHolds(s: State, step: Step)
    requires Enabled(s, step)
  {
    match step
    case PostLoad => s.cell.INIT? || s.cell.WAITING? || s.cell.TIMED_OUT?
    case PostCas => s.cell.INIT? || s.cell.WAITING? || s.cell.TIMED_OUT?
    case TryWait(_, _) => s.cell.INIT? || s.cell.EARLY_DELIVERY?
    case BlockCas => s.cell.INIT? || s.cell.EARLY_DELIVERY?
    case LoadAfterWake => s.cell.WAITING? || s.cell.LATE_DELIVERY?
    case Reset => !s.cell.WAITING?
    case _ => true
  }

  predicate Blocking(w: Waiter) {
    w.BeforeSleep? || w.Asleep? || w.Woken? || w.PastDeadline?
  }

  predicate GaveUp(w: Waiter) {
    w.Finished? && !w.ok
  }

  predicate Inv(s: State) {
    && (s.waiter.NotWaiting? || s.waiter.Spinning? ==> s.cell.INIT? || s.cell.EARLY_DELIVERY?)
    && (Blocking(s.waiter) ==> s.cell.WAITING? || s.cell.LATE_DELIVERY?)
    && (s.waiter.Finished? && s.waiter.ok ==> s.posted)
    && (s.cell.EARLY_DELIVERY? || s.cell.LATE_DELIVERY? ==> s.posted)
    && (s.posted && !GaveUp(s.waiter) ==> s.cell.EARLY_DELIVERY? || s.cell.LATE_DELIVERY?)
    && (s.posted ==> s.poster.Returned?)
    && (s.poster.Returned? && !s.posted ==> s.cell.TIMED_OUT?)
    && (s.poster.BeforeStore? ==> s.cell.WAITING? || s.cell.TIMED_OUT?)
    && (s.cell.TIMED_OUT? ==> GaveUp(s.waiter))
    && (s.cell.WAITING? ==> Blocking(s.waiter))
    && (s.waiter.Asleep? && s.cell.LATE_DELIVERY? ==> s.wakes > 0)
    && (GaveUp(s.waiter) ==> !s.waiter.untimed)
  }

  lemma StepInv(s: State, step: Step)
    requires Inv(s) && Enabled(s, step)
    ensures AssertHolds(s, step) && Inv(Apply(s, step))
  {
  }

  ghost predicate Next(s: State, s': State) {
    exists step :: Enabled(s, step) && s' == Apply(s, step)
  }

  ghost predicate StepAt(trace: seq<State>, i: nat)
    requires i + 1 < |trace|
  {
    Next(trace[i], trace[i + 1])
  }

  ghost predicate Run(trace: seq<State>) {
    && |trace| > 0 && trace[0] == FRESH
    && forall i: nat :: i + 1 < |trace| ==> StepAt(trace, i)
  }

  lemma {:induction false} RunInv(trace: seq<State>, i: nat)
    requires Run(trace) && i < |trace|
    ensures Inv(trace[i])
  {
    if i > 0 {
      RunInv(trace, i - 1);
      assert StepAt(trace, i - 1);
      var step :| Enabled(trace[i - 1], step) && trace[i] == Apply(trace[i - 1], step);
      StepInv(trace[i - 1], step);
    }
  }

  /** No assert of post, try_wait, tryWaitSlow or reset can fail in any run. */
  lemma AssertsHold(trace: seq<State>, i: nat, step: Step)
    requires Run(trace) && i < |trace| && Enabled(trace[i], step)
    ensures AssertHolds(trace[i], step)
  {
    RunInv(trace, i);
    StepInv(trace[i], step);
  }

  /** A wait that returns true, and any untimed wait that returns, returns after the delivery was stored. */
  lemma ReturnMeansPosted(trace: seq<State>, i: nat)
    requires Run(trace) && i < |trace| && trace[i].waiter.Finished?
    ensures trace[i].waiter.ok || trace[i].waiter.untimed ==> trace[i].posted
    ensures trace[i].waiter.untimed ==> trace[i].waiter.ok
  {
    RunInv(trace, i);
  }

  /** A sleeping waiter is never left behind: the delivery or its wake is still to come. */
  lemma SleeperWillBeWoken(trace: seq<State>, i: nat)
    requires Run(trace) && i < |trace| && trace[i].waiter.Asleep?
    ensures trace[i].cell.WAITING? || (trace[i].cell.LATE_DELIVERY? && trace[i].wakes > 0)
    ensures trace[i].poster.Returned? ==> trace[i].wakes > 0
  {
    RunInv(trace, i);
  }

  // post() and the waits as code

  predicate IsWaiterStep(step: Step) {
    || step.TryWait? || step.SpinReady? || step.SpinTimeout? || step.BlockCas? || step.FutexWait?
    || step.DeadlinePasses? || step.StoreTimedOut? || step.LoadAfterWake?
  }

  /** Steps other threads, or the kernel, may take while the poster or the waiter is in its call. */
  predicate IsForeign(step: Step, poster: bool) {
    !step.Reset? && if poster then !IsPostStep(step) else !IsWaiterStep(step)
  }

  /** What foreign steps leave alone: the poster, or the waiter unless it is asleep; and a delivery. */
  predicate Undisturbed(s: State, s': State, poster: bool) {
    && (s.posted ==> s'.posted)
    && if poster then s'.poster == s.poster
       else s'.waiter == s.waiter || (s.waiter.Asleep? && s'.waiter == Woken(s.waiter.timed))
  }

  lemma ForeignStep(s0: State, s: State, step: Step, poster: bool)
    requires Undisturbed(s0, s, poster) && IsForeign(step, poster) && Enabled(s, step)
    ensures Undisturbed(s0, Apply(s, step), poster)
  {
  }

  lemma RunExtends(trace: seq<State>, step: Step)
    requires Run(trace) && Enabled(trace[|trace| - 1], step)
    ensures Run(trace + [Apply(trace[|trace| - 1], step)])
  {
    var longer := trace + [Apply(trace[|trace| - 1], step)];
    forall i: nat | i + 1 < |longer| ensures StepAt(longer, i) {
      if i + 1 < |trace| {
        assert StepAt(trace, i);
      }
    }
  }

  class SharedBaton {
    var s: State
    ghost var trace: seq<State>

    ghost predicate Valid()
      reads this
    {
      Run(trace) && trace[|trace| - 1] == s
    }

    constructor ()
      ensures Valid() && s == FRESH
    {
      s := FRESH;
      trace := [FRESH];
    }

    method Perform(step: Step)
      requires Valid() && Enabled(s, step)
      modifies this
      ensures Valid() && old(trace) <= trace && s == Apply(old(s), step)
      ensures AssertHolds(old(s), step) && Inv(s)
    {
      AssertsHold(trace, |trace| - 1, step);
      RunExtends(trace, step);
      s := Apply(s, step);
      trace := trace + [s];
      RunInv(trace, |trace| - 1);
    }

    /** Foreign steps, at most as many as the budget; the methods below rely only on this contract. */
    method Interfere(poster: bool, budget: nat) returns (left: nat)
      requires Valid()
      modifies this
      ensures Valid() && Inv(s) && old(trace) <= trace
      ensures left <= budget && (left == budget ==> s == old(s))
      ensures Undisturbed(old(s), s, poster)
    {
      var burst: seq<Step> := *;
      left := budget;
      RunInv(trace, |trace| - 1);
      for i := 0 to |burst|
        invariant Valid() && Inv(s) && old(trace) <= trace
        invariant left <= budget && (left == budget ==> s == old(s))
        invariant Undisturbed(old(s), s, poster)
      {
        if left > 0 && IsForeign(burst[i], poster) && Enabled(s, burst[i]) {
          ForeignStep(old(s), s, burst[i], poster);
          Perform(burst[i]);
          left := left - 1;
        }
      }
    }

    /** When post() returns the delivery is stored, unless the waiter had given up before; its wake is not lost. */
    method Post(budget: nat)
      requires Valid() && s.poster.NotCalled?
      modifies this
      ensures Valid() && old(trace) <= trace && s.poster.Returned?
      ensures s.posted || (s.cell.TIMED_OUT? && GaveUp(s.waiter))
      ensures s.waiter.Asleep? ==> s.wakes > 0
    {
      var left := Interfere(true, budget);
      var before := s.cell;
      Perform(PostLoad);
      assert before.INIT? || before.WAITING? || before.TIMED_OUT?;
      left := Interfere(true, left);
      if before.INIT? {
        before := s.cell;
        Perform(PostCas);
        if before.INIT? {
          return;
        }
        left := Interfere(true, left);
      }
      assert before.WAITING? || before.TIMED_OUT?;
      if before.TIMED_OUT? {
        return;
      }
      Perform(PostStore);
    }

    /** The deadline passes in the futex. */
    method GiveUp(budget: nat)
      requires Valid() && (s.waiter.Asleep? || s.waiter.BeforeSleep?) && s.waiter.timed
      modifies this
      ensures Valid() && old(trace) <= trace && s.waiter == Finished(false, false)
    {
      Perform(DeadlinePasses);
      var left := Interfere(false, budget);
      Perform(StoreTimedOut);
    }

    /**
     wait(), or a timed wait. Returned means the call came back. It comes back with false only if at
     some instant of the call no delivery had been stored, and with true if one was from the start.
     If it did not come back although the others are out of steps, it is asleep and no delivery has
     been stored, or a wake is still to come.
     */
    method Wait(timed: bool, budget: nat) returns (returned: bool, ok: bool)
      requires Valid() && s.waiter.NotWaiting?
      modifies this
      ensures Valid() && old(trace) <= trace
      ensures returned ==> s.waiter == Finished(ok, !timed) && (ok ==> s.posted) && (!timed ==> ok)
      ensures returned && !ok ==> exists i :: |old(trace)| - 1 <= i < |trace| && !trace[i].posted
      ensures old(s.posted) ==> returned && ok
      ensures !returned ==> s.waiter == Asleep(timed) && (s.posted ==> s.wakes > 0)
    {
      var left := Interfere(false, budget);
      Perform(TryWait(true, timed));
      if s.waiter.Finished? {
        return true, true;
      }
      left := Interfere(false, left);
      var ready := s.cell.EARLY_DELIVERY? || s.cell.LATE_DELIVERY?;
      var spinsOut: bool := *;
      if ready {
        Perform(SpinReady);
        return true, true;
      } else if timed && spinsOut {
        ghost var at := |trace| - 1;
        left := Interfere(false, left);
        Perform(SpinTimeout);
        assert !trace[at].posted;
        return true, false;
      }
      left := Interfere(false, left);
      Perform(BlockCas);
      if s.waiter.Finished? {
        return true, true;
      }
      returned, ok := Block(timed, left);
    }

    /** The loop around the futex. */
    method Block(timed: bool, budget: nat) returns (returned: bool, ok: bool)
      requires Valid() && s.waiter == BeforeSleep(timed)
      modifies this
      ensures Valid() && old(trace) <= trace
      ensures returned ==> s.waiter == Finished(ok, !timed) && (ok ==> s.posted) && (!timed ==> ok)
      ensures returned && !ok ==> exists i :: |old(trace)| - 1 <= i < |trace| && !trace[i].posted
      ensures !returned ==> s.waiter == Asleep(timed) && (s.posted ==> s.wakes > 0)
    {
      var left := budget;
      while true
        invariant Valid() && old(trace) <= trace && s.waiter == BeforeSleep(timed)
        decreases left
      {
        ghost var start := left;
        left := Interfere(false, left);
        Perform(FutexWait);
        if s.waiter.Asleep? {
          ghost var at := |trace| - 1;
          assert !trace[at].posted;
          left := Interfere(false, left);
          if s.waiter.Asleep? {
            var deadline: bool := *;
            if timed && deadline {
              GiveUp(left);
              assert !trace[at].posted;
              return true, false;
            }
            return false, false;
          }
          assert left < start;
        }
        var late := s.cell.LATE_DELIVERY?;
        Perform(LoadAfterWake);
        if late {
          return true, true;
        }
      }
    }
  }
}
