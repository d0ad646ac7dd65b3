/**
 Executor::KeepAlive tokens and DefaultKeepAliveExecutor: reference counting with weak
 references, and the shutdown hand-off through the release baton.
 */
module KeepAlive {
  import opened Counting
  import B = Baton

  // The storage word of a token: the executor's address with two flag bits

  const DUMMY_FLAG: nat := 1
  const ALIAS_FLAG: nat := 2

  /** What a word says: addresses of executors are multiples of 4. */
  datatype Token = Token(pointer: nat, dummy: bool, alias: bool)

  const EMPTY: Token := Token(0, false, false)

  function Storage(t: Token): nat {
    t.pointer + (if t.dummy then DUMMY_FLAG else 0) + (if t.alias then ALIAS_FLAG else 0)
  }

  function TokenOf(storage: nat): Token {
    Token(storage - storage % 4, storage % 2 == 1, (storage / 2) % 2 == 1)
  }

  /** Pointer and flags share the word without loss, both ways. */
  lemma WordRoundTrip(t: Token, storage: nat)
    ensures t.pointer % 4 == 0 ==> TokenOf(Storage(t)) == t
    ensures Storage(TokenOf(storage)) == storage && TokenOf(storage).pointer % 4 == 0
  {
  }

  /** get_alias(): the same word with the alias bit set. */
  function GetAlias(t: Token): Token {
    t.(alias := true)
  }

  /** operator bool tests the whole word, not the pointer. */
  predicate AsBool(t: Token) {
    Storage(t) != 0
  }

  /** Tokens whose reset() releases a count. */
  predicate Counted(t: Token) {
    t.pointer != 0 && !t.dummy && !t.alias
  }

  /** A token converts to true exactly when it points to an executor, unless it is a flagged null. */
  lemma AsBoolIffPointer(t: Token)
    ensures (AsBool(t) <==> t.pointer != 0) <==> !(t.pointer == 0 && (t.dummy || t.alias))
  {
  }

  /** The alias of an empty token is such a flagged null: it tests true and points nowhere. */
  lemma EmptyAliasTestsTrue()
    ensures AsBool(GetAlias(EMPTY)) && GetAlias(EMPTY).pointer == 0 && !AsBool(EMPTY)
  {
  }

  // The executor

  /** Where the owner is in joinKeepAlive and joinAndResetKeepAlive. */
  datatype Owner = Running | Joining | Joined | CountReset | BatonReset

  /** A thread inside WeakRef::lock with the count it has loaded. */
  datatype Locker = Locker(seen: nat)

  /**
   tokens: every KeepAlive variable that refers to this executor or is empty; SELF is keepAlive_,
   which counts from the exchange in joinAndResetKeepAlive on. posts: calls of post() due so far in
   this lifetime.
   */
  datatype State = State(
    count: nat,
    tokens: map<nat, Token>,
    lockers: map<nat, Locker>,
    owner: Owner,
    baton: B.State,
    posts: nat)

  const SELF: nat := 0

  /** makeKeepAlive: a counted token. */
  function Make(executor: nat): Token {
    Token(executor, false, false)
  }

  function Init(executor: nat): State {
    State(1, map[SELF := Make(executor)], map[], Running, B.FRESH, 0)
  }

  datatype Step =
    | Acquire(dst: nat)
    | CopyToken(src: nat, dst: nat)
    | MoveToken(src: nat, dst: nat)
    | MoveAssign(src: nat, dst: nat)
    | AliasToken(src: nat, dst: nat)
    | MakeDummy(dst: nat)
    | ResetToken(id: nat)
    | Destroy(id: nat)
    | LockLoad(tid: nat)
    | LockCas(tid: nat, dst: nat)
    | JoinRelease
    | BatonStep(b: B.Step)
    | JoinReturns
    | ExchangeCount
    | ResetBaton
    | RemakeSelf

  predicate User(s: State, id: nat) {
    id in s.tokens && id != SELF
  }

  predicate NewVariable(s: State, id: nat) {
    id !in s.tokens && id != SELF
  }

  predicate IsWaiterStep(b: B.Step) {
    b.TryWait? || b.SpinReady? || b.BlockCas? || b.FutexWait? || b.Spurious? || b.LoadAfterWake?
  }

  /** Tokens are acquired only from a nonzero count, as the source demands of its callers. */
  predicate Enabled(s: State, step: Step) {
    match step
    case Acquire(dst) => NewVariable(s, dst) && s.count > 0
    case CopyToken(src, dst) => src in s.tokens && NewVariable(s, dst) && (s.tokens[src].pointer != 0 ==> s.count > 0)
    case MoveToken(src, dst) => User(s, src) && NewVariable(s, dst)
    case MoveAssign(src, dst) => User(s, src) && User(s, dst)
    case AliasToken(src, dst) => src in s.tokens && NewVariable(s, dst)
    case MakeDummy(dst) => NewVariable(s, dst)
    case ResetToken(id) => User(s, id)
    case Destroy(id) => User(s, id)
    case LockLoad(tid) => tid !in s.lockers
    case LockCas(tid, dst) => tid in s.lockers && NewVariable(s, dst)
    case JoinRelease => s.owner.Running?
    case BatonStep(b) =>
      && B.Enabled(s.baton, b)
      && ((s.owner.Joining? && IsWaiterStep(b) && (b.TryWait? ==> b.waiting && !b.timed))
          || (s.posts > 0 && B.IsPostStep(b)) || b.Wake?)
    case JoinReturns => s.owner.Joining? && s.baton.waiter.Finished?
    case ExchangeCount => s.owner.Joined?
    case ResetBaton => s.owner.CountReset? && B.Enabled(s.baton, B.Reset)
    case RemakeSelf => s.owner.BatonReset?
  }

  /** keepAliveRelease(): whoever takes the count from 1 to 0 goes on to post the baton. */
  function Release(s: State): State
    requires s.count > 0
  {
    s.(count := s.count - 1, posts := if s.count == 1 then s.posts + 1 else s.posts)
  }

  /** reset(): clears the word and releases a counted token; a flagged null word stays as it is. */
  function Reset(s: State, id: nat): State
    requires id in s.tokens
  {
    if s.tokens[id].pointer == 0 then s
    else
      var s' := s.(tokens := s.tokens[id := EMPTY]);
      if Counted(s.tokens[id]) && s.count > 0 then Release(s') else s'
  }

  function Apply(executor: nat, s: State, step: Step): State
    requires Enabled(s, step)
  {
    match step
    case Acquire(dst) => s.(count := s.count + 1, tokens := s.tokens[dst := Make(executor)])
    case CopyToken(src, dst) =>
      if s.tokens[src].pointer == 0 then s.(tokens := s.tokens[dst := EMPTY])
      else s.(count := s.count + 1, tokens := s.tokens[dst := Make(executor)])
    case MoveToken(src, dst) => s.(tokens := s.tokens[dst := s.tokens[src]][src := EMPTY])
    case MoveAssign(src, dst) =>
      var s1 := Reset(s, dst);
      s1.(tokens := s1.tokens[dst := s1.tokens[src]][src := if src == dst then s1.tokens[src] else EMPTY])
    case AliasToken(src, dst) => s.(tokens := s.tokens[dst := GetAlias(s.tokens[src])])
    case MakeDummy(dst) => s.(tokens := s.tokens[dst := Token(executor, true, false)])
    case ResetToken(id) => Reset(s, id)
    case Destroy(id) => var s1 := Reset(s, id); s1.(tokens := s1.tokens - {id})
    case LockLoad(tid) => s.(lockers := s.lockers[tid := Locker(s.count)])
    case LockCas(tid, dst) =>
      var seen := s.lockers[tid].seen;
      if seen == 0 then s.(lockers := s.lockers - {tid}, tokens := s.tokens[dst := EMPTY])
      else if s.count == seen then
        s.(count := s.count + 1, lockers := s.lockers - {tid}, tokens := s.tokens[dst := Make(executor)])
      else s.(lockers := s.lockers[tid := Locker(s.count)])
    case JoinRelease => if SELF in s.tokens then Reset(s, SELF).(owner := Joining) else s.(owner := Joining)
    case BatonStep(b) => s.(baton := B.Apply(s.baton, b))
    case JoinReturns => s.(owner := Joined)
    case ExchangeCount => s.(count := 1, tokens := s.tokens[SELF := Make(executor)], owner := CountReset)
    case ResetBaton => s.(baton := B.Apply(s.baton, B.Reset), posts := 0, owner := BatonReset)
    case RemakeSelf => s.(owner := Running)
  }

  // Invariant

  function CountOf(): Token -> nat {
    (w: Token) => if Counted(w) then 1 else 0
  }

  predicate Untimed(w: B.Waiter) {
    match w
    case NotWaiting => true
    case Finished(_, untimed) => untimed
    case PastDeadline => false
    case _ => !w.timed
  }

  predicate OwnerHolds(owner: Owner) {
    owner.Running? || owner.CountReset? || owner.BatonReset?
  }

  /** The count is the number of live counted tokens, whatever aliases, dummies and empties there are. */
  ghost predicate CountInv(executor: nat, s: State) {
    && executor > 0
    && (forall id :: id in s.tokens ==> s.tokens[id].pointer == 0 || s.tokens[id].pointer == executor)
    && s.count == Sum(s.tokens, CountOf())
    && SELF in s.tokens
    && s.tokens[SELF] == (if OwnerHolds(s.owner) then Make(executor) else EMPTY)
  }

  /** A post is due exactly once the count has reached 0, and the owner leaves only after it. */
  predicate PostInv(s: State) {
    && B.Inv(s.baton) && Untimed(s.baton.waiter)
    && (s.owner.Running? || s.owner.BatonReset? ==> s.baton.waiter.NotWaiting?)
    && (s.owner.Joined? || s.owner.CountReset? ==> s.baton.waiter.Finished? && s.baton.waiter.ok)
    && (!s.baton.poster.NotCalled? ==> s.posts > 0)
    && s.posts == (if s.count == 0 || s.owner.CountReset? then 1 else 0)
  }

  ghost predicate Inv(executor: nat, s: State) {
    CountInv(executor, s) && PostInv(s)
  }

  lemma InitInv(executor: nat)
    requires executor > 0
    ensures Inv(executor, Init(executor))
  {
    var m := Init(executor).tokens;
    SumTakeOut(m, CountOf(), SELF);
    assert m - {SELF} == map[];
  }

  /** Resetting a token releases at most one count, and never the owner's. */
  lemma ResetInv(executor: nat, s: State, id: nat)
    requires Inv(executor, s) && id in s.tokens
    ensures var s' := Reset(s, id);
            && s'.count == Sum(s'.tokens, CountOf())
            && s'.tokens.Keys == s.tokens.Keys
            && (forall k :: k in s.tokens && k != id ==> s'.tokens[k] == s.tokens[k])
            && s'.tokens[id].pointer == 0
            && s' == s.(tokens := s'.tokens, count := s'.count, posts := s'.posts)
            && s'.posts == s.posts + (if s.count > 0 && s'.count == 0 then 1 else 0)
            && (Counted(s.tokens[id]) ==> s.count >= 1)
            && (id != SELF && OwnerHolds(s.owner) ==> s'.count >= 1)
  {
    SumSet(s.tokens, CountOf(), id, EMPTY);
    SumAtLeast(s.tokens, CountOf(), id);
    if id != SELF {
      SumAtLeast(s.tokens[id := EMPTY], CountOf(), SELF);
      SumAtLeast(s.tokens, CountOf(), SELF);
    }
  }

  /** A variable other than keepAlive_ takes a new value, and the count changes accordingly. */
  lemma AssignCount(executor: nat, s: State, id: nat, t: Token, s': State)
    requires CountInv(executor, s) && id != SELF && (t.pointer == 0 || t.pointer == executor)
    requires s'.tokens == s.tokens[id := t] && s'.owner == s.owner
    requires s'.count + (if id in s.tokens then CountOf()(s.tokens[id]) else 0) == s.count + CountOf()(t)
    ensures CountInv(executor, s')
  {
    SumSet(s.tokens, CountOf(), id, t);
  }

  /** Only the state of the count as zero or not matters to the baton. */
  lemma SamePosts(s: State, s': State)
    requires PostInv(s) && s'.baton == s.baton && s'.owner == s.owner && s'.posts == s.posts
    requires s'.count == 0 <==> s.count == 0
    ensures PostInv(s')
  {
  }

  predicate IsTokenStep(step: Step) {
    || step.Acquire? || step.CopyToken? || step.AliasToken? || step.MakeDummy?
    || step.LockLoad? || step.LockCas?
  }

  lemma TokenStepInv(executor: nat, s: State, step: Step)
    requires Inv(executor, s) && Enabled(s, step)
    requires IsTokenStep(step)
    ensures Inv(executor, Apply(executor, s, step))
  {
    var s' := Apply(executor, s, step);
    SamePosts(s, s');
    if !step.LockLoad? && step.dst in s'.tokens {
      AssignCount(executor, s, step.dst, s'.tokens[step.dst], s');
    }
  }

  /** Moving a token from one variable to another that holds no count changes nothing but the place. */
  lemma MoveInv(executor: nat, s: State, src: nat, dst: nat, s': State)
    requires Inv(executor, s) && User(s, src) && dst != SELF && dst != src
    requires dst in s.tokens ==> !Counted(s.tokens[dst])
    requires s' == s.(tokens := s.tokens[dst := s.tokens[src]][src := EMPTY])
    ensures Inv(executor, s')
  {
    var w := s.tokens[src];
    SumAtLeast(s.tokens, CountOf(), src);
    var s1 := s.(tokens := s.tokens[src := EMPTY], count := s.count - CountOf()(w));
    AssignCount(executor, s, src, EMPTY, s1);
    assert s'.tokens == s1.tokens[dst := w];
    AssignCount(executor, s1, dst, w, s');
    SamePosts(s, s');
  }

  lemma MoveStepInv(executor: nat, s: State, step: Step)
    requires Inv(executor, s) && Enabled(s, step) && (step.MoveToken? || step.MoveAssign?)
    ensures Inv(executor, Apply(executor, s, step))
  {
    var s' := Apply(executor, s, step);
    if step.MoveToken? {
      MoveInv(executor, s, step.src, step.dst, s');
    } else {
      var s1 := Reset(s, step.dst);
      ReleaseInv(executor, s, step.dst);
      if step.src == step.dst {
        assert s'.tokens == s1.tokens && s' == s1;
      } else {
        MoveInv(executor, s1, step.src, step.dst, s');
      }
    }
  }

  lemma ReleaseInv(executor: nat, s: State, id: nat)
    requires Inv(executor, s) && User(s, id)
    ensures Inv(executor, Reset(s, id)) && id in Reset(s, id).tokens && !Counted(Reset(s, id).tokens[id])
  {
    ResetInv(executor, s, id);
  }

  lemma ReleaseStepInv(executor: nat, s: State, step: Step)
    requires Inv(executor, s) && Enabled(s, step) && (step.ResetToken? || step.Destroy? || step.JoinRelease?)
    ensures Inv(executor, Apply(executor, s, step))
  {
    if step.JoinRelease? {
      ResetInv(executor, s, SELF);
    } else {
      ReleaseInv(executor, s, step.id);
      var s1 := Reset(s, step.id);
      if step.Destroy? {
        SumDrop(s1.tokens, CountOf(), step.id);
        SamePosts(s1, Apply(executor, s, step));
      }
    }
  }

  lemma OwnerStepInv(executor: nat, s: State, step: Step)
    requires Inv(executor, s) && Enabled(s, step)
    requires step.BatonStep? || step.JoinReturns? || step.ExchangeCount? || step.ResetBaton? || step.RemakeSelf?
    ensures Inv(executor, Apply(executor, s, step))
  {
    if step.BatonStep? {
      B.StepInv(s.baton, step.b);
    } else if step.ExchangeCount? {
      SumSet(s.tokens, CountOf(), SELF, Make(executor));
    } else if step.ResetBaton? {
      SumAtLeast(s.tokens, CountOf(), SELF);
    }
  }

  lemma StepInv(executor: nat, s: State, step: Step)
    requires Inv(executor, s) && Enabled(s, step)
    ensures Inv(executor, Apply(executor, s, step))
  {
    if IsTokenStep(step) {
      TokenStepInv(executor, s, step);
    } else if step.MoveToken? || step.MoveAssign? {
      MoveStepInv(executor, s, step);
    } else if step.ResetToken? || step.Destroy? || step.JoinRelease? {
      ReleaseStepInv(executor, s, step);
    } else {
      OwnerStepInv(executor, s, step);
    }
  }

  ghost predicate Next(executor: nat, s: State, s': State) {
    exists step :: Enabled(s, step) && s' == Apply(executor, s, step)
  }

  ghost predicate StepAt(executor: nat, trace: seq<State>, i: nat)
    requires i + 1 < |trace|
  {
    Next(executor, trace[i], trace[i + 1])
  }

  ghost predicate Run(executor: nat, trace: seq<State>) {
    && executor > 0 && |trace| > 0 && trace[0] == Init(executor)
    && forall i: nat :: i + 1 < |trace| ==> StepAt(executor, trace, i)
  }

  lemma {:induction false} RunInv(executor: nat, trace: seq<State>, i: nat)
    requires Run(executor, trace) && i < |trace|
    ensures Inv(executor, trace[i])
  {
    if i == 0 {
      InitInv(executor);
    } else {
      RunInv(executor, trace, i - 1);
      assert StepAt(executor, trace, i - 1);
      var step :| Enabled(trace[i - 1], step) && trace[i] == Apply(executor, trace[i - 1], step);
      StepInv(executor, trace[i - 1], step);
    }
  }

  /** In every run the count is exact, and the baton is posted at most once per lifetime, when it reaches 0. */
  lemma CountIsExact(executor: nat, trace: seq<State>, i: nat)
    requires Run(executor, trace) && i < |trace|
    ensures trace[i].count == Sum(trace[i].tokens, CountOf())
    ensures trace[i].posts <= 1
    ensures trace[i].count == 0 ==> trace[i].posts == 1
    ensures trace[i].posts == 1 && !trace[i].owner.CountReset? ==> trace[i].count == 0
    ensures !trace[i].baton.poster.NotCalled? || trace[i].baton.posted ==> trace[i].posts == 1
  {
    RunInv(executor, trace, i);
  }

  /** When joinKeepAlive has returned there is no counted token, and the exchange finds 0. */
  lemma JoinedMeansNoToken(executor: nat, trace: seq<State>, i: nat, id: nat)
    requires Run(executor, trace) && i < |trace| && trace[i].owner.Joined?
    ensures trace[i].count == 0
    ensures id in trace[i].tokens ==> !Counted(trace[i].tokens[id])
  {
    RunInv(executor, trace, i);
    if id in trace[i].tokens {
      SumAtLeast(trace[i].tokens, CountOf(), id);
    }
  }

  /** And until the owner resets it, no step of anyone makes one: every weak lock comes back empty. */
  lemma JoinedStaysEmpty(executor: nat, trace: seq<State>, i: nat, step: Step)
    requires Run(executor, trace) && i < |trace| && trace[i].owner.Joined?
    requires Enabled(trace[i], step) && !step.ExchangeCount?
    ensures var s' := Apply(executor, trace[i], step);
            && s'.owner.Joined? && s'.count == 0
            && (step.LockLoad? ==> s'.lockers[step.tid].seen == 0)
            && (step.LockCas? && step.dst in s'.tokens ==> !Counted(s'.tokens[step.dst]))
  {
    RunInv(executor, trace, i);
    StepInv(executor, trace[i], step);
    var s' := Apply(executor, trace[i], step);
    assert s'.owner.Joined?;
    if step.LockCas? && step.dst in s'.tokens {
      SumAtLeast(s'.tokens, CountOf(), step.dst);
    }
  }

  /** The checks of keepAliveRelease and of the baton hold whenever they are made. */
  lemma ChecksHold(executor: nat, trace: seq<State>, i: nat, step: Step)
    requires Run(executor, trace) && i < |trace| && Enabled(trace[i], step)
    ensures (step.ResetToken? || step.Destroy?) && Counted(trace[i].tokens[step.id]) ==> trace[i].count >= 1
    ensures step.BatonStep? ==> B.AssertHolds(trace[i].baton, step.b)
    ensures step.ResetBaton? ==> B.AssertHolds(trace[i].baton, B.Reset)
  {
    RunInv(executor, trace, i);
    if step.ResetToken? || step.Destroy? {
      SumAtLeast(trace[i].tokens, CountOf(), step.id);
    } else if step.BatonStep? {
      B.StepInv(trace[i].baton, step.b);
    } else if step.ResetBaton? {
      B.StepInv(trace[i].baton, B.Reset);
    }
  }

  // What a token is good for

  /** An alias has its token's executor and dummy bit, and its reset releases nothing. */
  lemma AliasHoldsNothing(executor: nat, s: State, step: Step, id: nat)
    requires Inv(executor, s) && step.AliasToken? && Enabled(s, step)
    ensures var a, t := GetAlias(s.tokens[step.src]), s.tokens[step.src];
            && a.pointer == t.pointer && a.dummy == t.dummy && !Counted(a)
            && Storage(a) == Storage(t) + if t.alias then 0 else ALIAS_FLAG
    ensures var s' := Apply(executor, s, step);
            && s'.tokens == s.tokens[step.dst := GetAlias(s.tokens[step.src])] && s'.count == s.count
            && Reset(s', step.dst).count == s.count && Reset(s', step.dst).posts == s.posts
  {
  }

  /** The step makes a new token from the executor or from one that has it. */
  predicate MakesToken(s: State, step: Step) {
    || step.Acquire?
    || (step.CopyToken? && step.src in s.tokens && s.tokens[step.src].pointer != 0)
    || (step.LockCas? && step.tid in s.lockers && s.lockers[step.tid].seen > 0 && s.lockers[step.tid].seen == s.count)
  }

  /** Copies, acquisitions and successful weak locks each hold one count more; other tokens stay. */
  lemma NewTokenCounts(executor: nat, s: State, step: Step)
    requires Inv(executor, s) && Enabled(s, step) && MakesToken(s, step)
    ensures var s' := Apply(executor, s, step);
            && s'.count == s.count + 1
            && step.dst in s'.tokens && Counted(s'.tokens[step.dst]) && s'.tokens[step.dst].pointer == executor
            && s'.tokens - {step.dst} == s.tokens
  {
    assert s.tokens - {step.dst} == s.tokens;
  }

  /** A copy of an empty token, or a weak lock that has seen 0, is empty and changes nothing else. */
  lemma NoTokenFromNone(executor: nat, s: State, step: Step)
    requires Enabled(s, step)
    requires (step.CopyToken? && s.tokens[step.src].pointer == 0) || (step.LockCas? && s.lockers[step.tid].seen == 0)
    ensures var s' := Apply(executor, s, step);
            s'.tokens == s.tokens[step.dst := EMPTY] && s'.count == s.count && s'.posts == s.posts
  {
  }

  /**
   Move assignment hands the token over and releases what the target held before; assigning a token
   to itself releases it.
   */
  lemma MoveAssignHandsOver(executor: nat, s: State, step: Step)
    requires Inv(executor, s) && step.MoveAssign? && Enabled(s, step)
    ensures var s' := Apply(executor, s, step);
            && s'.count == s.count - CountOf()(s.tokens[step.dst])
            && (step.src != step.dst ==> s'.tokens[step.dst] == s.tokens[step.src] && s'.tokens[step.src] == EMPTY)
            && (step.src == step.dst ==> s'.tokens[step.dst].pointer == 0)
            && (forall id :: id in s.tokens && id != step.src && id != step.dst ==> id in s'.tokens && s'.tokens[id] == s.tokens[id])
  {
    SumAtLeast(s.tokens, CountOf(), step.dst);
  }

  /** The owner is not past the wait of joinKeepAlive. */
  predicate Alive(s: State) {
    !s.owner.Joined? && s.count > 0
  }

  /** The step resets, destroys, moves from or assigns to variable id. */
  predicate Disposes(step: Step, id: nat) {
    match step
    case ResetToken(i) => i == id
    case Destroy(i) => i == id
    case MoveToken(src, _) => src == id
    case MoveAssign(src, dst) => src == id || dst == id
    case _ => false
  }

  ghost predicate KeepsStep(executor: nat, s: State, s': State, id: nat) {
    exists step :: Enabled(s, step) && !Disposes(step, id) && s' == Apply(executor, s, step)
  }

  lemma UndisturbedToken(executor: nat, s: State, s': State, id: nat)
    requires KeepsStep(executor, s, s', id) && id in s.tokens && id != SELF && SELF in s.tokens
    ensures id in s'.tokens && s'.tokens[id] == s.tokens[id]
  {
  }

  lemma HolderMeansAlive(executor: nat, s: State, id: nat)
    requires Inv(executor, s) && id in s.tokens && Counted(s.tokens[id])
    ensures s.count > 0 && !s.owner.Joined? && (s.owner.Joining? ==> !s.baton.posted && s.posts == 0)
  {
    SumAtLeast(s.tokens, CountOf(), id);
    if id != SELF && s.owner.CountReset? {
      assert s.tokens[SELF] == Make(executor);
    }
  }

  ghost predicate HeldAt(trace: seq<State>, i: nat, id: nat, t: Token) {
    i < |trace| && id in trace[i].tokens && trace[i].tokens[id] == t
  }

  ghost predicate KeepsAt(executor: nat, trace: seq<State>, i: nat, id: nat)
    requires i + 1 < |trace|
  {
    KeepsStep(executor, trace[i], trace[i + 1], id)
  }

  lemma HeldNext(executor: nat, trace: seq<State>, i: nat, id: nat, t: Token)
    requires i + 1 < |trace| && KeepsAt(executor, trace, i, id) && HeldAt(trace, i, id, t)
    requires id != SELF && SELF in trace[i].tokens
    ensures HeldAt(trace, i + 1, id, t)
  {
    UndisturbedToken(executor, trace[i], trace[i + 1], id);
  }

  lemma SelfStays(executor: nat, trace: seq<State>, i: nat)
    requires Run(executor, trace) && i < |trace|
    ensures SELF in trace[i].tokens
  {
    RunInv(executor, trace, i);
  }

  lemma HeldThroughout(executor: nat, trace: seq<State>, i: nat, j: nat, id: nat, t: Token)
    requires Run(executor, trace) && i <= j < |trace| && id != SELF && HeldAt(trace, i, id, t)
    requires forall k: nat :: i <= k < j ==> KeepsAt(executor, trace, k, id)
    ensures HeldAt(trace, j, id, t)
  {
    var k := i;
    while k < j
      invariant i <= k <= j && HeldAt(trace, k, id, t)
    {
      SelfStays(executor, trace, k);
      HeldNext(executor, trace, k, id, t);
      k := k + 1;
    }
  }

  /**
   A counted token keeps the executor: from its making on, until it is reset, destroyed, moved from or
   assigned to, it stays as it is, and joinKeepAlive cannot return, nor is its baton posted.
   */
  lemma HolderKeepsExecutor(executor: nat, trace: seq<State>, i: nat, j: nat, id: nat)
    requires Run(executor, trace) && i <= j < |trace|
    requires id in trace[i].tokens && Counted(trace[i].tokens[id]) && id != SELF
    requires forall k: nat :: i <= k < j ==> KeepsAt(executor, trace, k, id)
    ensures id in trace[j].tokens && trace[j].tokens[id] == trace[i].tokens[id] && trace[j].tokens[id].pointer == executor
    ensures Alive(trace[j]) && (trace[j].owner.Joining? ==> !trace[j].baton.posted)
  {
    HeldThroughout(executor, trace, i, j, id, trace[i].tokens[id]);
    RunInv(executor, trace, j);
    HolderMeansAlive(executor, trace[j], id);
  }

  // WeakRef::lock as code

  /** Steps of thread tid's call, or ones that would use its result variable. */
  predicate IsOwn(step: Step, tid: nat, dst: nat) {
    match step
    case Acquire(d) => d == dst
    case CopyToken(_, d) => d == dst
    case MoveToken(_, d) => d == dst
    case AliasToken(_, d) => d == dst
    case MakeDummy(d) => d == dst
    case LockLoad(t) => t == tid
    case LockCas(t, d) => t == tid || d == dst
    case _ => false
  }

  /** Thread tid is in lock() having loaded the count, and its result variable is still to be made. */
  predicate InLock(s: State, tid: nat, dst: nat, seen: nat) {
    tid in s.lockers && s.lockers[tid].seen == seen && NewVariable(s, dst)
  }

  lemma ForeignStep(executor: nat, s: State, step: Step, tid: nat, dst: nat, seen: nat)
    requires InLock(s, tid, dst, seen) && Enabled(s, step) && !IsOwn(step, tid, dst)
    requires SELF in s.tokens
    ensures InLock(Apply(executor, s, step), tid, dst, seen)
  {
  }

  lemma RunExtends(executor: nat, trace: seq<State>, step: Step)
    requires Run(executor, trace) && Enabled(trace[|trace| - 1], step)
    ensures Run(executor, trace + [Apply(executor, trace[|trace| - 1], step)])
  {
    var longer := trace + [Apply(executor, trace[|trace| - 1], step)];
    forall i: nat | i + 1 < |longer| ensures StepAt(executor, longer, i) {
      if i + 1 < |trace| {
        assert StepAt(executor, trace, i);
      }
    }
  }

  class ControlBlock {
    const executor: nat
    var s: State
    ghost var trace: seq<State>

    ghost predicate Valid()
      reads this
    {
      Run(executor, trace) && trace[|trace| - 1] == s
    }

    constructor (address: nat)
      requires address > 0
      ensures Valid() && executor == address && s == Init(address)
    {
      executor := address;
      s := Init(address);
      trace := [Init(address)];
    }

    method Perform(step: Step)
      requires Valid() && Enabled(s, step)
      modifies this`s, this`trace
      ensures Valid() && trace == old(trace) + [s] && s == Apply(executor, old(s), step)
    {
      RunExtends(executor, trace, step);
      s := Apply(executor, s, step);
      trace := trace + [s];
    }

    /** Steps of other threads, at most as many as the budget; Lock relies only on this contract. */
    method Interfere(tid: nat, dst: nat, seen: nat, budget: nat) returns (left: nat)
      requires Valid() && InLock(s, tid, dst, seen)
      modifies this`s, this`trace
      ensures Valid() && old(trace) <= trace && InLock(s, tid, dst, seen)
      ensures left <= budget && (left == budget ==> s == old(s))
    {
      var burst: seq<Step> := *;
      left := budget;
      for i := 0 to |burst|
        invariant Valid() && old(trace) <= trace && InLock(s, tid, dst, seen)
        invariant left <= budget && (left == budget ==> s == old(s))
      {
        if left > 0 && Enabled(s, burst[i]) && !IsOwn(burst[i], tid, dst) {
          RunInv(executor, trace, |trace| - 1);
          ForeignStep(executor, s, burst[i], tid, dst, seen);
          Perform(burst[i]);
          left := left - 1;
        }
      }
    }

    /**
     A token is handed out only at an instant when the count is not 0, and counts from then on; the
     result is empty only if the count was 0 at some instant of the call.
     */
    method Lock(tid: nat, dst: nat, budget: nat) returns (locked: bool)
      requires Valid() && tid !in s.lockers && NewVariable(s, dst)
      modifies this`s, this`trace
      ensures Valid() && old(trace) <= trace && |trace| >= |old(trace)| + 2 && dst in s.tokens
      ensures var before := trace[|trace| - 2];
              if locked
              then before.count > 0 && s.count == before.count + 1 && s.tokens == before.tokens[dst := Make(executor)]
              else s.count == before.count && s.tokens == before.tokens[dst := EMPTY]
      ensures !locked ==> exists i :: |old(trace)| - 1 <= i < |trace| && trace[i].count == 0
    {
      var left := budget;
      Perform(LockLoad(tid));
      var seen := s.count;
      ghost var at := |trace| - 1;
      while true
        invariant Valid() && old(trace) <= trace && |old(trace)| <= at < |trace|
        invariant InLock(s, tid, dst, seen) && seen == s.count == trace[at].count
        decreases left
      {
        left := Interfere(tid, dst, seen, left);
        if seen == 0 {
          Perform(LockCas(tid, dst));
          assert trace[at].count == 0;
          return false;
        }
        var count := s.count;
        Perform(LockCas(tid, dst));
        if count == seen {
          return true;
        }
        seen := count;
        at := |trace| - 1;
      }
    }
  }
}
