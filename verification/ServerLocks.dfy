/** The locks of the provider server: who holds what, and why nobody waits for ever. */
module ServerLocks {
  import opened Options
  import opened ProviderSearch
  import opened ProviderServer

  /** Between taking and releasing its own mutex. */
  predicate HoldsOwn(pc: ProviderPc) {
    pc.InnerGuard? || pc.PollGuard? || pc.PollOwn? || pc.UnlockOwn?
  }

  /** Mutex k is in the prefix a redirector has taken or the suffix it has yet to release. */
  predicate RedirHolds(pc: RedirPc, k: nat) {
    match pc
    case LockNext(j) => k < j
    case Search(_, _) => true
    case Offer(_) => true
    case Refuse => true
    case UnlockNext(j) => k >= j
    case _ => false
  }

  predicate Holds(s: State, t: Tid, k: nat) {
    match t
    case Prov(i) => i == k && i < |s.providers| && HoldsOwn(s.providers[i].pc)
    case Redir(r) => r < |s.redirectors| && RedirHolds(s.redirectors[r].pc, k)
  }

  /** The owner of every mutex is exactly the thread between its lock and its unlock. */
  ghost predicate OwnersRight(s: State) {
    && |s.owner| == |s.providers|
    && forall k, t: Tid | 0 <= k < |s.owner| :: Holds(s, t, k) <==> s.owner[k] == Some(t)
  }

  /** What a step of thread t does to the mutexes: nothing, take one, or release one. */
  ghost predicate LockEffect(s: State, s': State, t: Tid) {
    && |s'.owner| == |s.owner| && |s'.providers| == |s.providers|
    && (forall u: Tid, k: nat | u != t :: Holds(s', u, k) <==> Holds(s, u, k))
    && (forall k | 0 <= k < |s.owner| ::
          || (s'.owner[k] == s.owner[k] && (Holds(s', t, k) <==> Holds(s, t, k)))
          || (s.owner[k] == None && s'.owner[k] == Some(t) && Holds(s', t, k))
          || (Holds(s, t, k) && s'.owner[k] == None && !Holds(s', t, k)))
  }

  lemma LockEffectKeeps(s: State, s': State, t: Tid)
    requires OwnersRight(s) && LockEffect(s, s', t)
    ensures OwnersRight(s')
  {}

  lemma OwnMutexFollows(p: Provider, working: bool, timeout: bool, i: nat, owner: Option<Tid>)
    requires p.pc.PollOwn? ==> p.queue != []
    ensures var holds, holds' := HoldsOwn(p.pc), HoldsOwn(Local(p, working, timeout).pc);
      var owner' := OwnMutex(p, working, i, owner);
      || (owner' == owner && holds' == holds)
      || ((p.pc.LockOwn? || p.pc.Relock?) && owner' == Some(Prov(i)) && holds')
      || (holds && owner' == None && !holds')
  {}

  lemma ProviderLocks(s: State, i: nat, timeout: bool)
    requires OwnersRight(s) && Enabled(s, ProviderStep(i, timeout))
    requires s.providers[i].pc.PollOwn? ==> s.providers[i].queue != []
    ensures OwnersRight(StepProvider(s, i, timeout))
  {
    hide Local, OwnMutex, HoldsOwn, RedirHolds;
    OwnMutexFollows(s.providers[i], s.working, timeout, i, s.owner[i]);
    LockEffectKeeps(s, StepProvider(s, i, timeout), Prov(i));
  }

  lemma RedirectorLocks(c: seq<Info>, s: State, r: nat, priority: char)
    requires Sized(c, s) && OwnersRight(s) && Enabled(s, RedirectorStep(r, priority))
    ensures OwnersRight(StepRedirector(c, s, r, priority))
  {
    hide Consider, Start, OwnersRight;
    LockEffectKeeps(s, StepRedirector(c, s, r, priority), Redir(r));
  }

  lemma MainLocks(s: State, arrived: bool)
    requires OwnersRight(s)
    ensures OwnersRight(StepMain(s, arrived))
  {
    var s' := StepMain(s, arrived);
    assert forall t: Tid, k: nat :: Holds(s', t, k) <==> Holds(s, t, k);
  }

  // ---------------------------------------------------------------- no deadlock

  /** Holding countMutex, which is never held while waiting for anything. */
  predicate HoldsCount(pc: ProviderPc) {
    pc.CountUp? || pc.GoOnline? || pc.JoinUnlock? || pc.CountDown? || pc.GoOffline? || pc.LeaveUnlock?
  }

  ghost predicate CountOwnerRight(s: State) {
    && (forall i | 0 <= i < |s.providers| :: HoldsCount(s.providers[i].pc) <==> s.countOwner == Some(i))
    && (s.countOwner != None ==> s.countOwner.value < |s.providers|)
  }

  lemma ProviderCountOwner(s: State, i: nat, timeout: bool)
    requires CountOwnerRight(s) && |s.owner| == |s.providers| && Enabled(s, ProviderStep(i, timeout))
    ensures CountOwnerRight(StepProvider(s, i, timeout))
  {
    hide HoldsCount, CountMutexAfter, Local;
    CountMutexFollows(s.providers[i], s.working, timeout, i, s.countOwner);
  }

  predicate UsesCount(pc: ProviderPc) { HoldsCount(pc) || pc.JoinLock? || pc.LeaveLock? }

  lemma CountMutexUntouched(p: Provider, working: bool, timeout: bool)
    requires !UsesCount(p.pc)
    ensures !HoldsCount(Local(p, working, timeout).pc)
  {
    hide Poll, MustWait;
  }

  lemma CountMutexFollows(p: Provider, working: bool, timeout: bool, i: nat, owner: Option<nat>)
    ensures var holds, holds' := HoldsCount(p.pc), HoldsCount(Local(p, working, timeout).pc);
      var owner' := CountMutexAfter(p.pc, i, owner);
      || (owner' == owner && holds' == holds)
      || ((p.pc.JoinLock? || p.pc.LeaveLock?) && owner' == Some(i) && holds' && !holds)
      || (holds && owner' == None && !holds')
  {
    hide Local;
    if UsesCount(p.pc) {
      CountMutexUsed(p, working, timeout);
    } else {
      CountMutexUntouched(p, working, timeout);
    }
  }

  lemma CountMutexUsed(p: Provider, working: bool, timeout: bool)
    requires UsesCount(p.pc)
    ensures HoldsCount(Local(p, working, timeout).pc) <==> !p.pc.JoinUnlock? && !p.pc.LeaveUnlock?
  {}

  /** Thread t is at a lock operation whose mutex thread u owns. */
  predicate WaitsFor(s: State, t: Tid, u: Tid) {
    match Wants(s, t)
    case NoMutex => false
    case CountMutex => s.countOwner.Some? && u == Prov(s.countOwner.value)
    case Mutex(k) => k < |s.owner| && s.owner[k] == Some(u)
  }

  /** The position of what a thread wants in the lock order; threads that want nothing are on top. */
  function LockRank(s: State, t: Tid): nat {
    match Wants(s, t)
    case NoMutex => |s.owner| + 1
    case CountMutex => |s.owner|
    case Mutex(k) => if k < |s.owner| then k else |s.owner|
  }

  /** The wait-for graph is acyclic: waiting always goes up in the lock order. */
  lemma WaitingGoesUp(s: State, t: Tid, u: Tid)
    requires OwnersRight(s) && CountOwnerRight(s) && WaitsFor(s, t, u)
    ensures LockRank(s, t) < LockRank(s, u) <= |s.owner| + 1
  {
    match Wants(s, t)
    case CountMutex =>
    case Mutex(k) => assert Holds(s, u, k);
  }

  ghost predicate WaitChain(s: State, chain: seq<Tid>) {
    && chain != []
    && forall k | 0 <= k < |chain| - 1 :: WaitsFor(s, chain[k], chain[k + 1])
  }

  /** Following who waits for whom from any thread ends, after at most one more thread
      than there are mutexes, at a thread that is not blocked. */
  lemma {:induction false} WaitChainEnds(s: State, t: Tid) returns (chain: seq<Tid>)
    requires OwnersRight(s) && CountOwnerRight(s)
    ensures WaitChain(s, chain) && chain[0] == t
    ensures |chain| <= |s.owner| + 2 - LockRank(s, t)
    ensures !Blocked(s, chain[|chain| - 1])
    ensures Blocked(s, t) ==> |chain| > 1
    decreases |s.owner| + 1 - LockRank(s, t)
  {
    if !Blocked(s, t) {
      chain := [t];
    } else {
      var u := Blocker(s, t);
      WaitingGoesUp(s, t, u);
      var rest := WaitChainEnds(s, u);
      chain := [t] + rest;
    }
  }

  function Blocker(s: State, t: Tid): (u: Tid)
    requires Blocked(s, t)
    ensures WaitsFor(s, t, u)
  {
    match Wants(s, t)
    case CountMutex => Prov(s.countOwner.value)
    case Mutex(k) => s.owner[k].value
  }

  /** A thread that owns a mutex has not finished, so if it is not blocked it can step. */
  lemma OwnerCanStep(s: State, t: Tid, u: Tid)
    requires OwnersRight(s) && CountOwnerRight(s) && WaitsFor(s, t, u) && !Blocked(s, u)
    ensures match u
      case Prov(i) => Enabled(s, ProviderStep(i, false))
      case Redir(r) => Enabled(s, RedirectorStep(r, ' '))
  {
    match Wants(s, t)
    case CountMutex =>
    case Mutex(k) => assert Holds(s, u, k);
  }
}
