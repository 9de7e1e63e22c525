/** What every run of the florist pool keeps: the locks, no lost wake-up, first in first
    out delivery, and exactly which clients can be left behind. */
module FloristSafety {
  import opened FloristPool

  // ---------------------------------------------------------------- the invariant

  predicate WorkerHolds(pc: FloristPc) { pc.InnerGuard? || pc.Poll? || pc.Unlock? }

  predicate MainHolds(c: Config, pc: MainPc, i: int) {
    match pc
    case OfferTo(k) => i == c.Target(k)
    case SignalFor(k) => i == c.Target(k)
    case UnlockFor(k) => i == c.Target(k)
    case LockAll(j) => i < j
    case StopWork => true
    case UnlockAll(j) => i >= j
    case _ => false
  }

  predicate OwnerRight(c: Config, s: State, i: nat)
    requires Sized(c, s) && i < c.florists
  {
    && (s.owner[i] == Florist <==> WorkerHolds(s.workers[i].pc))
    && (s.owner[i] == Main <==> MainHolds(c, s.main, i))
  }

  /** Main has an index in range where its program needs one, and the flag is up until
      main takes it down. */
  predicate MainRight(c: Config, s: State) {
    && (match s.main
        case LockFor(k) => 0 <= c.Target(k) < c.florists
        case OfferTo(k) => 0 <= c.Target(k) < c.florists
        case SignalFor(k) => 0 <= c.Target(k) < c.florists
        case UnlockFor(k) => 0 <= c.Target(k) < c.florists
        case LockAll(j) => j <= c.florists
        case UnlockAll(j) => j <= c.florists
        case Dispatch(k) => k <= |c.routes|
        case SignalJoin(j) => j <= c.florists
        case Join(j) => j < c.florists
        case _ => true)
    && (s.keepWorking <==> Dispatching(s.main))
  }

  predicate Dispatching(pc: MainPc) {
    pc.Dispatch? || pc.LockFor? || pc.OfferTo? || pc.SignalFor? || pc.UnlockFor? || pc.LockAll? || pc.StopWork?
  }

  /** Main has offered to florist i and not signalled it yet. */
  predicate OwesClientSignal(c: Config, pc: MainPc, i: nat) {
    match pc case SignalFor(k) => i == c.Target(k) case _ => false
  }

  /** Main has taken the flag down and not signalled florist i since. */
  predicate OwesStopSignal(pc: MainPc, i: nat) {
    match pc
    case UnlockAll(_) => true
    case SignalJoin(j) => j <= i
    case Join(j) => j < i
    case _ => false
  }

  /** A sleeping florist has nothing to do, or main still owes it the signal. */
  predicate NoLostWakeup(c: Config, main: MainPc, keepWorking: bool, w: Worker, i: nat) {
    w.pc.Asleep? ==>
      && (w.queue == [] || OwesClientSignal(c, main, i))
      && (keepWorking || OwesStopSignal(main, i))
  }

  function Hand(pc: FloristPc): seq<Client> {
    match pc case Unlock(got) => got case Deliver(client) => [client] case _ => []
  }

  /** First in, first out, and what the florist knows at each of its steps. */
  predicate WorkerRight(w: Worker, keepWorking: bool, atomicGuard: bool) {
    && w.offered == w.served + Hand(w.pc) + w.queue
    && w.totalSales == |w.served|
    && (w.pc.Unlock? ==> |w.pc.got| <= 1)
    && (w.pc.Poll? ==> w.queue != [] || !keepWorking)
    && (w.pc.Unlock? && w.pc.got == [] ==> !keepWorking)
    && (w.pc.ReadFlag? || w.pc.Returned? ==> w.readAt == |w.served|)
    && (w.pc.Returned? ==> w.flagAt == |w.offered|)
    && (w.pc.Returned? ==> !keepWorking && (atomicGuard ==> w.queue == []))
    && (atomicGuard ==> !w.pc.ReadFlag?)
  }

  /** The clients among the first `upto` that are routed to florist i, in order. */
  function Routed(routes: seq<int>, upto: nat, i: int): seq<Client>
    requires upto <= |routes|
  {
    if upto == 0 then []
    else Routed(routes, upto - 1, i) + (if routes[upto - 1] == i then [upto - 1] else [])
  }

  /** How many clients main has put where they go. */
  function Handled(c: Config, pc: MainPc): nat
    ensures Handled(c, pc) <= |c.routes|
  {
    var k := (match pc
              case Dispatch(k) => k
              case LockFor(k) => k
              case OfferTo(k) => k
              case SignalFor(k) => k + 1
              case UnlockFor(k) => k + 1
              case _ => |c.routes|);
    if k <= |c.routes| then k else |c.routes|
  }

  predicate RoutedRight(c: Config, s: State, i: nat)
    requires Sized(c, s) && i < c.florists
  {
    s.workers[i].offered == Routed(c.routes, Handled(c, s.main), i)
  }

  predicate Joined(pc: MainPc, i: nat) {
    match pc case SignalJoin(j) => i < j case Join(j) => i < j case Done => true case _ => false
  }

  predicate JoinedRight(pc: MainPc, w: Worker, i: nat) { Joined(pc, i) ==> w.pc.Returned? }

  ghost predicate Inv(c: Config, s: State) {
    && Sized(c, s) && MainRight(c, s)
    && (forall i | 0 <= i < c.florists :: OwnerRight(c, s, i))
    && (forall i | 0 <= i < c.florists :: NoLostWakeup(c, s.main, s.keepWorking, s.workers[i], i))
    && (forall i | 0 <= i < c.florists :: WorkerRight(s.workers[i], s.keepWorking, c.atomicGuard))
    && (forall i | 0 <= i < c.florists :: RoutedRight(c, s, i))
    && (forall i | 0 <= i < c.florists :: JoinedRight(s.main, s.workers[i], i))
  }

  // ---------------------------------------------------------------- a florist's step

  lemma LocalKeepsRight(w: Worker, keepWorking: bool, atomicGuard: bool)
    requires WorkerRight(w, keepWorking, atomicGuard)
    ensures WorkerRight(Local(w, keepWorking, atomicGuard), keepWorking, atomicGuard)
  {
    if w.pc.Poll? && w.queue != [] {
      assert w.queue == [w.queue[0]] + w.queue[1..];
    }
    if w.pc.Unlock? && w.pc.got != [] {
      assert w.pc.got == [w.pc.got[0]];
    }
  }

  lemma LocalOwner(w: Worker, keepWorking: bool, atomicGuard: bool, owner: Owner)
    requires owner == Florist <==> WorkerHolds(w.pc)
    requires WorkerEnabled(w.pc, owner)
    ensures var owner' := OwnMutex(w, keepWorking, owner);
      && (owner' == Florist <==> WorkerHolds(Local(w, keepWorking, atomicGuard).pc))
      && (owner' == Main <==> owner == Main)
  {}

  lemma LocalSleeps(w: Worker, keepWorking: bool, atomicGuard: bool)
    requires !w.pc.Asleep?
    ensures var w' := Local(w, keepWorking, atomicGuard);
      && w'.offered == w.offered
      && (w'.pc.Asleep? ==> w'.queue == [] && keepWorking)
  {}

  lemma WorkerKeeps(c: Config, s: State, i: nat)
    requires Inv(c, s) && i < c.florists && WorkerEnabled(s.workers[i].pc, s.owner[i])
    ensures Inv(c, StepWorker(c, s, i))
  {
    hide Local, OwnMutex, WorkerRight, WorkerHolds, MainHolds, MainRight, Handled, Routed;
    hide OwesClientSignal, OwesStopSignal, Joined;
    var w := s.workers[i];
    assert OwnerRight(c, s, i);
    LocalKeepsRight(w, s.keepWorking, c.atomicGuard);
    LocalOwner(w, s.keepWorking, c.atomicGuard, s.owner[i]);
    LocalSleeps(w, s.keepWorking, c.atomicGuard);
    var s' := StepWorker(c, s, i);
    assert MainRight(c, s') by { SameMain(c, s, s'); }
    assert OwnerRight(c, s', i);
    assert forall j | 0 <= j < c.florists && j != i :: OwnerRight(c, s', j) <==> OwnerRight(c, s, j);
    assert forall j | 0 <= j < c.florists :: RoutedRight(c, s', j) <==> RoutedRight(c, s, j);
  }

  lemma SameMain(c: Config, s: State, s': State)
    requires MainRight(c, s) && s'.main == s.main && s'.keepWorking == s.keepWorking
    ensures MainRight(c, s')
  {}

  // ---------------------------------------------------------------- main's step

  lemma MainKeepsOwn(c: Config, s: State)
    requires c.Valid() && Sized(c, s) && MainRight(c, s) && MainEnabled(c, s)
    ensures MainRight(c, StepMain(c, s))
  {
    hide MutexesAfter, WorkersAfter;
  }

  /** What main's step does to florist i. */
  lemma MainTouches(c: Config, s: State, i: nat)
    requires Sized(c, s) && i < c.florists
    ensures var w, w' := s.workers[i], StepMain(c, s).workers[i];
      || (w' == w && !(s.main.OfferTo? && i == c.Target(s.main.k)) && !(s.main.SignalFor? && i == c.Target(s.main.k))
          && !(s.main.SignalJoin? && s.main.j == i))
      || (w' == Woken(w) && (s.main.SignalJoin? || s.main.SignalFor?))
      || (s.main.OfferTo? && i == c.Target(s.main.k) && w' == Receiving(w, s.main.k))
  {
    hide MutexesAfter, NextMain, Woken, Receiving;
  }

  lemma MainOwner(c: Config, s: State, i: nat)
    requires Sized(c, s) && i < c.florists && MainRight(c, s) && MainEnabled(c, s) && OwnerRight(c, s, i)
    ensures OwnerRight(c, StepMain(c, s), i)
  {
    hide WorkersAfter, Receiving, WorkerHolds;
    StepMainSized(c, s);
    MainHoldsSame(c, s, i);
    assert StepMain(c, s).owner[i] == MutexesAfter(c, s.main, s.owner)[i];
  }

  lemma MainHoldsSame(c: Config, s: State, i: nat)
    requires Sized(c, s) && i < c.florists
    ensures WorkerHolds(StepMain(c, s).workers[i].pc) <==> WorkerHolds(s.workers[i].pc)
  {
    hide StepMain;
    MainTouches(c, s, i);
  }

  lemma MainWakes(c: Config, s: State, i: nat)
    requires Sized(c, s) && i < c.florists && MainRight(c, s) && MainEnabled(c, s)
    requires NoLostWakeup(c, s.main, s.keepWorking, s.workers[i], i)
    ensures var s' := StepMain(c, s); NoLostWakeup(c, s'.main, s'.keepWorking, s'.workers[i], i)
  {
    hide MutexesAfter, WorkersAfter;
    MainTouches(c, s, i);
  }

  lemma MainJoins(c: Config, s: State, i: nat)
    requires Sized(c, s) && i < c.florists && MainRight(c, s) && MainEnabled(c, s)
    requires JoinedRight(s.main, s.workers[i], i)
    ensures JoinedRight(StepMain(c, s).main, StepMain(c, s).workers[i], i)
  {
    hide MutexesAfter, WorkersAfter;
    MainTouches(c, s, i);
  }

  lemma ReceivingKeeps(w: Worker, atomicGuard: bool, client: Client)
    requires WorkerRight(w, true, atomicGuard)
    ensures WorkerRight(Receiving(w, client), true, atomicGuard)
  {
    assert w.served + Hand(w.pc) + (w.queue + [client]) == w.served + Hand(w.pc) + w.queue + [client];
  }

  lemma WakingKeeps(w: Worker, keepWorking: bool, atomicGuard: bool)
    requires WorkerRight(w, keepWorking, atomicGuard)
    ensures WorkerRight(Woken(w), keepWorking, atomicGuard) && WorkerRight(w, false, atomicGuard)
    ensures Woken(w).offered == w.offered
  {}

  lemma MainWorker(c: Config, s: State, i: nat)
    requires Sized(c, s) && i < c.florists && MainRight(c, s)
    requires WorkerRight(s.workers[i], s.keepWorking, c.atomicGuard)
    ensures var s' := StepMain(c, s); WorkerRight(s'.workers[i], s'.keepWorking, c.atomicGuard)
  {
    hide MutexesAfter, WorkersAfter, WorkerRight, Receiving, NextMain;
    MainTouches(c, s, i);
    WakingKeeps(s.workers[i], s.keepWorking, c.atomicGuard);
    if s.main.OfferTo? { ReceivingKeeps(s.workers[i], c.atomicGuard, s.main.k); }
  }

  lemma MainRouted(c: Config, s: State, i: nat)
    requires c.Valid() && Sized(c, s) && i < c.florists && MainRight(c, s) && RoutedRight(c, s, i)
    ensures RoutedRight(c, StepMain(c, s), i)
  {
    hide MutexesAfter, WorkersAfter;
    MainTouches(c, s, i);
  }

  lemma MainKeeps(c: Config, s: State)
    requires c.Valid() && Inv(c, s) && MainEnabled(c, s)
    ensures Inv(c, StepMain(c, s))
  {
    hide MainRight, OwnerRight, NoLostWakeup, WorkerRight, RoutedRight, JoinedRight, NextMain, MainEnabled;
    MainKeepsOwn(c, s);
    StepMainSized(c, s);
    forall i | 0 <= i < c.florists
      ensures var s' := StepMain(c, s);
        OwnerRight(c, s', i) && NoLostWakeup(c, s'.main, s'.keepWorking, s'.workers[i], i)
        && WorkerRight(s'.workers[i], s'.keepWorking, c.atomicGuard) && RoutedRight(c, s', i)
        && JoinedRight(s'.main, s'.workers[i], i)
    {
      MainOwner(c, s, i);
      MainWakes(c, s, i);
      MainWorker(c, s, i);
      MainRouted(c, s, i);
      MainJoins(c, s, i);
    }
  }

  lemma StepMainSized(c: Config, s: State)
    requires Sized(c, s)
    ensures Sized(c, StepMain(c, s))
  {}

  // ---------------------------------------------------------------- every step of every run

  lemma WakeupKeeps(c: Config, s: State, i: nat)
    requires Inv(c, s) && i < c.florists
    ensures Inv(c, s.(workers := s.workers[i := Woken(s.workers[i])]))
  {
    hide WorkerRight, Handled, Routed, MainHolds;
    WakingKeeps(s.workers[i], s.keepWorking, c.atomicGuard);
    var s' := s.(workers := s.workers[i := Woken(s.workers[i])]);
    assert forall j | 0 <= j < c.florists :: OwnerRight(c, s', j) <==> OwnerRight(c, s, j);
    assert forall j | 0 <= j < c.florists :: RoutedRight(c, s', j) <==> RoutedRight(c, s, j);
  }

  lemma InitHolds(c: Config)
    ensures Inv(c, Init(c))
  {}

  lemma StepKeeps(c: Config, s: State, a: Action)
    requires c.Valid() && Inv(c, s) && Enabled(c, s, a)
    ensures Inv(c, Step(c, s, a))
  {
    hide Inv, StepMain, StepWorker, MainEnabled, WorkerEnabled;
    match a
    case MainStep => MainKeeps(c, s);
    case WorkerStep(i) => WorkerKeeps(c, s, i);
    case SpuriousWakeup(i) => WakeupKeeps(c, s, i);
  }

  lemma InvSized(c: Config, s: State)
    requires Inv(c, s)
    ensures Sized(c, s)
  {}

  lemma {:induction false} RunKeeps(c: Config, s: State, run: seq<Action>)
    requires c.Valid() && Sized(c, s) && Feasible(c, s, run) && Inv(c, s)
    ensures Inv(c, Run(c, s, run))
    decreases |run|
  {
    hide Inv, Enabled, Step;
    if run != [] {
      StepKeeps(c, s, run[0]);
      InvSized(c, Step(c, s, run[0]));
      RunKeeps(c, Step(c, s, run[0]), run[1..]);
    }
  }

  /** The state after a run from the start. */
  function After(c: Config, run: seq<Action>): State
    requires Feasible(c, Init(c), run)
  {
    Run(c, Init(c), run)
  }

  lemma Reachable(c: Config, run: seq<Action>)
    requires c.Valid() && Feasible(c, Init(c), run)
    ensures Inv(c, After(c, run))
  {
    InitHolds(c);
    RunKeeps(c, Init(c), run);
  }

  // ---------------------------------------------------------------- main results

  /** No lost wake-up, for any number of florists and clients, in every reachable state. */
  lemma SleepersHaveNothingToDo(c: Config, run: seq<Action>, i: nat)
    requires c.Valid() && Feasible(c, Init(c), run) && i < |After(c, run).workers|
    ensures var s := After(c, run);
      s.workers[i].pc.Asleep? ==>
        && (s.workers[i].queue == [] || OwesClientSignal(c, s.main, i))
        && (s.keepWorking || OwesStopSignal(s.main, i))
  {
    Reachable(c, run);
    var s := After(c, run);
    assert NoLostWakeup(c, s.main, s.keepWorking, s.workers[i], i);
  }

  /** Per florist, in every reachable state: the clients routed to it so far, in order, are
      those it has delivered to, then the one in its hands, then its queue. */
  lemma FirstInFirstOut(c: Config, run: seq<Action>, i: nat)
    requires c.Valid() && Feasible(c, Init(c), run) && i < |After(c, run).workers|
    ensures var s := After(c, run); var w := s.workers[i];
      && Routed(c.routes, Handled(c, s.main), i) == w.served + Hand(w.pc) + w.queue
      && w.totalSales == |w.served|
  {
    Reachable(c, run);
    var s := After(c, run);
    assert WorkerRight(s.workers[i], s.keepWorking, c.atomicGuard) && RoutedRight(c, s, i);
  }

  /** A florist that has returned served exactly the clients that had been offered when its
      outer guard last saw the queue empty; what is left in its queue was offered after
      that read.  Nothing is left if the guard is one step. */
  lemma LeftOverWasOfferedBetweenReads(c: Config, run: seq<Action>, i: nat)
    requires c.Valid() && Feasible(c, Init(c), run) && i < |After(c, run).workers|
    requires After(c, run).workers[i].pc.Returned?
    ensures var w := After(c, run).workers[i]; var routed := Routed(c.routes, |c.routes|, i);
      && w.readAt <= w.flagAt == |routed|
      && w.served == routed[..w.readAt] && w.queue == routed[w.readAt..w.flagAt]
      && w.totalSales == w.readAt
      && (w.queue == [] <==> w.readAt == |routed|)
      && (c.atomicGuard ==> w.served == routed && w.totalSales == |routed|)
  {
    Reachable(c, run);
    var s := After(c, run);
    var w := s.workers[i];
    assert WorkerRight(w, s.keepWorking, c.atomicGuard) && RoutedRight(c, s, i);
    assert !s.keepWorking && Handled(c, s.main) == |c.routes|;
    assert w.offered == w.served + w.queue;
  }

  /** When main is done every florist has returned; with the guard as one step, its total
      is the number of clients routed to it. */
  lemma DoneMeansJoined(c: Config, run: seq<Action>, i: nat)
    requires c.Valid() && Feasible(c, Init(c), run) && After(c, run).main.Done? && i < |After(c, run).workers|
    ensures After(c, run).workers[i].pc.Returned?
    ensures c.atomicGuard ==> After(c, run).workers[i].totalSales == |Routed(c.routes, |c.routes|, i)|
  {
    hide Inv, Feasible, Run, Routed;
    Reachable(c, run);
    JoinedOfInv(c, After(c, run), i);
    LeftOverWasOfferedBetweenReads(c, run, i);
  }

  lemma JoinedOfInv(c: Config, s: State, i: nat)
    requires Inv(c, s) && i < |s.workers|
    ensures JoinedRight(s.main, s.workers[i], i)
  {}
}
