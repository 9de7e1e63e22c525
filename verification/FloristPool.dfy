/** The florist thread pool of HW5 as a transition system: main dispatches clients to the
    queues of N florists, then stops and joins them; every florist sleeps on its own
    condition variable while its queue is empty.

    One step is one lock operation, one read of the outer guard, one evaluation of the
    inner guard, one queue operation, one signal, one delivery or one join.  Queue
    operations run under the florist's mutex, except the emptiness test of the outer
    guard.  A sleeping florist may also wake up without a signal. */
module FloristPool {

  // A client is its index in the input file
  type Client = nat

  /** The number of florists, where each client goes (-1 for nobody), and whether the two
      reads of the outer guard `!QueueEmpty || keepWorking` happen in one step. */
  datatype Config = Config(florists: nat, routes: seq<int>, atomicGuard: bool) {
    ghost predicate Valid() {
      forall k | 0 <= k < |routes| :: -1 <= routes[k] < florists
    }
    /** The florist that main is dealing with while it handles client k. */
    function Target(k: nat): int { if k < |routes| then routes[k] else -1 }
  }

  datatype Owner = Nobody | Main | Florist

  datatype FloristPc =
    | ReadQueue                           // !QueueEmpty(workQueue[id]), no lock
    | ReadFlag                            // || keepWorking, no lock
    | LockOwn
    | InnerGuard                          // QueueEmpty && keepWorking
    | Asleep                              // in pthread_cond_wait, not woken
    | Relock                              // woken, taking the mutex back
    | Poll
    | Unlock(got: seq<Client>)
    | Deliver(client: Client)
    | Returned

  /** `offered`, `served`, `readAt` and `flagAt` record what happened: the clients put into
      the queue, the clients delivered to, how many had been offered when the outer guard
      last found the queue empty, and how many when it last read the flag after that. */
  datatype Worker = Worker(
    pc: FloristPc, queue: seq<Client>, totalSales: nat,
    offered: seq<Client>, served: seq<Client>, readAt: nat, flagAt: nat)

  const STARTING := Worker(ReadQueue, [], 0, [], [], 0, 0)

  datatype MainPc =
    | Dispatch(k: nat)
    | LockFor(k: nat)
    | OfferTo(k: nat)
    | SignalFor(k: nat)
    | UnlockFor(k: nat)
    | LockAll(j: nat)
    | StopWork                            // keepWorking = FALSE
    | UnlockAll(j: nat)
    | SignalJoin(j: nat)
    | Join(j: nat)
    | Done

  datatype State = State(main: MainPc, keepWorking: bool, owner: seq<Owner>, workers: seq<Worker>)

  function Init(c: Config): State {
    State(Dispatch(0), true, seq(c.florists, _ => Nobody),
          seq(c.florists, _ => STARTING))
  }

  datatype Action = MainStep | WorkerStep(i: nat) | SpuriousWakeup(i: nat)

  predicate Sized(c: Config, s: State) { |s.owner| == |s.workers| == c.florists }

  predicate Enabled(c: Config, s: State, a: Action)
    requires Sized(c, s)
  {
    match a
    case MainStep => MainEnabled(c, s)
    case WorkerStep(i) => i < c.florists && WorkerEnabled(s.workers[i].pc, s.owner[i])
    case SpuriousWakeup(i) => i < c.florists && s.workers[i].pc.Asleep?
  }

  predicate WorkerEnabled(pc: FloristPc, owner: Owner) {
    match pc
    case LockOwn => owner == Nobody
    case Relock => owner == Nobody
    case Asleep => false
    case Returned => false
    case _ => true
  }

  predicate MainEnabled(c: Config, s: State)
    requires Sized(c, s)
  {
    match s.main
    case LockFor(k) => 0 <= c.Target(k) < c.florists && s.owner[c.Target(k)] == Nobody
    case LockAll(j) => j >= c.florists || s.owner[j] == Nobody
    case Join(j) => j < c.florists && s.workers[j].pc.Returned?
    case Done => false
    case _ => true
  }

  function Step(c: Config, s: State, a: Action): State
    requires Sized(c, s) && Enabled(c, s, a)
  {
    match a
    case MainStep => StepMain(c, s)
    case WorkerStep(i) => StepWorker(c, s, i)
    case SpuriousWakeup(i) => s.(workers := s.workers[i := Woken(s.workers[i])])
  }

  // ---------------------------------------------------------------- a florist

  function StepWorker(c: Config, s: State, i: nat): State
    requires Sized(c, s) && i < c.florists
  {
    s.(workers := s.workers[i := Local(s.workers[i], s.keepWorking, c.atomicGuard)],
       owner := s.owner[i := OwnMutex(s.workers[i], s.keepWorking, s.owner[i])])
  }

  function Local(w: Worker, keepWorking: bool, atomicGuard: bool): Worker {
    match w.pc
    case ReadQueue =>
      if w.queue != [] then w.(pc := LockOwn)
      else if !atomicGuard then w.(pc := ReadFlag, readAt := |w.offered|)
      else w.(pc := if keepWorking then LockOwn else Returned, readAt := |w.offered|, flagAt := |w.offered|)
    case ReadFlag => w.(pc := if keepWorking then LockOwn else Returned, flagAt := |w.offered|)
    case LockOwn => w.(pc := InnerGuard)
    case InnerGuard => w.(pc := if MustSleep(w, keepWorking) then Asleep else Poll)
    case Asleep => w
    case Relock => w.(pc := InnerGuard)
    case Poll =>
      if w.queue == [] then w.(pc := Unlock([])) else w.(pc := Unlock([w.queue[0]]), queue := w.queue[1..])
    case Unlock(got) => w.(pc := if got == [] then ReadQueue else Deliver(got[0]))
    case Deliver(client) =>
      w.(pc := ReadQueue, served := w.served + [client], totalSales := w.totalSales + 1)
    case Returned => w
  }

  predicate MustSleep(w: Worker, keepWorking: bool) { w.queue == [] && keepWorking }

  function OwnMutex(w: Worker, keepWorking: bool, owner: Owner): Owner {
    match w.pc
    case LockOwn => Florist
    case Relock => Florist
    case InnerGuard => if MustSleep(w, keepWorking) then Nobody else owner
    case Unlock(_) => Nobody
    case _ => owner
  }

  /** pthread_cond_signal: wakes the florist if it sleeps, and is lost otherwise. */
  function Woken(w: Worker): Worker {
    if w.pc.Asleep? then w.(pc := Relock) else w
  }

  function Receiving(w: Worker, client: Client): Worker {
    w.(queue := w.queue + [client], offered := w.offered + [client])
  }

  // ---------------------------------------------------------------- main

  function StepMain(c: Config, s: State): State
    requires Sized(c, s)
  {
    s.(main := NextMain(c, s.main),
       keepWorking := s.keepWorking && !s.main.StopWork?,
       owner := MutexesAfter(c, s.main, s.owner),
       workers := WorkersAfter(c, s.main, s.workers))
  }

  function NextMain(c: Config, pc: MainPc): MainPc {
    match pc
    case Dispatch(k) =>
      if k >= |c.routes| then LockAll(0) else if c.routes[k] < 0 then Dispatch(k + 1) else LockFor(k)
    case LockFor(k) => OfferTo(k)
    case OfferTo(k) => SignalFor(k)
    case SignalFor(k) => UnlockFor(k)
    case UnlockFor(k) => Dispatch(k + 1)
    case LockAll(j) => if j < c.florists then LockAll(j + 1) else StopWork
    case StopWork => UnlockAll(0)
    case UnlockAll(j) => if j < c.florists then UnlockAll(j + 1) else SignalJoin(0)
    case SignalJoin(j) => if j < c.florists then Join(j) else Done
    case Join(j) => SignalJoin(j + 1)
    case Done => Done
  }

  function MutexesAfter(c: Config, pc: MainPc, owner: seq<Owner>): seq<Owner> {
    match pc
    case LockFor(k) => Put(owner, c.Target(k), Main)
    case UnlockFor(k) => Put(owner, c.Target(k), Nobody)
    case LockAll(j) => Put(owner, j, Main)
    case UnlockAll(j) => Put(owner, j, Nobody)
    case _ => owner
  }

  function Put<T>(xs: seq<T>, i: int, x: T): seq<T> {
    if 0 <= i < |xs| then xs[i := x] else xs
  }

  function WorkersAfter(c: Config, pc: MainPc, workers: seq<Worker>): seq<Worker> {
    match pc
    case OfferTo(k) =>
      var i := c.Target(k);
      if 0 <= i < |workers| then workers[i := Receiving(workers[i], k)] else workers
    case SignalFor(k) =>
      var i := c.Target(k);
      if 0 <= i < |workers| then workers[i := Woken(workers[i])] else workers
    case SignalJoin(j) => if j < |workers| then workers[j := Woken(workers[j])] else workers
    case _ => workers
  }

  // ---------------------------------------------------------------- runs

  ghost predicate Feasible(c: Config, s: State, run: seq<Action>)
    requires Sized(c, s)
    decreases |run|
  {
    run == [] || (Enabled(c, s, run[0]) && Feasible(c, Step(c, s, run[0]), run[1..]))
  }

  function Run(c: Config, s: State, run: seq<Action>): State
    requires Sized(c, s) && Feasible(c, s, run)
    decreases |run|
  {
    if run == [] then s else Run(c, Step(c, s, run[0]), run[1..])
  }
}
