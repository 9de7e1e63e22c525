/** The provider server of the final project as a transition system: the accepting main
    thread, one thread per provider, and one redirector thread per admitted client, any
    number of each, interleaved arbitrarily.

    One step is one lock operation, one evaluation of a guard, one queue operation, one
    iteration of the search, or one answer.  Queue operations are atomic.  SIGINT may
    clear `working` at any time.  A timed wait may end at any time, with or without its
    time-out.  The model ends where main begins its teardown; the other threads may still
    be moving then. */
module ProviderServer {
  import opened Options
  import opened ProviderSearch

  // An accepted socket, numbered in the order of acceptance
  type Client = nat

  const ARRAY_SIZE: nat := 2000

  /** What ParseFile recorded for a provider. */
  datatype Info = Info(price: int, performance: int)

  datatype Tid = Prov(i: nat) | Redir(r: nat)

  datatype ProviderPc =
    | JoinLock                            // lock countMutex
    | CountUp                             // ++currentProviders
    | GoOnline
    | JoinUnlock
    | LoopGuard                           // while (working && !timedOut)
    | LockOwn
    | InnerGuard                          // working && !timedOut && QueueEmpty
    | Waiting                             // inside pthread_cond_timedwait
    | Relock
    | PollGuard                           // if (!timedOut && working), under the mutex
    | PollOwn
    | UnlockOwn(hand: seq<Client>)
    | AnswerGuard(hand: seq<Client>)      // if (!timedOut && working), after the unlock
    | AnswerClient(client: Client)
    | LeaveLock
    | CountDown                           // --currentProviders
    | GoOffline
    | LeaveUnlock
    | DrainGuard                          // while (!QueueEmpty)
    | DrainPoll
    | DrainAnswer(client: Client)
    | Returned
    | UsesGarbage                         // polled an empty queue, or answers an old request

  /** `polled`, `served`, `dropped` and `late` record what happened: the clients it took
      from its queue, those of them it answered, those it forgot, and the number of
      clients that were put into its queue while it was offline. */
  datatype Provider = Provider(
    pc: ProviderPc, timedOut: bool, online: bool, queue: seq<Client>,
    polled: seq<Client>, served: seq<Client>, dropped: seq<Client>, late: nat)

  datatype RedirPc =
    | Receive
    | LockNext(k: nat)
    | Search(i: nat, best: Best)
    | Offer(index: nat)
    | Refuse
    | UnlockNext(k: nat)
    | Finished

  /** `seen` records what the search has read of the providers, in order. */
  datatype Redirector = Redirector(pc: RedirPc, client: Client, priority: char, seen: seq<View>)

  datatype MainPc = Guard | Accept | Admit(client: Client) | Teardown

  datatype State = State(
    working: bool, main: MainPc, accepted: nat,
    currentProviders: int, countOwner: Option<nat>, owner: seq<Option<Tid>>,
    providers: seq<Provider>, redirectors: seq<Redirector>, answered: seq<Client>)

  function Init(c: seq<Info>): State {
    State(true, Guard, 0, 0, None, seq(|c|, _ => None),
          seq(|c|, _ => Provider(JoinLock, false, false, [], [], [], [], 0)), [], [])
  }

  datatype Action =
    | Interrupt                           // SIGINT
    | MainStep(arrived: bool)             // accept returned a client, or was interrupted
    | ProviderStep(i: nat, timeout: bool)
    | RedirectorStep(r: nat, priority: char)

  predicate Enabled(s: State, a: Action) {
    match a
    case Interrupt => true
    case MainStep(_) => !s.main.Teardown?
    case ProviderStep(i, _) =>
      && i < |s.providers| == |s.owner|
      && !s.providers[i].pc.Returned? && !Blocked(s, Prov(i))
    case RedirectorStep(r, _) =>
      && r < |s.redirectors| && |s.providers| == |s.owner|
      && !s.redirectors[r].pc.Finished? && !Blocked(s, Redir(r))
  }

  /** The mutex a thread is about to lock. */
  datatype Wanted = NoMutex | CountMutex | Mutex(k: nat)

  function Wants(s: State, t: Tid): Wanted {
    match t
    case Prov(i) =>
      if i >= |s.providers| then NoMutex
      else (match s.providers[i].pc
            case JoinLock => CountMutex
            case LeaveLock => CountMutex
            case LockOwn => Mutex(i)
            case Relock => Mutex(i)
            case _ => NoMutex)
    case Redir(r) =>
      if r >= |s.redirectors| then NoMutex
      else match s.redirectors[r].pc
           case LockNext(k) => if k < |s.owner| then Mutex(k) else NoMutex
           case _ => NoMutex
  }

  predicate Blocked(s: State, t: Tid) {
    match Wants(s, t)
    case NoMutex => false
    case CountMutex => s.countOwner != None
    case Mutex(k) => k < |s.owner| && s.owner[k] != None
  }

  function Step(c: seq<Info>, s: State, a: Action): State
    requires Enabled(s, a) && |s.providers| == |s.owner| == |c|
  {
    match a
    case Interrupt => s.(working := false)
    case MainStep(arrived) => StepMain(s, arrived)
    case ProviderStep(i, timeout) => StepProvider(s, i, timeout)
    case RedirectorStep(r, priority) => StepRedirector(c, s, r, priority)
  }

  // ---------------------------------------------------------------- main

  function StepMain(s: State, arrived: bool): State {
    match s.main
    case Guard => s.(main := if s.working then Accept else Teardown)
    case Accept =>
      if arrived then s.(main := Admit(s.accepted), accepted := s.accepted + 1) else s.(main := Guard)
    case Admit(client) =>
      if s.currentProviders == 0 || |s.providers| + |s.redirectors| == ARRAY_SIZE then
        s.(main := Guard, answered := s.answered + [client])
      else
        s.(main := Guard, redirectors := s.redirectors + [Redirector(Receive, client, ' ', [])])
    case Teardown => s
  }

  // ---------------------------------------------------------------- a provider

  /** One step of provider i: its own variables, and what the step does to the shared ones. */
  function StepProvider(s: State, i: nat, timeout: bool): State
    requires i < |s.providers| == |s.owner|
  {
    var p := s.providers[i];
    s.(providers := s.providers[i := Local(p, s.working, timeout)],
       owner := s.owner[i := OwnMutex(p, s.working, i, s.owner[i])],
       countOwner := CountMutexAfter(p.pc, i, s.countOwner),
       currentProviders := s.currentProviders + CountChange(p.pc),
       answered := s.answered + Says(p.pc))
  }

  /** The variables of the provider's own thread, and its queue. */
  function Local(p: Provider, working: bool, timeout: bool): Provider {
    match p.pc
    case JoinLock => p.(pc := CountUp)
    case CountUp => p.(pc := GoOnline)
    case GoOnline => p.(pc := JoinUnlock, online := true)
    case JoinUnlock => p.(pc := LoopGuard)
    case LoopGuard => p.(pc := if working && !p.timedOut then LockOwn else LeaveLock)
    case LockOwn => p.(pc := InnerGuard)
    case InnerGuard => p.(pc := if MustWait(p, working) then Waiting else PollGuard)
    case Waiting => p.(pc := Relock, timedOut := p.timedOut || timeout)
    case Relock => p.(pc := InnerGuard)
    case PollGuard => p.(pc := if !p.timedOut && working then PollOwn else UnlockOwn([]))
    case PollOwn =>
      if p.queue == [] then p.(pc := UsesGarbage) else Poll(p).(pc := UnlockOwn([p.queue[0]]))
    case UnlockOwn(hand) => p.(pc := AnswerGuard(hand))
    case AnswerGuard(hand) =>
      if !p.timedOut && working
      then p.(pc := if hand == [] then UsesGarbage else AnswerClient(hand[0]))
      else p.(pc := LoopGuard, dropped := p.dropped + hand)
    case AnswerClient(client) => p.(pc := LoopGuard, served := p.served + [client])
    case LeaveLock => p.(pc := CountDown)
    case CountDown => p.(pc := GoOffline)
    case GoOffline => p.(pc := LeaveUnlock, online := false)
    case LeaveUnlock => p.(pc := DrainGuard)
    case DrainGuard => p.(pc := if p.queue == [] then Returned else DrainPoll)
    case DrainPoll =>
      if p.queue == [] then p.(pc := UsesGarbage) else Poll(p).(pc := DrainAnswer(p.queue[0]))
    case DrainAnswer(client) => p.(pc := DrainGuard, served := p.served + [client])
    case Returned => p
    case UsesGarbage => p
  }

  predicate MustWait(p: Provider, working: bool) { working && !p.timedOut && p.queue == [] }

  /** QueuePoll on a queue that is not empty. */
  function Poll(p: Provider): Provider
    requires p.queue != []
  {
    p.(queue := p.queue[1..], polled := p.polled + [p.queue[0]])
  }

  /** The provider's own mutex after its step. */
  function OwnMutex(p: Provider, working: bool, i: nat, owner: Option<Tid>): Option<Tid> {
    match p.pc
    case LockOwn => Some(Prov(i))
    case Relock => Some(Prov(i))
    case InnerGuard => if MustWait(p, working) then None else owner
    case UnlockOwn(_) => None
    case _ => owner
  }

  function CountMutexAfter(pc: ProviderPc, i: nat, owner: Option<nat>): Option<nat> {
    match pc
    case JoinLock => Some(i)
    case LeaveLock => Some(i)
    case JoinUnlock => None
    case LeaveUnlock => None
    case _ => owner
  }

  function CountChange(pc: ProviderPc): int {
    match pc case CountUp => 1 case CountDown => -1 case _ => 0
  }

  function Says(pc: ProviderPc): seq<Client> {
    match pc case AnswerClient(client) => [client] case DrainAnswer(client) => [client] case _ => []
  }

  // ---------------------------------------------------------------- a redirector

  function ViewOf(c: seq<Info>, s: State, i: nat): View
    requires i < |s.providers| == |c|
  {
    View(c[i].price, c[i].performance, s.providers[i].online, |s.providers[i].queue|)
  }

  /** One step of redirector r: its own variables, the mutexes, the queues and the answers. */
  function StepRedirector(c: seq<Info>, s: State, r: nat, priority: char): State
    requires r < |s.redirectors| && |s.providers| == |s.owner| == |c|
  {
    var d := s.redirectors[r];
    s.(redirectors := s.redirectors[r := Next(c, s, d, priority)],
       owner := MutexesAfter(d.pc, r, s.owner),
       providers := QueuesAfter(d, s.providers),
       answered := if d.pc.Refuse? then s.answered + [d.client] else s.answered)
  }

  function Next(c: seq<Info>, s: State, d: Redirector, priority: char): Redirector
    requires |s.providers| == |s.owner| == |c|
  {
    match d.pc
    case Receive => d.(pc := LockNext(0), priority := priority)
    case LockNext(k) => d.(pc := if k < |s.owner| then LockNext(k + 1) else Search(0, Start(d.priority)))
    case Search(i, best) =>
      if i < |s.providers| then
        d.(pc := Search(i + 1, Consider(d.priority, ViewOf(c, s, i), i, best)), seen := d.seen + [ViewOf(c, s, i)])
      else d.(pc := if best.index < 0 then Refuse else Offer(best.index))
    case Offer(_) => d.(pc := UnlockNext(0))
    case Refuse => d.(pc := UnlockNext(0))
    case UnlockNext(k) => d.(pc := if k < |s.owner| then UnlockNext(k + 1) else Finished)
    case Finished => d
  }

  function MutexesAfter(pc: RedirPc, r: nat, owner: seq<Option<Tid>>): seq<Option<Tid>> {
    match pc
    case LockNext(k) => if k < |owner| then owner[k := Some(Redir(r))] else owner
    case UnlockNext(k) => if k < |owner| then owner[k := None] else owner
    case _ => owner
  }

  /** QueueOffer on the queue of the chosen provider. */
  function QueuesAfter(d: Redirector, ps: seq<Provider>): seq<Provider> {
    match d.pc
    case Offer(j) => if j < |ps| then ps[j := Receiving(ps[j], d.client)] else ps
    case _ => ps
  }

  function Receiving(p: Provider, client: Client): Provider {
    p.(queue := p.queue + [client], late := if p.online then p.late else p.late + 1)
  }

  // ---------------------------------------------------------------- runs

  predicate Sized(c: seq<Info>, s: State) { |s.providers| == |s.owner| == |c| }

  lemma StepSized(c: seq<Info>, s: State, a: Action)
    requires Sized(c, s) && Enabled(s, a)
    ensures Sized(c, Step(c, s, a))
  {}

  predicate Feasible(c: seq<Info>, s: State, run: seq<Action>)
    requires Sized(c, s)
    decreases |run|
  {
    run == [] ||
    (Enabled(s, run[0]) && (StepSized(c, s, run[0]); Feasible(c, Step(c, s, run[0]), run[1..])))
  }

  function Run(c: seq<Info>, s: State, run: seq<Action>): State
    requires Sized(c, s) && Feasible(c, s, run)
    decreases |run|
  {
    if run == [] then s
    else StepSized(c, s, run[0]); Run(c, Step(c, s, run[0]), run[1..])
  }
}
