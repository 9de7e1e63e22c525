/** `online`, `currentProviders`, and what holds inside one provider thread. */
module ServerCounting {
  import opened Options
  import opened ProviderServer
  import opened ServerLocks

  predicate NotYetOnline(pc: ProviderPc) { pc.JoinLock? || pc.CountUp? || pc.GoOnline? }

  /** The provider has signed off. */
  predicate Gone(pc: ProviderPc) {
    pc.LeaveUnlock? || pc.DrainGuard? || pc.DrainPoll? || pc.DrainAnswer? || pc.Returned?
  }

  predicate Leaving(pc: ProviderPc) { pc.LeaveLock? || pc.CountDown? || pc.GoOffline? }

  /** Included in currentProviders. */
  predicate Counted(pc: ProviderPc) {
    !(pc.JoinLock? || pc.CountUp? || pc.GoOffline? || Gone(pc))
  }

  /** The client a provider has polled and not dealt with yet. */
  function Hand(pc: ProviderPc): seq<Client> {
    match pc
    case UnlockOwn(hand) => hand
    case AnswerGuard(hand) => hand
    case AnswerClient(client) => [client]
    case DrainAnswer(client) => [client]
    case _ => []
  }

  /** `online` rises once and falls once; a queue is polled only when it has a client; an
      old request is never answered again; a polled client is forgotten only when
      `working` was cleared, and at most one by each provider. */
  ghost predicate ProviderRight(p: Provider, working: bool) {
    FlagsRight(p, working) && HandRight(p, working)
  }

  ghost predicate FlagsRight(p: Provider, working: bool) {
    && (p.online <==> !NotYetOnline(p.pc) && !Gone(p.pc))
    && (Leaving(p.pc) || Gone(p.pc) ==> p.timedOut || !working)
  }

  ghost predicate HandRight(p: Provider, working: bool) {
    && !p.pc.UsesGarbage?
    && (p.pc.PollGuard? ==> p.timedOut || !working || p.queue != [])
    && (p.pc.PollOwn? ==> p.queue != [] && !p.timedOut)
    && (p.pc.DrainPoll? ==> p.queue != [])
    && (p.pc.UnlockOwn? || p.pc.AnswerGuard? ==>
          var hand := Hand(p.pc);
          |hand| <= 1 && (hand == [] ==> p.timedOut || !working) && (hand != [] ==> !p.timedOut))
    && (p.pc.AnswerClient? ==> !p.timedOut)
    && (p.dropped != [] ==>
          !working && |p.dropped| == 1 && (p.pc.LoopGuard? || Leaving(p.pc) || Gone(p.pc)))
  }

  /** Every client polled was answered by this provider, is in its hands, or was dropped. */
  ghost predicate PolledAccounted(p: Provider) {
    Accounted(p.polled, p.served, Hand(p.pc), p.dropped)
  }

  ghost predicate Accounted(polled: seq<Client>, served: seq<Client>, hand: seq<Client>, dropped: seq<Client>) {
    multiset(polled) == multiset(served) + multiset(hand) + multiset(dropped)
  }

  predicate MovesClient(pc: ProviderPc) {
    pc.PollOwn? || pc.DrainPoll? || pc.AnswerGuard? || pc.AnswerClient? || pc.DrainAnswer?
  }

  lemma LocalKeepsRight(p: Provider, working: bool, timeout: bool)
    requires ProviderRight(p, working)
    ensures ProviderRight(Local(p, working, timeout), working)
  {
    hide FlagsRight, HandRight, Local;
    LocalKeepsFlags(p, working, timeout);
    LocalKeepsHand(p, working, timeout);
  }

  lemma LocalKeepsFlags(p: Provider, working: bool, timeout: bool)
    requires ProviderRight(p, working)
    ensures FlagsRight(Local(p, working, timeout), working)
  {
    hide Hand, MustWait;
  }

  lemma LocalKeepsHand(p: Provider, working: bool, timeout: bool)
    requires HandRight(p, working)
    ensures HandRight(Local(p, working, timeout), working)
  {
    hide HandRight, Local;
    if MovesClient(p.pc) { MovingKeepsHand(p, working, timeout); } else { QuietKeepsHand(p, working, timeout); }
  }

  lemma MovingKeepsHand(p: Provider, working: bool, timeout: bool)
    requires HandRight(p, working) && MovesClient(p.pc)
    ensures HandRight(Local(p, working, timeout), working)
  {
    hide MustWait;
  }

  lemma QuietKeepsHand(p: Provider, working: bool, timeout: bool)
    requires HandRight(p, working) && !MovesClient(p.pc)
    ensures HandRight(Local(p, working, timeout), working)
  {
    hide Poll;
  }

  lemma LocalQuiet(p: Provider, working: bool, timeout: bool)
    requires !MovesClient(p.pc)
    ensures var p' := Local(p, working, timeout);
      && p'.queue == p.queue && p'.polled == p.polled && p'.served == p.served && p'.dropped == p.dropped
      && Hand(p'.pc) == Hand(p.pc)
  {}

  /** The steps that take a client from the queue. */
  lemma LocalPolls(p: Provider, working: bool, timeout: bool)
    requires (p.pc.PollOwn? || p.pc.DrainPoll?) && p.queue != []
    ensures var p' := Local(p, working, timeout);
      && p'.queue == p.queue[1..] && p'.polled == p.polled + [p.queue[0]]
      && p'.served == p.served && p'.dropped == p.dropped
      && Hand(p.pc) == [] && Hand(p'.pc) == [p.queue[0]]
  {}

  /** The steps that answer a client. */
  lemma LocalServes(p: Provider, working: bool, timeout: bool)
    requires p.pc.AnswerClient? || p.pc.DrainAnswer?
    ensures var p' := Local(p, working, timeout);
      && p'.queue == p.queue && p'.polled == p.polled && p'.dropped == p.dropped
      && p'.served == p.served + Says(p.pc)
      && Hand(p.pc) == Says(p.pc) == [p.pc.client] && Hand(p'.pc) == []
  {}

  /** The second look at the flags: the client stays in hand exactly when the provider
      has not timed out and the server still works; otherwise it is forgotten. */
  lemma LocalDecides(p: Provider, working: bool, timeout: bool)
    requires p.pc.AnswerGuard? && ProviderRight(p, working)
    ensures var p' := Local(p, working, timeout);
      && p'.queue == p.queue && p'.polled == p.polled && p'.served == p.served
      && (if !p.timedOut && working
          then p'.dropped == p.dropped && Hand(p'.pc) == Hand(p.pc)
          else p'.dropped == p.dropped + Hand(p.pc) && Hand(p'.pc) == [])
  {
    assert |p.pc.hand| == 1 ==> p.pc.hand == [p.pc.hand[0]];
  }

  lemma AccountPoll(polled: seq<Client>, served: seq<Client>, dropped: seq<Client>, x: Client)
    requires Accounted(polled, served, [], dropped)
    ensures Accounted(polled + [x], served, [x], dropped)
  {}

  lemma AccountServe(polled: seq<Client>, served: seq<Client>, dropped: seq<Client>, x: Client)
    requires Accounted(polled, served, [x], dropped)
    ensures Accounted(polled, served + [x], [], dropped)
  {}

  lemma AccountDrop(polled: seq<Client>, served: seq<Client>, hand: seq<Client>, dropped: seq<Client>)
    requires Accounted(polled, served, hand, dropped)
    ensures Accounted(polled, served, [], dropped + hand)
  {}

  lemma LocalKeepsAccount(p: Provider, working: bool, timeout: bool)
    requires ProviderRight(p, working) && PolledAccounted(p)
    ensures PolledAccounted(Local(p, working, timeout))
  {
    hide Accounted, Local, Hand;
    if p.pc.PollOwn? || p.pc.DrainPoll? {
      LocalPolls(p, working, timeout);
      AccountPoll(p.polled, p.served, p.dropped, p.queue[0]);
    } else if p.pc.AnswerClient? || p.pc.DrainAnswer? {
      LocalServes(p, working, timeout);
      AccountServe(p.polled, p.served, p.dropped, p.pc.client);
    } else if p.pc.AnswerGuard? {
      LocalDecides(p, working, timeout);
      AccountDrop(p.polled, p.served, Hand(p.pc), p.dropped);
    } else {
      LocalQuiet(p, working, timeout);
    }
  }

  // ---------------------------------------------------------------- counting providers

  function Count(bits: seq<bool>): nat {
    if bits == [] then 0 else (if bits[0] then 1 else 0) + Count(bits[1..])
  }

  lemma {:induction false} CountUpdate(bits: seq<bool>, i: nat, b: bool)
    requires i < |bits|
    ensures Count(bits[i := b]) == Count(bits) - (if bits[i] then 1 else 0) + (if b then 1 else 0)
  {
    if i == 0 {
      assert bits[i := b][1..] == bits[1..];
    } else {
      assert bits[i := b][1..] == bits[1..][i - 1 := b];
      CountUpdate(bits[1..], i - 1, b);
    }
  }

  lemma {:induction false} CountNone(n: nat)
    ensures Count(seq(n, _ => false)) == 0
  {
    if n > 0 {
      assert seq(n, _ => false)[1..] == seq(n - 1, _ => false);
      CountNone(n - 1);
    }
  }

  function CountedBits(ps: seq<Provider>): seq<bool> {
    seq(|ps|, i requires 0 <= i < |ps| => Counted(ps[i].pc))
  }

  function OnlineBits(ps: seq<Provider>): seq<bool> {
    seq(|ps|, i requires 0 <= i < |ps| => ps[i].online)
  }

  ghost predicate CounterRight(s: State) { s.currentProviders == Count(CountedBits(s.providers)) }

  lemma CountChangeFollows(p: Provider, working: bool, timeout: bool)
    requires ProviderRight(p, working)
    ensures CountChange(p.pc) ==
      (if Counted(Local(p, working, timeout).pc) then 1 else 0) - (if Counted(p.pc) then 1 else 0)
  {}

  lemma ProviderCounter(s: State, i: nat, timeout: bool)
    requires i < |s.providers| == |s.owner|
    requires CounterRight(s) && ProviderRight(s.providers[i], s.working)
    ensures CounterRight(StepProvider(s, i, timeout))
  {
    hide Local, Counted, CountChange, Count, ProviderRight;
    var p' := Local(s.providers[i], s.working, timeout);
    CountChangeFollows(s.providers[i], s.working, timeout);
    CountUpdate(CountedBits(s.providers), i, Counted(p'.pc));
    assert CountedBits(StepProvider(s, i, timeout).providers) == CountedBits(s.providers)[i := Counted(p'.pc)];
  }

  /** Whenever countMutex is free, the counter is the number of providers that are online. */
  lemma CounterIsOnline(s: State)
    requires CounterRight(s) && CountOwnerRight(s)
    requires forall i | 0 <= i < |s.providers| :: ProviderRight(s.providers[i], s.working)
    ensures s.countOwner == None ==> s.currentProviders == Count(OnlineBits(s.providers))
  {
    if s.countOwner == None {
      forall i | 0 <= i < |s.providers|
        ensures CountedBits(s.providers)[i] == OnlineBits(s.providers)[i]
      {
        assert !HoldsCount(s.providers[i].pc);
      }
      assert CountedBits(s.providers) == OnlineBits(s.providers);
    }
  }
}
