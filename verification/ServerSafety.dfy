/** The provider server over all its runs, up to the start of main's teardown. */
module ServerSafety {
  import opened Options
  import opened ProviderServer
  import opened ServerLocks
  import opened ServerCounting
  import opened ServerQueues
  import opened ServerCensus

  ghost predicate ProvidersRight(s: State) {
    forall i | 0 <= i < |s.providers| :: ProviderRight(s.providers[i], s.working) && PolledAccounted(s.providers[i])
  }

  ghost predicate Inv(c: seq<Info>, s: State) {
    && Sized(c, s) && OwnersRight(s) && CountOwnerRight(s) && CounterRight(s)
    && ProvidersRight(s) && QueuesRight(s) && CensusRight(s)
  }

  // ---------------------------------------------------------------- every step

  lemma InitProvider(working: bool)
    ensures var p := Provider(JoinLock, false, false, [], [], [], [], 0);
      ProviderRight(p, working) && PolledAccounted(p) && QueueRight(p) && WithProvider(p) == multiset{}
  {}

  lemma InitCounts(c: seq<Info>)
    ensures CounterRight(Init(c)) && CensusRight(Init(c))
  {
    var s := Init(c);
    CountNone(|c|);
    assert CountedBits(s.providers) == seq(|c|, _ => false);
    InitProvider(true);
    SumEmpty(ProviderParts(s.providers));
    assert RedirectorParts(s.redirectors) == [];
  }

  lemma InitHolds(c: seq<Info>)
    ensures Inv(c, Init(c))
  {
    hide ProviderRight, PolledAccounted, QueueRight, CounterRight, CensusRight;
    InitProvider(true);
    InitCounts(c);
  }

  lemma AfterInterrupt(p: Provider)
    requires ProviderRight(p, true)
    ensures ProviderRight(p, false)
  {}

  lemma InterruptKeeps(c: seq<Info>, s: State)
    requires Inv(c, s)
    ensures Inv(c, s.(working := false))
  {
    hide ProviderRight, PolledAccounted, Census, CounterRight, UpTo, QueueRight, Chosen;
    var s' := s.(working := false);
    forall i | 0 <= i < |s.providers| ensures ProviderRight(s'.providers[i], false) {
      if s.working { AfterInterrupt(s.providers[i]); }
    }
    assert forall t: Tid, k: nat :: Holds(s', t, k) <==> Holds(s, t, k);
    assert Census(s') == Census(s) by { SameCensus(s, s'); }
    assert CounterRight(s') by { SameCounter(s, s'); }
    assert forall r | 0 <= r < |s.redirectors| ::
      ChoiceRight(s', s.redirectors[r].pc) <==> ChoiceRight(s, s.redirectors[r].pc);
  }

  lemma SameCensus(s: State, s': State)
    requires s' == s.(working := false)
    ensures Census(s') == Census(s)
  {}

  lemma SameCounter(s: State, s': State)
    requires s'.providers == s.providers && s'.currentProviders == s.currentProviders && CounterRight(s)
    ensures CounterRight(s')
  {}

  lemma MainKeeps(c: seq<Info>, s: State, arrived: bool)
    requires Inv(c, s)
    ensures Inv(c, StepMain(s, arrived))
  {
    hide ProviderRight, PolledAccounted, Census, CounterRight, UpTo, QueueRight, Chosen, OwnersRight, CensusRight;
    var s' := StepMain(s, arrived);
    MainLocks(s, arrived);
    MainCensus(s, arrived);
    assert CounterRight(s') by { SameCounter(s, s'); }
    forall r | 0 <= r < |s'.redirectors| ensures ChoiceRight(s', s'.redirectors[r].pc) {
      if r < |s.redirectors| { assert ChoiceRight(s, s.redirectors[r].pc); }
    }
  }

  lemma ProviderKeeps(c: seq<Info>, s: State, i: nat, timeout: bool)
    requires Inv(c, s) && Enabled(s, ProviderStep(i, timeout))
    ensures Inv(c, StepProvider(s, i, timeout))
  {
    hide Local, ProviderRight, PolledAccounted, OwnersRight, CountOwnerRight, CounterRight, QueuesRight, CensusRight;
    var p := s.providers[i];
    assert p.pc.PollOwn? ==> p.queue != [] by { if p.pc.PollOwn? { PollsFull(p, s.working); } }
    ProviderLocks(s, i, timeout);
    ProviderCountOwner(s, i, timeout);
    ProviderCounter(s, i, timeout);
    ProviderQueues(s, i, timeout);
    ProviderCensus(s, i, timeout);
    LocalKeepsRight(p, s.working, timeout);
    LocalKeepsAccount(p, s.working, timeout);
  }

  lemma ReceivingKeeps(p: Provider, working: bool, client: Client)
    requires ProviderRight(p, working) && PolledAccounted(p)
    ensures ProviderRight(Receiving(p, client), working) && PolledAccounted(Receiving(p, client))
  {}

  lemma RedirectorOthers(c: seq<Info>, s: State, r: nat, priority: char)
    requires Sized(c, s) && r < |s.redirectors|
    requires CountOwnerRight(s) && CounterRight(s) && ProvidersRight(s)
    ensures var s' := StepRedirector(c, s, r, priority);
      CountOwnerRight(s') && CounterRight(s') && ProvidersRight(s')
  {
    hide ProviderRight, PolledAccounted, Next, MutexesAfter, HoldsCount, Count;
    var s', d := StepRedirector(c, s, r, priority), s.redirectors[r];
    if d.pc.Offer? && d.pc.index < |s.providers| {
      ReceivingKeeps(s.providers[d.pc.index], s.working, d.client);
    }
    assert forall i | 0 <= i < |s.providers| :: s'.providers[i].pc == s.providers[i].pc;
    assert CountedBits(s'.providers) == CountedBits(s.providers);
  }

  lemma RedirectorKeeps(c: seq<Info>, s: State, r: nat, priority: char)
    requires Inv(c, s) && Enabled(s, RedirectorStep(r, priority))
    ensures Inv(c, StepRedirector(c, s, r, priority))
  {
    hide ProviderRight, PolledAccounted, OwnersRight, CountOwnerRight, CounterRight, QueueRight, Chosen, CensusRight,
      Next, MutexesAfter;
    StepSized(c, s, RedirectorStep(r, priority));
    RedirectorLocks(c, s, r, priority);
    RedirectorOthers(c, s, r, priority);
    assert ChoiceRight(s, s.redirectors[r].pc);
    RedirectorCensus(c, s, r, priority);
    if s.redirectors[r].pc.Offer? {
      OfferQueues(c, s, r, priority);
    } else {
      OtherQueues(c, s, r, priority);
    }
  }

  lemma StepKeeps(c: seq<Info>, s: State, a: Action)
    requires Inv(c, s) && Enabled(s, a)
    ensures Inv(c, Step(c, s, a))
  {
    hide OwnersRight, CountOwnerRight, CounterRight, ProvidersRight, QueuesRight, CensusRight,
      StepMain, StepProvider, StepRedirector;
    match a
    case Interrupt => InterruptKeeps(c, s);
    case MainStep(arrived) => MainKeeps(c, s, arrived);
    case ProviderStep(i, timeout) => ProviderKeeps(c, s, i, timeout);
    case RedirectorStep(r, priority) => RedirectorKeeps(c, s, r, priority);
  }

  lemma {:induction false} RunKeeps(c: seq<Info>, s: State, run: seq<Action>)
    requires Inv(c, s) && Feasible(c, s, run)
    ensures Inv(c, Run(c, s, run))
    decreases |run|
  {
    hide OwnersRight, CountOwnerRight, CounterRight, ProvidersRight, QueuesRight, CensusRight, Step;
    if run != [] {
      StepKeeps(c, s, run[0]);
      RunKeeps(c, Step(c, s, run[0]), run[1..]);
    }
  }

  /** The state after a run from the start. */
  function After(c: seq<Info>, run: seq<Action>): State
    requires Feasible(c, Init(c), run)
  {
    Run(c, Init(c), run)
  }

  lemma Reachable(c: seq<Info>, run: seq<Action>)
    requires Feasible(c, Init(c), run)
    ensures Inv(c, After(c, run))
  {
    InitHolds(c);
    RunKeeps(c, Init(c), run);
  }

  // ---------------------------------------------------------------- main results

  predicate CanStep(s: State, t: Tid) {
    match t
    case Prov(i) => Enabled(s, ProviderStep(i, false))
    case Redir(r) => Enabled(s, RedirectorStep(r, ' '))
  }

  /** No deadlock on the mutexes, for any number of providers and redirectors: whoever
      is blocked waits, directly or through others, for a thread that can move. */
  lemma NoMutexDeadlock(c: seq<Info>, run: seq<Action>, t: Tid) returns (chain: seq<Tid>)
    requires Feasible(c, Init(c), run) && Blocked(After(c, run), t)
    ensures WaitChain(After(c, run), chain) && chain[0] == t && |chain| > 1
    ensures CanStep(After(c, run), chain[|chain| - 1])
  {
    hide Inv, Feasible, Run, Blocked, Enabled, WaitsFor;
    Reachable(c, run);
    var s := After(c, run);
    LocksOfInv(c, s);
    chain := WaitChainEnds(s, t);
    OwnerCanStep(s, chain[|chain| - 2], chain[|chain| - 1]);
  }

  lemma LocksOfInv(c: seq<Info>, s: State)
    requires Inv(c, s)
    ensures OwnersRight(s) && CountOwnerRight(s)
  {}

  /** Whenever countMutex is free, currentProviders is the number of providers online. */
  lemma CounterMatchesOnline(c: seq<Info>, run: seq<Action>)
    requires Feasible(c, Init(c), run)
    ensures var s := After(c, run);
      s.countOwner == None ==> s.currentProviders == Count(OnlineBits(s.providers))
  {
    Reachable(c, run);
    CounterIsOnline(After(c, run));
  }

  /** No queue outgrows its limit; at most one client is ever offered to a provider that
      is offline, and that is the only client a returned provider can leave behind. */
  lemma AtMostOneLeftBehind(c: seq<Info>, run: seq<Action>, i: nat)
    requires Feasible(c, Init(c), run) && i < |After(c, run).providers|
    ensures var p := After(c, run).providers[i];
      && |p.queue| <= 2
      && p.late <= 1
      && (p.pc.Returned? ==> |p.queue| <= p.late)
  {
    Reachable(c, run);
    assert QueueRight(After(c, run).providers[i]);
  }

  /** Every accepted client is in exactly one place, and is answered at most once. */
  lemma OnePlaceForEachClient(c: seq<Info>, run: seq<Action>, client: Client)
    requires Feasible(c, Init(c), run)
    ensures var s := After(c, run);
      && Census(s)[client] == (if client < s.accepted then 1 else 0)
      && multiset(s.answered)[client] <= 1
  {
    hide Sum, UpTo, ProviderParts, RedirectorParts, WithMain;
    Reachable(c, run);
    ExactlyOnePlace(After(c, run), client);
  }

  /** A provider that has returned answered every client it polled, except at most one,
      which it can only lose after `working` was cleared. */
  lemma ReturnedAnsweredAll(c: seq<Info>, run: seq<Action>, i: nat)
    requires Feasible(c, Init(c), run) && i < |After(c, run).providers|
    requires After(c, run).providers[i].pc.Returned?
    ensures var s := After(c, run); var p := s.providers[i];
      && multiset(p.polled) == multiset(p.served) + multiset(p.dropped)
      && |p.dropped| <= 1
      && (s.working ==> multiset(p.polled) == multiset(p.served))
  {
    hide *;
    Reachable(c, run);
    var s := After(c, run);
    ProviderOfInv(c, s, i);
    ReturnedFacts(s.providers[i], s.working);
  }

  lemma ProviderOfInv(c: seq<Info>, s: State, i: nat)
    requires Inv(c, s) && i < |s.providers|
    ensures ProviderRight(s.providers[i], s.working) && PolledAccounted(s.providers[i])
  {}

  lemma ReturnedFacts(p: Provider, working: bool)
    requires ProviderRight(p, working) && PolledAccounted(p) && p.pc.Returned?
    ensures multiset(p.polled) == multiset(p.served) + multiset(p.dropped)
    ensures |p.dropped| <= 1 && (working ==> multiset(p.polled) == multiset(p.served))
  {}
}
