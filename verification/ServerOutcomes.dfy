/** What becomes of a client that has been handed to a provider: it is answered, except in
    the two cases given here exactly. */
module ServerOutcomes {
  import opened ProviderSearch
  import opened ProviderServer
  import opened ServerCounting
  import opened ServerCensus
  import opened ServerSafety

  /** Nobody takes a client out of the queue of a provider that has returned. */
  lemma {:induction false} LeftBehindForever(c: seq<Info>, s: State, run: seq<Action>, i: nat)
    requires Sized(c, s) && Feasible(c, s, run) && i < |c| && s.providers[i].pc.Returned?
    ensures Sized(c, Run(c, s, run))
    ensures var p := Run(c, s, run).providers[i];
      p.pc.Returned? && s.providers[i].queue <= p.queue && p.served == s.providers[i].served
    decreases |run|
  {
    hide Enabled, Local, Next;
    if run != [] {
      var next := Step(c, s, run[0]);
      StepSized(c, s, run[0]);
      StaysReturned(c, s, run[0], i);
      LeftBehindForever(c, next, run[1..], i);
    }
  }

  lemma StaysReturned(c: seq<Info>, s: State, a: Action, i: nat)
    requires Sized(c, s) && Enabled(s, a) && i < |c| && s.providers[i].pc.Returned?
    ensures Sized(c, Step(c, s, a))
    ensures var p := Step(c, s, a).providers[i];
      p.pc.Returned? && s.providers[i].queue <= p.queue && p.served == s.providers[i].served
  {
    hide Local, Next;
  }

  // ---------------------------------------------------------------- exactly who is left behind

  /** The client has been handed over: no redirector and not main will place it again. */
  ghost predicate HandedOver(s: State, client: Client) {
    && client < s.accepted
    && s.main != Admit(client)
    && forall r | 0 <= r < |s.redirectors| :: client !in WithRedirector(s.redirectors[r])
  }

  ghost predicate NotLeft(s: State, i: nat, client: Client) {
    i < |s.providers| && (s.providers[i].pc.Returned? ==> client !in s.providers[i].queue)
  }

  lemma {:induction false} SumAtLeast(parts: seq<multiset<Client>>, i: nat, client: Client)
    requires i < |parts|
    ensures Sum(parts)[client] >= parts[i][client]
  {
    if i > 0 { SumAtLeast(parts[1..], i - 1, client); }
  }

  /** A client that is in a queue is nowhere else. */
  lemma QueuedIsHandedOver(s: State, i: nat, client: Client)
    requires CensusRight(s) && i < |s.providers| && client in s.providers[i].queue
    ensures HandedOver(s, client)
  {
    hide Sum, UpTo;
    ExactlyOnePlace(s, client);
    SumAtLeast(ProviderParts(s.providers), i, client);
    assert ProviderParts(s.providers)[i][client] >= 1;
    forall r | 0 <= r < |s.redirectors| ensures client !in WithRedirector(s.redirectors[r]) {
      SumAtLeast(RedirectorParts(s.redirectors), r, client);
    }
  }

  /** A provider returns only with an empty queue. */
  lemma ReturnsEmpty(p: Provider, working: bool, timeout: bool)
    ensures var p' := Local(p, working, timeout);
      p'.pc.Returned? ==> p'.queue == p.queue && (p.pc.Returned? || p.queue == [])
  {
    hide Local;
    if p.pc.DrainGuard? || p.pc.Returned? {
      ReturnsFrom(p, working, timeout);
    } else {
      DoesNotReturn(p, working, timeout);
    }
  }

  lemma ReturnsFrom(p: Provider, working: bool, timeout: bool)
    requires p.pc.DrainGuard? || p.pc.Returned?
    ensures Local(p, working, timeout).queue == p.queue
    ensures p.pc.DrainGuard? && Local(p, working, timeout).pc.Returned? ==> p.queue == []
  {}

  lemma DoesNotReturn(p: Provider, working: bool, timeout: bool)
    requires !p.pc.DrainGuard? && !p.pc.Returned?
    ensures !Local(p, working, timeout).pc.Returned?
  {
    hide Poll, MustWait;
  }

  lemma ProviderNotLeft(s: State, j: nat, timeout: bool, i: nat, client: Client)
    requires j < |s.providers| == |s.owner| && HandedOver(s, client) && NotLeft(s, i, client)
    ensures HandedOver(StepProvider(s, j, timeout), client) && NotLeft(StepProvider(s, j, timeout), i, client)
  {
    hide WithRedirector, OwnMutex, CountMutexAfter, CountChange, Says, Local;
    ReturnsEmpty(s.providers[j], s.working, timeout);
  }

  lemma RedirectorNotLeft(c: seq<Info>, s: State, r: nat, priority: char, i: nat, client: Client)
    requires Sized(c, s) && r < |s.redirectors| && HandedOver(s, client) && NotLeft(s, i, client)
    ensures HandedOver(StepRedirector(c, s, r, priority), client)
    ensures NotLeft(StepRedirector(c, s, r, priority), i, client)
  {
    hide MutexesAfter, Consider, Start;
    assert client !in WithRedirector(s.redirectors[r]);
  }

  lemma StepNotLeft(c: seq<Info>, s: State, a: Action, i: nat, client: Client)
    requires Sized(c, s) && Enabled(s, a) && HandedOver(s, client) && NotLeft(s, i, client)
    ensures HandedOver(Step(c, s, a), client) && NotLeft(Step(c, s, a), i, client)
  {
    hide StepProvider, StepRedirector;
    match a
    case Interrupt =>
    case MainStep(arrived) =>
    case ProviderStep(j, timeout) => ProviderNotLeft(s, j, timeout, i, client);
    case RedirectorStep(r, priority) => RedirectorNotLeft(c, s, r, priority, i, client);
  }

  lemma {:induction false} RunNotLeft(c: seq<Info>, s: State, run: seq<Action>, i: nat, client: Client)
    requires Sized(c, s) && Feasible(c, s, run) && HandedOver(s, client) && NotLeft(s, i, client)
    ensures NotLeft(Run(c, s, run), i, client)
    decreases |run|
  {
    hide Step, Enabled, HandedOver, NotLeft;
    if run != [] {
      StepSized(c, s, run[0]);
      StepNotLeft(c, s, run[0], i, client);
      RunNotLeft(c, Step(c, s, run[0]), run[1..], i, client);
    }
  }

  // ---------------------------------------------------------------- nobody else gets it

  /** The provider has the client, or somebody has answered it. */
  ghost predicate KeptOrAnswered(s: State, i: nat, client: Client) {
    i < |s.providers| && (client in WithProvider(s.providers[i]) || client in s.answered)
  }

  lemma ProviderKeepsOrAnswers(s: State, j: nat, timeout: bool, i: nat, client: Client)
    requires j < |s.providers| == |s.owner| && ProviderRight(s.providers[j], s.working)
    requires KeptOrAnswered(s, i, client)
    ensures KeptOrAnswered(StepProvider(s, j, timeout), i, client)
  {
    hide Local, WithProvider, OwnMutex, CountMutexAfter, CountChange, Says, ProviderRight;
    LocalCensus(s.providers[j], s.working, timeout);
    var p, p' := s.providers[j], Local(s.providers[j], s.working, timeout);
    assert client in WithProvider(p) ==> client in WithProvider(p') || client in multiset(Says(p.pc));
  }

  lemma RedirectorKeepsOrAnswers(c: seq<Info>, s: State, r: nat, priority: char, i: nat, client: Client)
    requires Sized(c, s) && r < |s.redirectors| && KeptOrAnswered(s, i, client)
    ensures KeptOrAnswered(StepRedirector(c, s, r, priority), i, client)
  {
    hide MutexesAfter, Next, Hand;
    var p' := StepRedirector(c, s, r, priority).providers[i];
    assert s.providers[i].queue <= p'.queue && p'.pc == s.providers[i].pc && p'.dropped == s.providers[i].dropped;
    assert multiset(p'.queue) == multiset(s.providers[i].queue) + multiset(p'.queue[|s.providers[i].queue|..]) by {
      assert p'.queue == s.providers[i].queue + p'.queue[|s.providers[i].queue|..];
    }
  }

  /** Nothing but an answer takes a client away from its provider. */
  lemma {:induction false} RunKeepsOrAnswers(c: seq<Info>, s: State, run: seq<Action>, i: nat, client: Client)
    requires Inv(c, s) && Sized(c, s) && Feasible(c, s, run) && KeptOrAnswered(s, i, client)
    ensures KeptOrAnswered(Run(c, s, run), i, client)
    decreases |run|
  {
    hide Inv, Enabled, KeptOrAnswered, StepProvider, StepRedirector;
    if run != [] {
      var next := Step(c, s, run[0]);
      StepSized(c, s, run[0]);
      StepKeeps(c, s, run[0]);
      StepKeepsOrAnswers(c, s, run[0], i, client);
      RunKeepsOrAnswers(c, next, run[1..], i, client);
    }
  }

  lemma StepKeepsOrAnswers(c: seq<Info>, s: State, a: Action, i: nat, client: Client)
    requires Inv(c, s) && Sized(c, s) && Enabled(s, a) && KeptOrAnswered(s, i, client)
    ensures KeptOrAnswered(Step(c, s, a), i, client)
  {
    hide Inv, StepProvider, StepRedirector;
    match a
    case Interrupt =>
    case MainStep(arrived) =>
    case ProviderStep(j, timeout) =>
      ProviderOfInv(c, s, j);
      ProviderKeepsOrAnswers(s, j, timeout, i, client);
    case RedirectorStep(r, priority) => RedirectorKeepsOrAnswers(c, s, r, priority, i, client);
  }

  /** A client that a provider still has is not answered. */
  lemma WithProviderOrAnswered(c: seq<Info>, s: State, i: nat, client: Client)
    requires Inv(c, s) && i < |s.providers| && client in WithProvider(s.providers[i])
    ensures client !in s.answered
  {
    hide Inv, Sum, UpTo, WithProvider;
    CensusOfInv(c, s);
    ExactlyOnePlace(s, client);
    SumAtLeast(ProviderParts(s.providers), i, client);
    assert ProviderParts(s.providers)[i][client] >= 1;
  }

  /** What a returned provider has, it left in its queue or dropped, and not both. */
  lemma ReturnedHas(c: seq<Info>, s: State, i: nat, client: Client)
    requires Inv(c, s) && i < |s.providers| && s.providers[i].pc.Returned?
    ensures var p := s.providers[i];
      && (client in WithProvider(p) <==> client in p.queue || client in p.dropped)
      && !(client in p.queue && client in p.dropped)
      && (s.working ==> p.dropped == [])
  {
    hide Inv, Sum, UpTo;
    CensusOfInv(c, s);
    ProviderOfInv(c, s, i);
    ExactlyOnePlace(s, client);
    SumAtLeast(ProviderParts(s.providers), i, client);
    assert ProviderParts(s.providers)[i] == WithProvider(s.providers[i]);
  }

  // ---------------------------------------------------------------- an offered client

  /** A client offered to a provider that has returned by now is left behind in its queue
      exactly if the provider had already returned at the moment of the offer.  Otherwise it
      was answered, or dropped at the second look at the flags, which cannot happen while
      the server works. */
  lemma LeftBehindExactlyIfReturned(c: seq<Info>, before: seq<Action>, s: State, r: nat, i: nat,
                                    next: State, run: seq<Action>, later: State)
    requires Feasible(c, Init(c), before) && s == After(c, before)
    requires Sized(c, s) && r < |s.redirectors| && s.redirectors[r].pc == Offer(i) && i < |c|
    requires next == StepRedirector(c, s, r, ' ') && Sized(c, next)
    requires Feasible(c, next, run) && later == Run(c, next, run)
    requires i < |later.providers| && later.providers[i].pc.Returned?
    ensures var client, p := s.redirectors[r].client, later.providers[i];
      && (client in p.queue <==> s.providers[i].pc.Returned?)
      && (client in later.answered <==> !s.providers[i].pc.Returned? && client !in p.dropped)
      && (later.working ==> (client in later.answered <==> !s.providers[i].pc.Returned?))
  {
    hide Inv, StepRedirector, StepProvider, StepMain, Feasible, Run, WithProvider;
    var client := s.redirectors[r].client;
    Reachable(c, before);
    StepKeeps(c, s, RedirectorStep(r, ' '));
    OfferLands(c, s, r, i);
    QueueIsWithProvider(next.providers[i], client);
    RunKeeps(c, next, run);
    RunKeepsOrAnswers(c, next, run, i, client);
    ReturnedHas(c, later, i, client);
    if client in WithProvider(later.providers[i]) { WithProviderOrAnswered(c, later, i, client); }
    if s.providers[i].pc.Returned? {
      LeftBehindForever(c, next, run, i);
      assert client in next.providers[i].queue;
    } else {
      CensusOfInv(c, next);
      QueuedIsHandedOver(next, i, client);
      RunNotLeft(c, next, run, i, client);
    }
  }

  lemma QueueIsWithProvider(p: Provider, client: Client)
    requires client in p.queue
    ensures client in WithProvider(p)
  {}

  lemma OfferLands(c: seq<Info>, s: State, r: nat, i: nat)
    requires Sized(c, s) && r < |s.redirectors| && s.redirectors[r].pc == Offer(i) && i < |c|
    ensures var p := StepRedirector(c, s, r, ' ').providers[i];
      && p.queue == s.providers[i].queue + [s.redirectors[r].client]
      && p.pc == s.providers[i].pc
  {}

  lemma CensusOfInv(c: seq<Info>, s: State)
    requires Inv(c, s)
    ensures CensusRight(s) && Sized(c, s)
  {}

  // ---------------------------------------------------------------- a polled client

  /** What the second look decides about the client in hand. */
  ghost predicate Decided(s: State, i: nat, client: Client, dropped: bool) {
    && i < |s.providers|
    && (if dropped then client in s.providers[i].dropped
        else s.providers[i].pc == AnswerClient(client) || client in s.answered)
  }

  lemma LocalDecided(p: Provider, working: bool, timeout: bool, client: Client)
    ensures var p' := Local(p, working, timeout);
      && (client in p.dropped ==> client in p'.dropped)
      && (p.pc == AnswerClient(client) ==> Says(p.pc) == [client])
  {
    hide MustWait;
  }

  /** A decision is final. */
  lemma {:induction false} RunDecided(c: seq<Info>, s: State, run: seq<Action>, i: nat, client: Client, dropped: bool)
    requires Sized(c, s) && Feasible(c, s, run) && Decided(s, i, client, dropped)
    ensures Sized(c, Run(c, s, run)) && Decided(Run(c, s, run), i, client, dropped)
    decreases |run|
  {
    hide Enabled, Decided, StepProvider, StepRedirector;
    if run != [] {
      StepSized(c, s, run[0]);
      StepDecided(c, s, run[0], i, client, dropped);
      RunDecided(c, Step(c, s, run[0]), run[1..], i, client, dropped);
    }
  }

  lemma StepDecided(c: seq<Info>, s: State, a: Action, i: nat, client: Client, dropped: bool)
    requires Sized(c, s) && Enabled(s, a) && Decided(s, i, client, dropped)
    ensures Decided(Step(c, s, a), i, client, dropped)
  {
    hide Local, Next, Says, OwnMutex, MutexesAfter, CountMutexAfter, CountChange;
    if a.ProviderStep? { LocalDecided(s.providers[a.i], s.working, a.timeout, client); }
  }

  /** A provider that holds a polled client looks at the flags a second time.  Once it has
      returned, the client has been answered exactly if the server was working at that look,
      and forgotten exactly if it was not, whatever everybody did before and after. */
  lemma PolledAnsweredExactlyIfWorking(c: seq<Info>, before: seq<Action>, s: State, i: nat, timeout: bool,
                                       client: Client, next: State, run: seq<Action>, later: State)
    requires Feasible(c, Init(c), before) && s == After(c, before) && Sized(c, s)
    requires i < |s.providers| && s.providers[i].pc == AnswerGuard([client])
    requires next == StepProvider(s, i, timeout) && Sized(c, next)
    requires Feasible(c, next, run) && later == Run(c, next, run)
    requires i < |later.providers| && later.providers[i].pc.Returned?
    ensures client in later.answered <==> s.working
    ensures client in later.providers[i].dropped <==> !s.working
  {
    hide Inv, StepProvider, StepRedirector, StepMain, Feasible, Run, WithProvider;
    Reachable(c, before);
    assert Enabled(s, ProviderStep(i, timeout));
    StepKeeps(c, s, ProviderStep(i, timeout));
    SecondLook(c, s, i, timeout, client);
    RunKeeps(c, next, run);
    RunDecided(c, next, run, i, client, !s.working);
    ReturnedHas(c, later, i, client);
    if client in WithProvider(later.providers[i]) { WithProviderOrAnswered(c, later, i, client); }
  }

  lemma SecondLook(c: seq<Info>, s: State, i: nat, timeout: bool, client: Client)
    requires Inv(c, s) && Sized(c, s) && i < |s.providers| && s.providers[i].pc == AnswerGuard([client])
    ensures Decided(StepProvider(s, i, timeout), i, client, !s.working)
  {
    hide Inv;
    ProviderOfInv(c, s, i);
  }

  // ---------------------------------------------------------------- who leaves

  /** A run without SIGINT in which no wait of provider i ends with a time-out. */
  predicate NoReasonToLeave(run: seq<Action>, i: nat) {
    forall k | 0 <= k < |run| :: run[k] != Interrupt && run[k] != ProviderStep(i, true)
  }

  predicate Stays(s: State, i: nat) {
    && s.working && i < |s.providers|
    && !s.providers[i].timedOut && !Leaving(s.providers[i].pc) && !Gone(s.providers[i].pc)
  }

  lemma LocalStays(p: Provider)
    requires !p.timedOut && !Leaving(p.pc) && !Gone(p.pc)
    ensures var p' := Local(p, true, false); !p'.timedOut && !Leaving(p'.pc) && !Gone(p'.pc)
  {
    hide MustWait;
  }

  lemma {:induction false} RunStays(c: seq<Info>, s: State, run: seq<Action>, i: nat)
    requires Sized(c, s) && Feasible(c, s, run) && NoReasonToLeave(run, i) && Stays(s, i)
    ensures Stays(Run(c, s, run), i)
    decreases |run|
  {
    hide Local, Next, Enabled, Leaving, Gone;
    if run != [] {
      StepSized(c, s, run[0]);
      assert run[0] != Interrupt && run[0] != ProviderStep(i, true);
      if run[0].ProviderStep? && run[0].i == i { LocalStays(s.providers[i]); }
      RunStays(c, Step(c, s, run[0]), run[1..], i);
    }
  }

  /** A provider signs off only if there was a SIGINT or one of its own waits timed out. */
  lemma LeavesOnlyWithReason(c: seq<Info>, run: seq<Action>, i: nat)
    requires Feasible(c, Init(c), run) && i < |After(c, run).providers| && NoReasonToLeave(run, i)
    ensures var p := After(c, run).providers[i];
      !p.timedOut && !Leaving(p.pc) && !Gone(p.pc) && p.dropped == []
  {
    hide Inv, Feasible, Run;
    Reachable(c, run);
    CensusOfInv(c, After(c, run));
    RunStays(c, Init(c), run, i);
    ProviderOfInv(c, After(c, run), i);
  }
}
