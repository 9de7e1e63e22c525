/** Every accepted client is in exactly one place. */
module ServerCensus {
  import opened ProviderSearch
  import opened ProviderServer
  import opened ServerCounting

  /** The clients that provider has: in its queue, in its hands, or forgotten. */
  function WithProvider(p: Provider): multiset<Client> {
    multiset(p.queue) + multiset(Hand(p.pc)) + multiset(p.dropped)
  }

  /** The client a redirector still has to place. */
  function WithRedirector(d: Redirector): multiset<Client> {
    if d.pc.UnlockNext? || d.pc.Finished? then multiset{} else multiset{d.client}
  }

  function WithMain(pc: MainPc): multiset<Client> {
    match pc case Admit(client) => multiset{client} case _ => multiset{}
  }

  function Sum(parts: seq<multiset<Client>>): multiset<Client> {
    if parts == [] then multiset{} else parts[0] + Sum(parts[1..])
  }

  function ProviderParts(ps: seq<Provider>): seq<multiset<Client>> {
    seq(|ps|, i requires 0 <= i < |ps| => WithProvider(ps[i]))
  }

  function RedirectorParts(ds: seq<Redirector>): seq<multiset<Client>> {
    seq(|ds|, r requires 0 <= r < |ds| => WithRedirector(ds[r]))
  }

  /** All clients in the server, counted with their number of places. */
  function Census(s: State): multiset<Client> {
    Sum(ProviderParts(s.providers)) + Sum(RedirectorParts(s.redirectors))
    + WithMain(s.main) + multiset(s.answered)
  }

  function UpTo(n: nat): multiset<Client> {
    if n == 0 then multiset{} else UpTo(n - 1) + multiset{n - 1}
  }

  ghost predicate CensusRight(s: State) { Census(s) == UpTo(s.accepted) }

  // ---------------------------------------------------------------- sums

  lemma {:induction false} SumUpdate(parts: seq<multiset<Client>>, i: nat, m: multiset<Client>)
    requires i < |parts|
    ensures Sum(parts[i := m]) + parts[i] == Sum(parts) + m
  {
    if i == 0 {
      assert parts[i := m][1..] == parts[1..];
    } else {
      assert parts[i := m][1..] == parts[1..][i - 1 := m];
      SumUpdate(parts[1..], i - 1, m);
      var after, before := Sum(parts[1..][i - 1 := m]), Sum(parts[1..]);
      assert parts[0] + after + parts[i] == parts[0] + (after + parts[i]);
      assert parts[0] + before + m == parts[0] + (before + m);
    }
  }

  lemma {:induction false} SumAppend(parts: seq<multiset<Client>>, m: multiset<Client>)
    ensures Sum(parts + [m]) == Sum(parts) + m
  {
    if parts == [] {
      assert (parts + [m])[1..] == [];
    } else {
      assert (parts + [m])[1..] == parts[1..] + [m];
      SumAppend(parts[1..], m);
    }
  }

  lemma {:induction false} SumEmpty(parts: seq<multiset<Client>>)
    requires forall k | 0 <= k < |parts| :: parts[k] == multiset{}
    ensures Sum(parts) == multiset{}
  {
    if parts != [] { SumEmpty(parts[1..]); }
  }

  lemma {:induction false} UpToIs(n: nat, client: Client)
    ensures UpTo(n)[client] == if client < n then 1 else 0
  {
    if n > 0 { UpToIs(n - 1, client); }
  }

  // ---------------------------------------------------------------- the steps

  /** A provider's step moves its clients among its own places, or into `answered`. */
  lemma LocalCensus(p: Provider, working: bool, timeout: bool)
    requires ProviderRight(p, working)
    ensures WithProvider(Local(p, working, timeout)) + multiset(Says(p.pc)) == WithProvider(p)
  {
    hide Local, Hand, ProviderRight;
    if p.pc.PollOwn? || p.pc.DrainPoll? {
      assert p.queue != [] by { PollsFull(p, working); }
      LocalPolls(p, working, timeout);
      assert p.queue == [p.queue[0]] + p.queue[1..];
    } else if p.pc.AnswerClient? || p.pc.DrainAnswer? {
      LocalServes(p, working, timeout);
    } else if p.pc.AnswerGuard? {
      LocalDecides(p, working, timeout);
    } else {
      LocalQuiet(p, working, timeout);
    }
  }

  lemma PollsFull(p: Provider, working: bool)
    requires ProviderRight(p, working) && (p.pc.PollOwn? || p.pc.DrainPoll?)
    ensures p.queue != []
  {}

  lemma ProviderCensus(s: State, i: nat, timeout: bool)
    requires i < |s.providers| == |s.owner|
    requires CensusRight(s) && ProviderRight(s.providers[i], s.working)
    ensures CensusRight(StepProvider(s, i, timeout))
  {
    hide Local, Says, WithProvider, Sum, UpTo, ProviderRight, WithRedirector;
    var p := s.providers[i];
    var p' := Local(p, s.working, timeout);
    LocalCensus(p, s.working, timeout);
    SumUpdate(ProviderParts(s.providers), i, WithProvider(p'));
    var s' := StepProvider(s, i, timeout);
    assert ProviderParts(s'.providers) == ProviderParts(s.providers)[i := WithProvider(p')];
    Exchange(Sum(ProviderParts(s'.providers)), Sum(ProviderParts(s.providers)), WithProvider(p'), WithProvider(p),
             multiset(Says(p.pc)));
    assert multiset(s'.answered) == multiset(s.answered) + multiset(Says(p.pc));
  }

  /** What one part loses, `gone`, the total loses too. */
  lemma Exchange(total': multiset<Client>, total: multiset<Client>, part': multiset<Client>, part: multiset<Client>,
                 gone: multiset<Client>)
    requires total' + part == total + part' && part' + gone == part
    ensures total' + gone == total
  {
    forall x ensures total'[x] + gone[x] == total[x] {
      assert (total' + part)[x] == (total + part')[x];
      assert (part' + gone)[x] == part[x];
    }
  }

  lemma RefuseCensus(c: seq<Info>, s: State, r: nat, priority: char)
    requires Sized(c, s) && r < |s.redirectors| && s.redirectors[r].pc.Refuse? && CensusRight(s)
    ensures CensusRight(StepRedirector(c, s, r, priority))
  {
    hide Sum, UpTo, WithProvider;
    var s' := StepRedirector(c, s, r, priority);
    var client := s.redirectors[r].client;
    SumUpdate(RedirectorParts(s.redirectors), r, multiset{});
    assert RedirectorParts(s'.redirectors) == RedirectorParts(s.redirectors)[r := multiset{}];
    Exchange(Sum(RedirectorParts(s'.redirectors)), Sum(RedirectorParts(s.redirectors)), multiset{}, multiset{client},
             multiset{client});
    assert multiset(s'.answered) == multiset(s.answered) + multiset{client};
  }

  lemma OfferCensus(c: seq<Info>, s: State, r: nat, priority: char)
    requires Sized(c, s) && r < |s.redirectors| && s.redirectors[r].pc.Offer? && CensusRight(s)
    requires s.redirectors[r].pc.index < |s.providers|
    ensures CensusRight(StepRedirector(c, s, r, priority))
  {
    hide Sum, UpTo;
    var s' := StepRedirector(c, s, r, priority);
    var client, j := s.redirectors[r].client, s.redirectors[r].pc.index;
    var p, p' := s.providers[j], Receiving(s.providers[j], s.redirectors[r].client);
    SumUpdate(RedirectorParts(s.redirectors), r, multiset{});
    assert RedirectorParts(s'.redirectors) == RedirectorParts(s.redirectors)[r := multiset{}];
    Exchange(Sum(RedirectorParts(s'.redirectors)), Sum(RedirectorParts(s.redirectors)), multiset{}, multiset{client},
             multiset{client});
    SumUpdate(ProviderParts(s.providers), j, WithProvider(p'));
    assert ProviderParts(s'.providers) == ProviderParts(s.providers)[j := WithProvider(p')];
    assert WithProvider(p) + multiset{client} == WithProvider(p');
    Exchange(Sum(ProviderParts(s.providers)), Sum(ProviderParts(s'.providers)), WithProvider(p), WithProvider(p'),
             multiset{client});
  }

  lemma QuietRedirector(c: seq<Info>, s: State, r: nat, priority: char)
    requires Sized(c, s) && r < |s.redirectors|
    requires !s.redirectors[r].pc.Offer? && !s.redirectors[r].pc.Refuse?
    ensures var s' := StepRedirector(c, s, r, priority);
      && |s'.redirectors| == |s.redirectors|
      && s'.redirectors == s.redirectors[r := s'.redirectors[r]]
      && WithRedirector(s'.redirectors[r]) == WithRedirector(s.redirectors[r])
      && s'.providers == s.providers && s'.answered == s.answered
      && s'.main == s.main && s'.accepted == s.accepted
  {
    hide Consider, Start;
  }

  lemma QuietCensus(c: seq<Info>, s: State, r: nat, priority: char)
    requires Sized(c, s) && r < |s.redirectors| && CensusRight(s)
    requires !s.redirectors[r].pc.Offer? && !s.redirectors[r].pc.Refuse?
    ensures CensusRight(StepRedirector(c, s, r, priority))
  {
    hide Sum, UpTo, ProviderParts, StepRedirector, WithRedirector, WithMain;
    QuietRedirector(c, s, r, priority);
    var s' := StepRedirector(c, s, r, priority);
    assert RedirectorParts(s'.redirectors) == RedirectorParts(s.redirectors);
  }

  lemma RedirectorCensus(c: seq<Info>, s: State, r: nat, priority: char)
    requires Sized(c, s) && r < |s.redirectors| && CensusRight(s)
    requires s.redirectors[r].pc.Offer? ==> s.redirectors[r].pc.index < |s.providers|
    ensures CensusRight(StepRedirector(c, s, r, priority))
  {
    hide CensusRight, StepRedirector;
    if s.redirectors[r].pc.Refuse? {
      RefuseCensus(c, s, r, priority);
    } else if s.redirectors[r].pc.Offer? {
      OfferCensus(c, s, r, priority);
    } else {
      QuietCensus(c, s, r, priority);
    }
  }

  lemma Regroup(a: multiset<Client>, b: multiset<Client>, m: multiset<Client>, d: multiset<Client>)
    ensures a + (b + m) + multiset{} + d == a + b + m + d
    ensures a + b + multiset{} + (d + m) == a + b + m + d
  {}

  lemma AdmitCensus(s: State, arrived: bool)
    requires CensusRight(s) && s.main.Admit?
    ensures CensusRight(StepMain(s, arrived))
  {
    hide Sum, WithProvider, ProviderParts, UpTo;
    var s' := StepMain(s, arrived);
    var client := s.main.client;
    var parts := RedirectorParts(s.redirectors);
    Regroup(Sum(ProviderParts(s.providers)), Sum(parts), multiset{client}, multiset(s.answered));
    if s'.answered == s.answered {
      assert s'.redirectors == s.redirectors + [Redirector(Receive, client, ' ', [])];
      assert RedirectorParts(s'.redirectors) == parts + [multiset{client}];
      SumAppend(parts, multiset{client});
    } else {
      assert s'.answered == s.answered + [client] && s'.redirectors == s.redirectors;
      assert multiset(s'.answered) == multiset(s.answered) + multiset{client};
    }
  }

  lemma AcceptCensus(s: State)
    requires CensusRight(s) && s.main.Accept?
    ensures CensusRight(StepMain(s, true))
  {
    hide Sum, ProviderParts, RedirectorParts, UpTo;
    OneMoreClient(Sum(ProviderParts(s.providers)), Sum(RedirectorParts(s.redirectors)),
                  multiset(s.answered), s.accepted);
  }

  lemma OneMoreClient(a: multiset<Client>, b: multiset<Client>, d: multiset<Client>, n: nat)
    requires a + b + multiset{} + d == UpTo(n)
    ensures a + b + multiset{n} + d == UpTo(n + 1)
  {
    assert a + b + multiset{n} + d == a + b + multiset{} + d + multiset{n};
  }

  lemma MainCensus(s: State, arrived: bool)
    requires CensusRight(s)
    ensures CensusRight(StepMain(s, arrived))
  {
    hide Sum, ProviderParts, RedirectorParts, UpTo;
    if s.main.Admit? {
      AdmitCensus(s, arrived);
    } else if s.main.Accept? && arrived {
      AcceptCensus(s);
    }
  }

  /** A client that was accepted has exactly one place, and one that was not has none. */
  lemma ExactlyOnePlace(s: State, client: Client)
    requires CensusRight(s)
    ensures Census(s)[client] == if client < s.accepted then 1 else 0
  {
    UpToIs(s.accepted, client);
  }
}
