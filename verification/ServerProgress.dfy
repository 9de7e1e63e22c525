/** The provider server comes to rest: between accepted connections and ends of waiting,
    every thread has only a bounded number of steps to take. */
module ServerProgress {
  import opened ProviderServer
  import opened ServerCounting
  import opened ServerSafety
  import opened ServerChoice

  // ---------------------------------------------------------------- ranks

  /** Steps a provider can take before it waits or returns, if nothing is added to its queue,
      while it stays on; */
  function GoRank(pc: ProviderPc): nat {
    match pc
    case JoinLock => 8 case CountUp => 7 case GoOnline => 6 case JoinUnlock => 5
    case UnlockOwn(_) => 7 case AnswerGuard(_) => 6 case AnswerClient(_) => 5
    case LoopGuard => 4 case LockOwn => 3 case Relock => 3 case InnerGuard => 2 case PollGuard => 1
    case _ => 0
  }

  /** after it has timed out or the server has been told to stop. */
  function StopRank(pc: ProviderPc): nat {
    match pc
    case JoinLock => 10 case CountUp => 9 case GoOnline => 8 case JoinUnlock => 7
    case LockOwn => 12 case Relock => 12 case InnerGuard => 11 case PollGuard => 10
    case UnlockOwn(_) => 9 case AnswerGuard(_) => 8 case AnswerClient(_) => 7 case LoopGuard => 6
    case LeaveLock => 5 case CountDown => 4 case GoOffline => 3 case LeaveUnlock => 2
    case DrainAnswer(_) => 2 case DrainGuard => 1
    case _ => 0
  }

  function ProviderRank(p: Provider, working: bool): nat {
    10 * |p.queue| + (if working && !p.timedOut then GoRank(p.pc) else StopRank(p.pc))
  }

  /** Steps a redirector can take, and what its offer adds to a provider's rank. */
  function RedirRank(pc: RedirPc, n: nat): int {
    match pc
    case Receive => 3 * n + 15
    case LockNext(k) => 3 * n + 14 - k
    case Search(i, _) => 2 * n + 13 - i
    case Offer(_) => n + 12
    case Refuse => n + 12
    case UnlockNext(k) => n + 1 - k
    case Finished => 0
  }

  function MainRank(pc: MainPc, n: nat): nat {
    match pc case Guard => 1 case Accept => 0 case Admit(_) => 3 * n + 17 case Teardown => 0
  }

  function Providers(ps: seq<Provider>, working: bool): nat {
    if ps == [] then 0 else ProviderRank(ps[0], working) + Providers(ps[1..], working)
  }

  function Redirectors(ds: seq<Redirector>, n: nat): int {
    if ds == [] then 0 else RedirRank(ds[0].pc, n) + Redirectors(ds[1..], n)
  }

  function Rank(s: State): int {
    (if s.working then 12 * |s.providers| else 0)
    + Providers(s.providers, s.working) + Redirectors(s.redirectors, |s.providers|)
    + MainRank(s.main, |s.providers|)
  }

  lemma {:induction false} ProvidersUpdate(ps: seq<Provider>, i: nat, p: Provider, working: bool)
    requires i < |ps|
    ensures Providers(ps[i := p], working)
         == Providers(ps, working) - ProviderRank(ps[i], working) + ProviderRank(p, working)
  {
    hide ProviderRank;
    if i == 0 {
      assert ps[i := p][1..] == ps[1..];
    } else {
      assert ps[i := p][1..] == ps[1..][i - 1 := p];
      ProvidersUpdate(ps[1..], i - 1, p, working);
    }
  }

  lemma {:induction false} RedirectorsUpdate(ds: seq<Redirector>, r: nat, d: Redirector, n: nat)
    requires r < |ds|
    ensures Redirectors(ds[r := d], n) == Redirectors(ds, n) - RedirRank(ds[r].pc, n) + RedirRank(d.pc, n)
  {
    hide RedirRank;
    if r == 0 {
      assert ds[r := d][1..] == ds[1..];
    } else {
      assert ds[r := d][1..] == ds[1..][r - 1 := d];
      RedirectorsUpdate(ds[1..], r - 1, d, n);
    }
  }

  lemma {:induction false} RedirectorsAppend(ds: seq<Redirector>, d: Redirector, n: nat)
    ensures Redirectors(ds + [d], n) == Redirectors(ds, n) + RedirRank(d.pc, n)
  {
    hide RedirRank;
    if ds == [] {
      assert (ds + [d])[1..] == [];
    } else {
      assert (ds + [d])[1..] == ds[1..] + [d];
      RedirectorsAppend(ds[1..], d, n);
    }
  }

  lemma {:induction false} ProvidersStop(ps: seq<Provider>)
    ensures Providers(ps, false) <= Providers(ps, true) + 12 * |ps|
  {
    if ps != [] { ProvidersStop(ps[1..]); }
  }

  lemma RankIsPositive(c: seq<Info>, s: State)
    requires SearchesRight(c, s)
    ensures Rank(s) >= 0
  {
    hide SearchRight, RedirRank;
    forall r | 0 <= r < |s.redirectors| ensures RedirRank(s.redirectors[r].pc, |c|) >= 0 {
      RedirRankIsPositive(c, s, s.redirectors[r]);
    }
    SumIsPositive(s.redirectors, |c|);
  }

  lemma RedirRankIsPositive(c: seq<Info>, s: State, d: Redirector)
    requires Sized(c, s) && SearchRight(c, s, d)
    ensures RedirRank(d.pc, |c|) >= 0
  {}

  lemma {:induction false} SumIsPositive(ds: seq<Redirector>, n: nat)
    requires forall r | 0 <= r < |ds| :: RedirRank(ds[r].pc, n) >= 0
    ensures Redirectors(ds, n) >= 0
  {
    hide RedirRank;
    if ds != [] {
      assert RedirRank(ds[0].pc, n) >= 0;
      SumIsPositive(ds[1..], n);
    }
  }

  // ---------------------------------------------------------------- every step

  /** What a step may add to the rank, itself included: the end of a wait, the end of an
      accept with or without a client, a SIGINT. */
  function Prolongs(s: State, a: Action): nat {
    match a
    case Interrupt => 1
    case MainStep(arrived) => if !s.main.Accept? then 0 else if arrived then 3 * |s.providers| + 18 else 2
    case ProviderStep(i, _) => if i < |s.providers| && s.providers[i].pc.Waiting? then 13 else 0
    case RedirectorStep(_, _) => 0
  }

  lemma LocalUsesRank(p: Provider, working: bool, timeout: bool)
    requires ProviderRight(p, working) && !p.pc.Returned?
    ensures ProviderRank(Local(p, working, timeout), working) + 1
         <= ProviderRank(p, working) + (if p.pc.Waiting? then 13 else 0)
  {}

  lemma ProviderUsesRank(c: seq<Info>, s: State, i: nat, timeout: bool)
    requires Inv(c, s) && Enabled(s, ProviderStep(i, timeout))
    ensures Rank(StepProvider(s, i, timeout)) + 1 <= Rank(s) + Prolongs(s, ProviderStep(i, timeout))
  {
    hide Inv, Local, ProviderRank, MainRank, RedirRank, ProviderRight, OwnMutex, Says;
    ProviderOfInv(c, s, i);
    LocalUsesRank(s.providers[i], s.working, timeout);
    ProvidersUpdate(s.providers, i, Local(s.providers[i], s.working, timeout), s.working);
  }

  lemma NextUsesRank(c: seq<Info>, s: State, r: nat, priority: char)
    requires Sized(c, s) && r < |s.redirectors| && !s.redirectors[r].pc.Finished?
    requires s.redirectors[r].pc.UnlockNext? ==> s.redirectors[r].pc.k <= |c|
    requires s.redirectors[r].pc.Search? ==> s.redirectors[r].pc.i <= |c|
    requires s.redirectors[r].pc.LockNext? ==> s.redirectors[r].pc.k <= |c|
    ensures var d := s.redirectors[r];
      RedirRank(Next(c, s, d, priority).pc, |c|) + 1 + (if d.pc.Offer? then 10 else 0) <= RedirRank(d.pc, |c|)
  {
  }

  lemma RedirectorUsesRank(c: seq<Info>, s: State, r: nat, priority: char)
    requires SearchesRight(c, s) && Enabled(s, RedirectorStep(r, priority))
    ensures Rank(StepRedirector(c, s, r, priority)) + 1 <= Rank(s)
  {
    hide Next, ProviderRank, MainRank, RedirRank, MutexesAfter;
    var d := s.redirectors[r];
    assert SearchRight(c, s, d);
    NextUsesRank(c, s, r, priority);
    RedirectorsUpdate(s.redirectors, r, Next(c, s, d, priority), |c|);
    if d.pc.Offer? && d.pc.index < |s.providers| {
      var p := s.providers[d.pc.index];
      ProvidersUpdate(s.providers, d.pc.index, Receiving(p, d.client), s.working);
      ReceivingAdds(p, d.client, s.working);
    }
  }

  lemma ReceivingAdds(p: Provider, client: Client, working: bool)
    ensures ProviderRank(Receiving(p, client), working) == ProviderRank(p, working) + 10
  {}

  lemma MainUsesRank(s: State, arrived: bool)
    requires !s.main.Teardown?
    ensures Rank(StepMain(s, arrived)) + 1 <= Rank(s) + Prolongs(s, MainStep(arrived))
  {
    hide ProviderRank, RedirRank;
    if s.main.Admit? {
      RedirectorsAppend(s.redirectors, Redirector(Receive, s.main.client, ' ', []), |s.providers|);
      ReceiveRank(|s.providers|);
    }
  }

  lemma ReceiveRank(n: nat)
    ensures RedirRank(Receive, n) == 3 * n + 15
  {}

  lemma StepUsesRank(c: seq<Info>, s: State, a: Action)
    requires Inv(c, s) && SearchesRight(c, s) && Enabled(s, a)
    ensures Rank(Step(c, s, a)) + 1 <= Rank(s) + Prolongs(s, a)
  {
    hide Inv, StepMain, StepProvider, StepRedirector, ProviderRank, RedirRank;
    match a
    case Interrupt => ProvidersStop(s.providers);
    case MainStep(arrived) => MainUsesRank(s, arrived);
    case ProviderStep(i, timeout) => ProviderUsesRank(c, s, i, timeout);
    case RedirectorStep(r, priority) => RedirectorUsesRank(c, s, r, priority);
  }

  // ---------------------------------------------------------------- every run

  /** What all the steps of a run may add. */
  function AllProlong(c: seq<Info>, s: State, run: seq<Action>): nat
    requires Sized(c, s) && Feasible(c, s, run)
    decreases |run|
  {
    if run == [] then 0
    else StepSized(c, s, run[0]); Prolongs(s, run[0]) + AllProlong(c, Step(c, s, run[0]), run[1..])
  }

  lemma {:induction false} RunUsesRank(c: seq<Info>, s: State, run: seq<Action>)
    requires Inv(c, s) && SearchesRight(c, s) && Feasible(c, s, run)
    ensures |run| <= Rank(s) + AllProlong(c, s, run)
    decreases |run|
  {
    hide Inv, Step, Enabled, Rank, Prolongs;
    RankIsPositive(c, s);
    if run != [] {
      StepSized(c, s, run[0]);
      StepKeeps(c, s, run[0]);
      StepSearches(c, s, run[0]);
      StepUsesRank(c, s, run[0]);
      RunUsesRank(c, Step(c, s, run[0]), run[1..]);
    }
  }

  lemma {:induction false} FreshProviders(n: nat)
    ensures Providers(seq(n, _ => Provider(JoinLock, false, false, [], [], [], [], 0)), true) == 8 * n
  {
    var ps := seq(n, _ => Provider(JoinLock, false, false, [], [], [], [], 0));
    if n > 0 {
      assert ps[1..] == seq(n - 1, _ => Provider(JoinLock, false, false, [], [], [], [], 0));
      FreshProviders(n - 1);
    }
  }

  /** For any number of threads, the length of every run is at most 20 for each provider and
      1, plus 3 for each provider and 18 for each accepted client, 13 for each end of a wait,
      2 for each interrupted accept, and 1 for each SIGINT.  Nothing else prolongs a run. */
  lemma OnlyEventsProlongARun(c: seq<Info>, run: seq<Action>)
    requires Feasible(c, Init(c), run)
    ensures |run| <= 20 * |c| + 1 + AllProlong(c, Init(c), run)
  {
    hide Inv, Feasible;
    InitHolds(c);
    RunUsesRank(c, Init(c), run);
    FreshProviders(|c|);
  }
}
