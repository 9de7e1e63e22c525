/** What a redirector reads of the providers, and that it picks by the client's priority. */
module ServerChoice {
  import opened ProviderSearch
  import opened ProviderServer
  import opened ServerLocks
  import opened ServerCounting
  import opened ServerQueues
  import opened ServerSafety

  // ---------------------------------------------------------------- what has been seen

  /** Entry k is about provider k: its price and performance, and its queue, exactly if it
      was online then and is online now, and otherwise at most shortened since. */
  ghost predicate Truthful(c: seq<Info>, s: State, seen: seq<View>) {
    && |seen| <= |c| == |s.providers|
    && forall k | 0 <= k < |seen| :: EntryTruthful(c[k], s.providers[k], seen[k])
  }

  predicate EntryTruthful(info: Info, p: Provider, v: View) {
    && v.price == info.price && v.performance == info.performance
    && (v.online ==> !NotYetOnline(p.pc))
    && |p.queue| <= v.size
    && (v.online && p.online ==> v.size == |p.queue|)
  }

  ghost predicate SearchRight(c: seq<Info>, s: State, d: Redirector)
    requires Sized(c, s)
  {
    match d.pc
    case Receive => d.seen == []
    case LockNext(k) => d.seen == [] && k <= |c|
    case Search(i, best) => |d.seen| == i && Truthful(c, s, d.seen) && BestSoFar(d.priority, d.seen, best)
    case Offer(j) => |d.seen| == |c| && Truthful(c, s, d.seen) && IsFirstBest(d.priority, d.seen, j)
    case Refuse => |d.seen| == |c| && Truthful(c, s, d.seen) && NoneAcceptable(d.priority, d.seen)
    case UnlockNext(k) => k <= |c|
    case Finished => true
  }

  ghost predicate SearchesRight(c: seq<Info>, s: State) {
    Sized(c, s) && forall r | 0 <= r < |s.redirectors| :: SearchRight(c, s, s.redirectors[r])
  }

  // ---------------------------------------------------------------- a provider's step

  /** A provider that does not hold its own mutex leaves what was seen of it true. */
  lemma LocalKeepsTruth(info: Info, p: Provider, working: bool, timeout: bool, v: View)
    requires ProviderRight(p, working) && !HoldsOwn(p.pc) && EntryTruthful(info, p, v)
    ensures EntryTruthful(info, Local(p, working, timeout), v)
  {
    hide HandRight, MustWait, Hand;
  }

  lemma ProviderSearches(c: seq<Info>, s: State, i: nat, timeout: bool)
    requires Inv(c, s) && SearchesRight(c, s) && i < |s.providers|
    ensures SearchesRight(c, StepProvider(s, i, timeout))
  {
    hide Inv, Local, EntryTruthful, BestSoFar, IsFirstBest, NoneAcceptable, HoldsOwn, OwnMutex, Says;
    var s' := StepProvider(s, i, timeout);
    ProviderOfInv(c, s, i);
    LocksOfInv(c, s);
    forall r | 0 <= r < |s'.redirectors| ensures SearchRight(c, s', s'.redirectors[r]) {
      var d := s.redirectors[r];
      assert SearchRight(c, s, d);
      if HoldsAll(d.pc) {
        HolderExcludesOwner(s, r, i);
        forall k | 0 <= k < |d.seen| ensures EntryTruthful(c[k], s'.providers[k], d.seen[k]) {
          if k == i { LocalKeepsTruth(c[i], s.providers[i], s.working, timeout, d.seen[i]); }
        }
      }
    }
  }

  lemma HolderExcludesOwner(s: State, r: nat, i: nat)
    requires OwnersRight(s) && r < |s.redirectors| && HoldsAll(s.redirectors[r].pc) && i < |s.providers|
    ensures !HoldsOwn(s.providers[i].pc)
  {
    assert Holds(s, Redir(r), i);
    assert !Holds(s, Prov(i), i);
  }

  // ---------------------------------------------------------------- a redirector's step

  /** One iteration of the search reads price, performance, flag and queue of one provider. */
  lemma IterationReads(c: seq<Info>, s: State, r: nat, priority: char)
    requires Sized(c, s) && r < |s.redirectors| && s.redirectors[r].pc.Search? && s.redirectors[r].pc.i < |c|
    ensures var i := s.redirectors[r].pc.i;
      StepRedirector(c, s, r, priority).redirectors[r].seen == s.redirectors[r].seen
        + [View(c[i].price, c[i].performance, s.providers[i].online, |s.providers[i].queue|)]
  {
    hide Consider;
  }

  lemma OwnSearch(c: seq<Info>, s: State, r: nat, priority: char)
    requires Inv(c, s) && SearchesRight(c, s) && r < |s.redirectors| && !s.redirectors[r].pc.Offer?
    ensures Sized(c, StepRedirector(c, s, r, priority))
    ensures SearchRight(c, StepRedirector(c, s, r, priority), StepRedirector(c, s, r, priority).redirectors[r])
  {
    hide Inv, Consider, Start, BestSoFar, IsFirstBest, NoneAcceptable, ProviderRight;
    var d, s' := s.redirectors[r], StepRedirector(c, s, r, priority);
    assert SearchRight(c, s, d);
    if d.pc.LockNext? {
      NothingSeen(d.priority);
    } else if d.pc.Search? && d.pc.i < |c| {
      var i := d.pc.i;
      IterationReads(c, s, r, priority);
      ConsiderKeeps(d.priority, d.seen, ViewOf(c, s, i), d.pc.best);
      ProviderOfInv(c, s, i);
      ReadIsTruthful(c, s, i);
      assert s'.providers == s.providers;
    } else if d.pc.Search? {
      SearchEnds(d.priority, d.seen, d.pc.best);
    }
  }

  lemma NothingSeen(priority: char)
    ensures BestSoFar(priority, [], Start(priority))
  {}

  lemma ReadIsTruthful(c: seq<Info>, s: State, i: nat)
    requires Sized(c, s) && i < |c| && ProviderRight(s.providers[i], s.working)
    ensures EntryTruthful(c[i], s.providers[i], ViewOf(c, s, i))
  {
    hide HandRight;
  }

  lemma SearchEnds(priority: char, seen: seq<View>, best: Best)
    requires BestSoFar(priority, seen, best)
    ensures best.index < 0 ==> NoneAcceptable(priority, seen)
    ensures best.index >= 0 ==> IsFirstBest(priority, seen, best.index)
  {
    hide Consider, Acceptable, Better;
  }

  lemma RedirectorSearches(c: seq<Info>, s: State, r: nat, priority: char)
    requires Inv(c, s) && SearchesRight(c, s) && Enabled(s, RedirectorStep(r, priority))
    ensures SearchesRight(c, StepRedirector(c, s, r, priority))
  {
    hide Inv, Next, BestSoFar, IsFirstBest, NoneAcceptable, EntryTruthful, MutexesAfter;
    var d, s' := s.redirectors[r], StepRedirector(c, s, r, priority);
    LocksOfInv(c, s);
    StepSized(c, s, RedirectorStep(r, priority));
    if !d.pc.Offer? { OwnSearch(c, s, r, priority); } else { OfferMoves(c, s, r, priority); }
    forall q | 0 <= q < |s'.redirectors| ensures SearchRight(c, s', s'.redirectors[q]) {
      if q != r {
        assert SearchRight(c, s, s.redirectors[q]);
        if s.owner == [] { assert s.providers == []; } else if d.pc.Offer? { OneSearcher(s, r, q); }
      }
    }
  }

  lemma OfferMoves(c: seq<Info>, s: State, r: nat, priority: char)
    requires Sized(c, s) && r < |s.redirectors| && s.redirectors[r].pc.Offer?
    ensures StepRedirector(c, s, r, priority).redirectors[r].pc == UnlockNext(0)
  {
    hide Consider, Start;
  }

  // ---------------------------------------------------------------- every step of every run

  lemma MainSearches(c: seq<Info>, s: State, s': State)
    requires SearchesRight(c, s) && s'.providers == s.providers && s'.owner == s.owner
    requires |s.redirectors| <= |s'.redirectors| && s'.redirectors[..|s.redirectors|] == s.redirectors
    requires forall r | |s.redirectors| <= r < |s'.redirectors| ::
      s'.redirectors[r].pc.Receive? && s'.redirectors[r].seen == []
    ensures SearchesRight(c, s')
  {
    hide BestSoFar, IsFirstBest, NoneAcceptable, EntryTruthful;
    forall r | 0 <= r < |s'.redirectors| ensures SearchRight(c, s', s'.redirectors[r]) {
      if r < |s.redirectors| {
        assert s'.redirectors[r] == s.redirectors[r];
        assert SearchRight(c, s, s.redirectors[r]);
      }
    }
  }

  lemma StepSearches(c: seq<Info>, s: State, a: Action)
    requires Inv(c, s) && SearchesRight(c, s) && Enabled(s, a)
    ensures SearchesRight(c, Step(c, s, a))
  {
    hide Inv, StepProvider, StepRedirector, SearchRight;
    match a
    case Interrupt => MainSearches(c, s, s.(working := false));
    case MainStep(arrived) => MainSearches(c, s, StepMain(s, arrived));
    case ProviderStep(i, timeout) => ProviderSearches(c, s, i, timeout);
    case RedirectorStep(r, priority) => RedirectorSearches(c, s, r, priority);
  }

  lemma {:induction false} RunSearches(c: seq<Info>, s: State, run: seq<Action>)
    requires Inv(c, s) && SearchesRight(c, s) && Feasible(c, s, run)
    ensures SearchesRight(c, Run(c, s, run))
    decreases |run|
  {
    hide Inv, Enabled, Step;
    if run != [] {
      StepKeeps(c, s, run[0]);
      StepSearches(c, s, run[0]);
      RunSearches(c, Step(c, s, run[0]), run[1..]);
    }
  }

  /** In every reachable state, a redirector about to offer to provider j has seen every
      provider, and j is the first of the best acceptable ones by what it has seen; one
      about to refuse has seen no acceptable provider.  What it has seen of a provider that
      was online, and still is, is what is there. */
  lemma OffersToTheBest(c: seq<Info>, run: seq<Action>, r: nat)
    requires Feasible(c, Init(c), run) && r < |After(c, run).redirectors|
    ensures var s := After(c, run); var d := s.redirectors[r];
      && (d.pc.Offer? || d.pc.Refuse? ==>
            && |d.seen| == |c| == |s.providers|
            && forall k | 0 <= k < |c| ::
                && d.seen[k].price == c[k].price && d.seen[k].performance == c[k].performance
                && (d.seen[k].online && s.providers[k].online ==> d.seen[k].size == |s.providers[k].queue|))
      && (d.pc.Offer? ==> IsFirstBest(d.priority, d.seen, d.pc.index))
      && (d.pc.Refuse? ==> NoneAcceptable(d.priority, d.seen))
  {
    hide Inv, BestSoFar, IsFirstBest, NoneAcceptable, Feasible, Run;
    InitHolds(c);
    RunSearches(c, Init(c), run);
    assert SearchRight(c, After(c, run), After(c, run).redirectors[r]);
  }

  // ---------------------------------------------------------------- nobody is overlooked

  /** Provider k was online once; if it still is, the search sees it online. */
  ghost predicate Noticed(c: seq<Info>, s: State, r: nat, k: nat) {
    && Sized(c, s) && r < |s.redirectors| && k < |c|
    && !NotYetOnline(s.providers[k].pc)
    && (s.providers[k].online && k < |s.redirectors[r].seen| ==> s.redirectors[r].seen[k].online)
  }

  lemma LocalStaysJoined(p: Provider, working: bool, timeout: bool)
    requires ProviderRight(p, working) && !NotYetOnline(p.pc)
    ensures !NotYetOnline(Local(p, working, timeout).pc)
    ensures Local(p, working, timeout).online ==> p.online
  {
    hide HandRight, MustWait, Hand;
  }

  lemma StepNotices(c: seq<Info>, s: State, a: Action, r: nat, k: nat)
    requires Inv(c, s) && SearchesRight(c, s) && Enabled(s, a) && Noticed(c, s, r, k)
    ensures Noticed(c, Step(c, s, a), r, k)
  {
    hide Inv, Local, Consider, Start, NotYetOnline, OwnMutex, Says, MutexesAfter, BestSoFar, IsFirstBest, Truthful;
    StepSized(c, s, a);
    assert SearchRight(c, s, s.redirectors[r]);
    if a.ProviderStep? && a.i == k {
      ProviderOfInv(c, s, k);
      LocalStaysJoined(s.providers[k], s.working, a.timeout);
    }
  }

  lemma {:induction false} RunNotices(c: seq<Info>, s: State, run: seq<Action>, r: nat, k: nat)
    requires Inv(c, s) && SearchesRight(c, s) && Feasible(c, s, run) && Noticed(c, s, r, k)
    ensures Noticed(c, Run(c, s, run), r, k)
    decreases |run|
  {
    hide Inv, Enabled, Step, Noticed;
    if run != [] {
      StepSized(c, s, run[0]);
      StepKeeps(c, s, run[0]);
      StepSearches(c, s, run[0]);
      StepNotices(c, s, run[0], r, k);
      RunNotices(c, Step(c, s, run[0]), run[1..], r, k);
    }
  }

  /** A provider that is online when a redirector sets out, and still is when the redirector
      is about to offer or refuse, has been seen as it is now: the chosen one is not worse
      for the client's priority, and a refusal means that it cannot take the client. */
  lemma NobodyIsOverlooked(c: seq<Info>, before: seq<Action>, s: State, r: nat, k: nat,
                           run: seq<Action>, later: State)
    requires Feasible(c, Init(c), before) && s == After(c, before)
    requires r < |s.redirectors| && s.redirectors[r].pc.Receive? && k < |s.providers| && s.providers[k].online
    requires Sized(c, s) && Feasible(c, s, run) && later == Run(c, s, run)
    requires r < |later.redirectors| && k < |later.providers| && later.providers[k].online
    ensures var d := later.redirectors[r];
      var now := View(c[k].price, c[k].performance, true, |later.providers[k].queue|);
      && (d.pc.Offer? || d.pc.Refuse? ==> k < |d.seen| && d.seen[k] == now)
      && (d.pc.Offer? && Acceptable(d.priority, now) ==>
            d.pc.index < |d.seen| && !Better(d.priority, now, d.seen[d.pc.index]))
      && (d.pc.Refuse? ==> !Acceptable(d.priority, now))
  {
    hide Inv, Acceptable, Better, BestSoFar, Feasible, Run;
    InitHolds(c);
    Reachable(c, before);
    RunSearches(c, Init(c), before);
    assert SearchRight(c, s, s.redirectors[r]);
    ProviderOfInv(c, s, k);
    RunSearches(c, s, run);
    RunNotices(c, s, run, r, k);
    assert SearchRight(c, later, later.redirectors[r]);
  }

  // ---------------------------------------------------------------- the request

  /** A redirector keeps its client, and after receiving the request its priority. */
  ghost predicate Remembers(s: State, r: nat, client: Client, priority: char) {
    && r < |s.redirectors|
    && s.redirectors[r].client == client && s.redirectors[r].priority == priority && !s.redirectors[r].pc.Receive?
  }

  lemma StepRemembers(c: seq<Info>, s: State, a: Action, r: nat, client: Client, priority: char)
    requires Sized(c, s) && Enabled(s, a) && Remembers(s, r, client, priority)
    ensures Remembers(Step(c, s, a), r, client, priority)
  {
    hide Local, Consider, Start, OwnMutex, Says, MutexesAfter;
  }

  lemma {:induction false} RunRemembers(c: seq<Info>, s: State, run: seq<Action>, r: nat,
                                        client: Client, priority: char)
    requires Sized(c, s) && Feasible(c, s, run) && Remembers(s, r, client, priority)
    ensures Remembers(Run(c, s, run), r, client, priority)
    decreases |run|
  {
    hide Enabled, Step, Remembers;
    if run != [] {
      StepSized(c, s, run[0]);
      StepRemembers(c, s, run[0], r, client, priority);
      RunRemembers(c, Step(c, s, run[0]), run[1..], r, client, priority);
    }
  }

  /** From the request to the offer: whatever everybody else does meanwhile, a redirector that
      has received priority p offers its own client to the first of the best providers for p. */
  lemma RequestDecides(c: seq<Info>, before: seq<Action>, s: State, r: nat, priority: char,
                       next: State, run: seq<Action>, later: State)
    requires Feasible(c, Init(c), before) && s == After(c, before)
    requires Sized(c, s) && r < |s.redirectors| && s.redirectors[r].pc.Receive?
    requires next == StepRedirector(c, s, r, priority) && Sized(c, next)
    requires Feasible(c, next, run) && later == Run(c, next, run)
    ensures r < |later.redirectors| && later.redirectors[r].client == s.redirectors[r].client
    ensures var d := later.redirectors[r];
      && (d.pc.Offer? ==> IsFirstBest(priority, d.seen, d.pc.index))
      && (d.pc.Refuse? ==> NoneAcceptable(priority, d.seen))
  {
    hide Inv, BestSoFar, IsFirstBest, NoneAcceptable, Feasible, Run;
    InitHolds(c);
    Reachable(c, before);
    RunSearches(c, Init(c), before);
    StepKeeps(c, s, RedirectorStep(r, priority));
    StepSearches(c, s, RedirectorStep(r, priority));
    RunSearches(c, next, run);
    RunRemembers(c, next, run, r, s.redirectors[r].client, priority);
    assert SearchRight(c, later, later.redirectors[r]);
  }
}
