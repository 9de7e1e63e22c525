/** Whom main admits, and when it stops accepting. */
module ServerAdmission {
  import opened Options
  import opened ProviderServer
  import opened ServerLocks
  import opened ServerCounting
  import opened ServerSafety

  // ---------------------------------------------------------------- admission

  lemma {:induction false} CountPositive(bits: seq<bool>)
    ensures Count(bits) > 0 <==> exists i :: 0 <= i < |bits| && bits[i]
  {
    if bits != [] {
      CountPositive(bits[1..]);
      if bits[0] {
      } else if i :| 0 <= i < |bits| && bits[i] {
        assert bits[1..][i - 1];
      }
    }
  }

  /** Away from countMutex, a provider is counted exactly if it is online. */
  lemma CountedIfOnline(p: Provider, working: bool)
    requires ProviderRight(p, working) && !HoldsCount(p.pc)
    ensures Counted(p.pc) <==> p.online
  {
    hide HandRight;
  }

  ghost predicate SomebodyOnline(s: State) {
    exists i :: 0 <= i < |s.providers| && s.providers[i].online
  }

  /** Somebody who is not just signing on or off. */
  ghost predicate SomebodyElseOnline(s: State) {
    exists i :: 0 <= i < |s.providers| && s.providers[i].online && s.countOwner != Some(i)
  }

  lemma SomebodyCounted(c: seq<Info>, s: State)
    requires Inv(c, s)
    ensures SomebodyElseOnline(s) ==> s.currentProviders > 0
    ensures s.countOwner == None ==> (s.currentProviders > 0 <==> SomebodyOnline(s))
    ensures s.currentProviders >= 0
  {
    hide Inv, ProviderRight, Counted, HoldsCount;
    CountersOfInv(c, s);
    var bits := CountedBits(s.providers);
    CountPositive(bits);
    forall i | 0 <= i < |s.providers| && s.countOwner != Some(i)
      ensures bits[i] <==> s.providers[i].online
    {
      ProviderOfInv(c, s, i);
      CountedIfOnline(s.providers[i], s.working);
    }
  }

  lemma CountersOfInv(c: seq<Info>, s: State)
    requires Inv(c, s)
    ensures CounterRight(s) && CountOwnerRight(s)
  {}

  /** The answer that main gives to an accepted client by itself. */
  predicate Answers(s: State, next: State, client: Client) {
    next.answered == s.answered + [client] && next.redirectors == s.redirectors
  }

  /** Main starts a redirector for the client and says nothing to it. */
  predicate StartsRedirector(s: State, next: State, client: Client) {
    && next.answered == s.answered
    && |next.redirectors| == |s.redirectors| + 1 && next.redirectors[..|s.redirectors|] == s.redirectors
    && next.redirectors[|s.redirectors|].client == client && next.redirectors[|s.redirectors|].pc.Receive?
  }

  /** In every reachable state: an accepted client gets a redirector if some provider is
      online, other than one that is just signing on or off, and there is room for one more
      thread; it is answered at once if there is no room, or nobody is signing on or off and
      nobody is online. */
  lemma AdmittedExactlyIfOnline(c: seq<Info>, run: seq<Action>, client: Client, arrived: bool)
    requires Feasible(c, Init(c), run) && After(c, run).main == Admit(client)
    ensures var s := After(c, run); var next := StepMain(s, arrived);
      var full := |s.providers| + |s.redirectors| == 2000;
      && (full ==> Answers(s, next, client))
      && (!full && SomebodyElseOnline(s) ==> StartsRedirector(s, next, client))
      && (!full && s.countOwner == None && SomebodyOnline(s) ==> StartsRedirector(s, next, client))
      && (s.countOwner == None && !SomebodyOnline(s) ==> Answers(s, next, client))
      && next.main == Guard && next.accepted == s.accepted && next.providers == s.providers
  {
    hide Inv, Run, Feasible;
    Reachable(c, run);
    SomebodyCounted(c, After(c, run));
  }

  // ---------------------------------------------------------------- stopping

  /** Main begins its teardown only after SIGINT. */
  predicate TeardownRight(s: State) { s.main.Teardown? ==> !s.working }

  lemma {:induction false} RunTeardown(c: seq<Info>, s: State, run: seq<Action>)
    requires Sized(c, s) && Feasible(c, s, run) && TeardownRight(s)
    ensures TeardownRight(Run(c, s, run))
    decreases |run|
  {
    hide Local, Next, Enabled;
    if run != [] {
      StepSized(c, s, run[0]);
      RunTeardown(c, Step(c, s, run[0]), run[1..]);
    }
  }

  /** After SIGINT, main is past its last accept, or in it, or has its result. */
  predicate Stopping(s: State, accepted: nat) {
    && !s.working
    && s.accepted + (if s.main.Accept? then 1 else 0) <= accepted
  }

  lemma {:induction false} RunStopping(c: seq<Info>, s: State, run: seq<Action>, accepted: nat)
    requires Sized(c, s) && Feasible(c, s, run) && Stopping(s, accepted)
    ensures Stopping(Run(c, s, run), accepted)
    decreases |run|
  {
    hide Local, Next, Enabled;
    if run != [] {
      StepSized(c, s, run[0]);
      RunStopping(c, Step(c, s, run[0]), run[1..], accepted);
    }
  }

  /** Steps that are left to main after SIGINT. */
  function MainLeft(pc: MainPc): nat {
    match pc case Accept => 3 case Admit(_) => 2 case Guard => 1 case Teardown => 0
  }

  function MainSteps(run: seq<Action>): nat {
    if run == [] then 0 else (if run[0].MainStep? then 1 else 0) + MainSteps(run[1..])
  }

  lemma {:induction false} MainStops(c: seq<Info>, s: State, run: seq<Action>)
    requires Sized(c, s) && Feasible(c, s, run) && !s.working
    ensures MainLeft(Run(c, s, run).main) + MainSteps(run) <= MainLeft(s.main)
    decreases |run|
  {
    hide Local, Next;
    if run != [] {
      StepSized(c, s, run[0]);
      MainStops(c, Step(c, s, run[0]), run[1..]);
    }
  }

  /** Main accepts until SIGINT, and after it at most the one connection it was waiting for:
      the teardown begins only with `working` cleared, and once it is cleared the number of
      accepted clients grows by at most one, and not at all unless main is in accept, and main
      takes at most three more steps to its teardown. */
  lemma AcceptsUntilInterrupted(c: seq<Info>, before: seq<Action>, s: State, run: seq<Action>)
    requires Feasible(c, Init(c), before) && s == After(c, before)
    requires Sized(c, s) && Feasible(c, s, run)
    ensures s.main.Teardown? ==> !s.working
    ensures !s.working ==> var later := Run(c, s, run);
      && later.accepted <= s.accepted + 1 && (!s.main.Accept? ==> later.accepted == s.accepted)
      && MainSteps(run) <= 3
  {
    hide Feasible, Run;
    RunTeardown(c, Init(c), before);
    if !s.working {
      RunStopping(c, s, run, s.accepted + (if s.main.Accept? then 1 else 0));
      RunAccepts(c, s, run);
      MainStops(c, s, run);
    }
  }

  lemma {:induction false} RunAccepts(c: seq<Info>, s: State, run: seq<Action>)
    requires Sized(c, s) && Feasible(c, s, run)
    ensures Run(c, s, run).accepted >= s.accepted
    decreases |run|
  {
    hide Local, Next, Enabled;
    if run != [] {
      StepSized(c, s, run[0]);
      RunAccepts(c, Step(c, s, run[0]), run[1..]);
    }
  }
}
