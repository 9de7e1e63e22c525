/** Where the provider server falls short: a client can be left behind in the queue of a
    provider that has returned, and a polled client can be forgotten.  Both are shown by
    runs; the first is permanent.  ServerOutcomes says exactly when they happen. */
module ServerLimits {
  import opened Options
  import opened ProviderSearch
  import opened ProviderServer
  import opened ServerOutcomes

  // ---------------------------------------------------------------- building runs

  ghost predicate CanReach(c: seq<Info>, s: State) {
    && Sized(c, s)
    && exists run :: Feasible(c, Init(c), run) && Run(c, Init(c), run) == s
  }

  lemma {:induction false} RunOneMore(c: seq<Info>, s: State, run: seq<Action>, a: Action)
    requires Sized(c, s) && Feasible(c, s, run)
    requires Sized(c, Run(c, s, run)) && Enabled(Run(c, s, run), a)
    ensures Feasible(c, s, run + [a]) && Run(c, s, run + [a]) == Step(c, Run(c, s, run), a)
    decreases |run|
  {
    hide Enabled, Step;
    if run == [] {
      assert run + [a] == [a];
      StepSized(c, s, a);
      assert [a][1..] == [];
    } else {
      StepSized(c, s, run[0]);
      RunOneMore(c, Step(c, s, run[0]), run[1..], a);
      assert (run + [a])[1..] == run[1..] + [a] && (run + [a])[0] == run[0];
    }
  }

  lemma ReachStep(c: seq<Info>, s: State, a: Action)
    requires CanReach(c, s) && Enabled(s, a)
    ensures CanReach(c, Step(c, s, a))
  {
    hide Enabled, Step;
    var run :| Feasible(c, Init(c), run) && Run(c, Init(c), run) == s;
    RunOneMore(c, Init(c), run, a);
    StepSized(c, s, a);
  }

  /** A server with one provider, whose part of the state is spelled out. */
  function Solo(s: State, p: Provider, own: Option<Tid>, count: Option<nat>, current: int): State {
    s.(providers := [p], owner := [own], countOwner := count, currentProviders := current)
  }

  function Fresh(pc: ProviderPc, online: bool): Provider { Provider(pc, false, online, [], [], [], [], 0) }

  const SOLO: seq<Info> := [Info(1, 1)]
  const SEEN: seq<View> := [View(1, 1, true, 0)]

  /** The provider of a one-provider server takes a step that answers nobody. */
  lemma SoloMoves(s: State, p: Provider, own: Option<Tid>, count: Option<nat>, current: int, timeout: bool)
    returns (next: State)
    requires s == Solo(s, p, own, count, current) && CanReach(SOLO, s)
    requires Enabled(s, ProviderStep(0, timeout)) && Says(p.pc) == []
    ensures CanReach(SOLO, next)
    ensures next == Solo(s, Local(p, s.working, timeout),
                         OwnMutex(p, s.working, 0, own), CountMutexAfter(p.pc, 0, count), current + CountChange(p.pc))
  {
    hide Local, OwnMutex, CountMutexAfter, CountChange, Says, Enabled, CanReach;
    assert s.answered + [] == s.answered;
    ReachStep(SOLO, s, ProviderStep(0, timeout));
    next := StepProvider(s, 0, timeout);
  }

  /** The provider has joined; main has accepted client 0 and started its redirector. */
  lemma JoinedAndAdmitted() returns (s: State)
    ensures CanReach(SOLO, s)
    ensures s == Solo(State(true, Guard, 1, 1, None, [], [], [Redirector(Receive, 0, ' ', [])], []),
                      Fresh(LoopGuard, true), None, None, 1)
  {
    s := Init(SOLO);
    assert Run(SOLO, s, []) == s;
    assert s.owner == [None] && s.providers == [Fresh(JoinLock, false)];
    s := SoloMoves(s, Fresh(JoinLock, false), None, None, 0, false);
    s := SoloMoves(s, Fresh(CountUp, false), None, Some(0), 0, false);
    s := SoloMoves(s, Fresh(GoOnline, false), None, Some(0), 1, false);
    s := SoloMoves(s, Fresh(JoinUnlock, true), None, Some(0), 1, false);
    s := MainMoves(s);
    s := MainMoves(s);
    s := MainMoves(s);
  }

  lemma MainMoves(s: State) returns (next: State)
    requires CanReach(SOLO, s) && Enabled(s, MainStep(true))
    ensures CanReach(SOLO, next) && next == StepMain(s, true)
  {
    hide CanReach;
    ReachStep(SOLO, s, MainStep(true));
    next := StepMain(s, true);
  }

  /** The redirector of a one-provider server takes a step that leaves the queue alone. */
  lemma RedirMoves(s: State, d: Redirector, priority: char) returns (next: State)
    requires CanReach(SOLO, s) && s.redirectors == [d]
    requires Enabled(s, RedirectorStep(0, priority))
    ensures CanReach(SOLO, next)
    ensures next == s.(redirectors := [Next(SOLO, s, d, priority)], owner := MutexesAfter(d.pc, 0, s.owner),
                       providers := QueuesAfter(d, s.providers),
                       answered := if d.pc.Refuse? then s.answered + [d.client] else s.answered)
  {
    hide Next, MutexesAfter, QueuesAfter, Enabled, Feasible, Run;
    ReachStep(SOLO, s, RedirectorStep(0, priority));
    next := StepRedirector(SOLO, s, 0, priority);
  }

  /** The redirector takes the only mutex, searches, and settles on the provider, whatever
      the provider is doing elsewhere, as long as it is online with an empty queue. */
  lemma Settles(s: State, p: Provider, count: Option<nat>, current: int) returns (next: State)
    requires CanReach(SOLO, s) && s == Solo(s, p, None, count, current)
    requires s.redirectors == [Redirector(Receive, 0, ' ', [])] && p.online && p.queue == []
    ensures CanReach(SOLO, next)
    ensures next == Solo(s, p, Some(Redir(0)), count, current).(redirectors := [Redirector(Offer(0), 0, 'C', SEEN)])
  {
    hide CanReach;
    next := RedirMoves(s, Redirector(Receive, 0, ' ', []), 'C');
    next := RedirMoves(next, Redirector(LockNext(0), 0, 'C', []), 'C');
    next := RedirMoves(next, Redirector(LockNext(1), 0, 'C', []), 'C');
    next := RedirMoves(next, Redirector(Search(0, Best(INT_MAX, -1)), 0, 'C', []), 'C');
    assert ViewOf(SOLO, next, 0) == View(1, 1, true, 0) && [] + SEEN == SEEN;
    next := RedirMoves(next, Redirector(Search(1, Best(1, 0)), 0, 'C', SEEN), 'C');
  }

  /** The provider times out and releases its mutex. */
  lemma TimesOut(s: State) returns (next: State)
    requires CanReach(SOLO, s) && s == Solo(s, Fresh(LoopGuard, true), None, None, 1) && s.working
    ensures CanReach(SOLO, next)
    ensures next == Solo(s, Fresh(AnswerGuard([]), true).(timedOut := true), None, None, 1)
  {
    hide CanReach;
    var p := Fresh(LoopGuard, true);
    next := SoloMoves(s, p, None, None, 1, false);
    next := SoloMoves(next, p.(pc := LockOwn), None, None, 1, false);
    next := SoloMoves(next, p.(pc := InnerGuard), Some(Prov(0)), None, 1, false);
    next := SoloMoves(next, p.(pc := Waiting), None, None, 1, true);
    p := p.(timedOut := true);
    next := SoloMoves(next, p.(pc := Relock), None, None, 1, false);
    next := SoloMoves(next, p.(pc := InnerGuard), Some(Prov(0)), None, 1, false);
    next := SoloMoves(next, p.(pc := PollGuard), Some(Prov(0)), None, 1, false);
    next := SoloMoves(next, p.(pc := UnlockOwn([])), Some(Prov(0)), None, 1, false);
  }

  /** It leaves the loop ... */
  lemma LeavesLoop(s: State, own: Option<Tid>) returns (next: State)
    requires CanReach(SOLO, s)
    requires s == Solo(s, Fresh(AnswerGuard([]), true).(timedOut := true), own, None, 1)
    ensures CanReach(SOLO, next)
    ensures next == Solo(s, Fresh(CountDown, true).(timedOut := true), own, Some(0), 1)
  {
    hide CanReach;
    var p := Fresh(LoopGuard, true).(timedOut := true);
    assert p.dropped + [] == p.dropped;
    next := SoloMoves(s, p.(pc := AnswerGuard([])), own, None, 1, false);
    next := SoloMoves(next, p, own, None, 1, false);
    next := SoloMoves(next, p.(pc := LeaveLock), own, None, 1, false);
  }

  /** ... signs off ... */
  lemma SignsOff(s: State, own: Option<Tid>) returns (next: State)
    requires CanReach(SOLO, s)
    requires s == Solo(s, Fresh(CountDown, true).(timedOut := true), own, Some(0), 1)
    ensures CanReach(SOLO, next)
    ensures next == Solo(s, Fresh(LeaveUnlock, false).(timedOut := true), own, Some(0), 0)
  {
    hide CanReach;
    var p := Fresh(CountDown, true).(timedOut := true);
    next := SoloMoves(s, p, own, Some(0), 1, false);
    next := SoloMoves(next, p.(pc := GoOffline), own, Some(0), 0, false);
  }

  /** ... finds its queue empty and returns, whoever holds its mutex. */
  lemma Returns(s: State, own: Option<Tid>) returns (next: State)
    requires CanReach(SOLO, s)
    requires s == Solo(s, Fresh(LeaveUnlock, false).(timedOut := true), own, Some(0), 0)
    ensures CanReach(SOLO, next)
    ensures next == Solo(s, Fresh(Returned, false).(timedOut := true), own, None, 0)
  {
    hide CanReach;
    var p := Fresh(LeaveUnlock, false).(timedOut := true);
    next := SoloMoves(s, p, own, Some(0), 0, false);
    next := SoloMoves(next, p.(pc := DrainGuard), own, None, 0, false);
  }

  // ---------------------------------------------------------------- the two failures

  /** "Every client is answered" fails without any SIGINT: the provider signs off between
      the redirector's look at `online` and its offer, finds its queue empty, and returns;
      the client then sits in a queue that nobody will look at again. */
  lemma ClientCanBeLeftBehind() returns (s: State)
    ensures CanReach(SOLO, s) && s.working
    ensures s.providers[0].pc.Returned? && s.providers[0].queue == [0] && s.providers[0].late == 1
    ensures forall run | Feasible(SOLO, s, run) ::
              var later := Run(SOLO, s, run);
              Sized(SOLO, later) && later.providers[0].queue != [] && later.providers[0].queue[0] == 0
  {
    s := JoinedAndAdmitted();
    s := TimesOut(s);
    s := Settles(s, Fresh(AnswerGuard([]), true).(timedOut := true), None, 1);
    s := LeavesLoop(s, Some(Redir(0)));
    s := SignsOff(s, Some(Redir(0)));
    s := Returns(s, Some(Redir(0)));
    s := RedirMoves(s, Redirector(Offer(0), 0, 'C', SEEN), 'C');
    forall run | Feasible(SOLO, s, run)
      ensures var later := Run(SOLO, s, run);
        Sized(SOLO, later) && later.providers[0].queue != [] && later.providers[0].queue[0] == 0
    {
      LeftBehindForever(SOLO, s, run, 0);
    }
  }

  lemma RedirectorDelivers(s: State, p: Provider) returns (next: State)
    requires CanReach(SOLO, s) && s == Solo(s, p, None, None, 1)
    requires s.redirectors == [Redirector(Receive, 0, ' ', [])] && p.online && p.queue == []
    ensures CanReach(SOLO, next)
    ensures next == Solo(s, p.(queue := [0]), None, None, 1).(redirectors := [Redirector(Finished, 0, 'C', SEEN)])
  {
    hide CanReach;
    next := Settles(s, p, None, 1);
    assert Receiving(p, 0) == p.(queue := [0]);
    next := RedirMoves(next, Redirector(Offer(0), 0, 'C', SEEN), 'C');
    assert next == Solo(s, p.(queue := [0]), Some(Redir(0)), None, 1)
      .(redirectors := [Redirector(UnlockNext(0), 0, 'C', SEEN)]);
    next := RedirMoves(next, Redirector(UnlockNext(0), 0, 'C', SEEN), 'C');
    next := RedirMoves(next, Redirector(UnlockNext(1), 0, 'C', SEEN), 'C');
  }

  lemma PollsClient(s: State, p: Provider) returns (next: State)
    requires CanReach(SOLO, s) && s == Solo(s, p, None, None, 1) && s.working
    requires p == Fresh(LoopGuard, true).(queue := [0])
    ensures CanReach(SOLO, next)
    ensures next == Solo(s, p.(pc := UnlockOwn([0]), queue := [], polled := [0]), Some(Prov(0)), None, 1)
  {
    hide CanReach;
    next := SoloMoves(s, p, None, None, 1, false);
    next := SoloMoves(next, p.(pc := LockOwn), None, None, 1, false);
    next := SoloMoves(next, p.(pc := InnerGuard), Some(Prov(0)), None, 1, false);
    next := SoloMoves(next, p.(pc := PollGuard), Some(Prov(0)), None, 1, false);
    next := SoloMoves(next, p.(pc := PollOwn), Some(Prov(0)), None, 1, false);
    assert [0][1..] == [] && p.polled + [0] == [0];
  }

  /** The provider reads `working` once under its mutex and once after it.  If SIGINT
      arrives in between, the client it has just polled is forgotten. */
  lemma PolledClientCanBeForgotten() returns (s: State)
    ensures CanReach(SOLO, s) && s.providers[0].polled == [0] && s.providers[0].dropped == [0]
    ensures s.answered == []
  {
    hide CanReach;
    s := JoinedAndAdmitted();
    var p := Fresh(LoopGuard, true);
    s := RedirectorDelivers(s, p);
    s := PollsClient(s, p.(queue := [0]));
    p := p.(polled := [0]);
    s := SoloMoves(s, p.(pc := UnlockOwn([0])), Some(Prov(0)), None, 1, false);
    s := Interrupted(s);
    s := SoloMoves(s, p.(pc := AnswerGuard([0])), None, None, 1, false);
  }

  lemma Interrupted(s: State) returns (next: State)
    requires CanReach(SOLO, s)
    ensures CanReach(SOLO, next) && next == s.(working := false)
  {
    ReachStep(SOLO, s, Interrupt);
    next := s.(working := false);
  }
}
