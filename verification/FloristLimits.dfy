/** With the two reads of the outer guard as separate steps, a client can be left behind. */
module FloristLimits {
  import opened FloristPool

  ghost predicate CanReach(c: Config, s: State) {
    && Sized(c, s)
    && exists run :: Feasible(c, Init(c), run) && Run(c, Init(c), run) == s
  }

  lemma {:induction false} RunOneMore(c: Config, s: State, run: seq<Action>, a: Action)
    requires Sized(c, s) && Feasible(c, s, run)
    requires Sized(c, Run(c, s, run)) && Enabled(c, Run(c, s, run), a)
    ensures Feasible(c, s, run + [a]) && Run(c, s, run + [a]) == Step(c, Run(c, s, run), a)
    decreases |run|
  {
    if run == [] {
      assert run + [a] == [a];
      assert [a][1..] == [];
    } else {
      RunOneMore(c, Step(c, s, run[0]), run[1..], a);
      assert (run + [a])[1..] == run[1..] + [a] && (run + [a])[0] == run[0];
    }
  }

  lemma ReachStep(c: Config, s: State, a: Action) returns (next: State)
    requires CanReach(c, s) && Enabled(c, s, a)
    ensures CanReach(c, next) && next == Step(c, s, a)
  {
    hide Enabled, Step;
    var run :| Feasible(c, Init(c), run) && Run(c, Init(c), run) == s;
    RunOneMore(c, Init(c), run, a);
    next := Step(c, s, a);
    StepSized(c, s, a);
  }

  lemma StepSized(c: Config, s: State, a: Action)
    requires Sized(c, s) && Enabled(c, s, a)
    ensures Sized(c, Step(c, s, a))
  {}

  const ONE: Config := Config(1, [0], false)

  /** The florist has read its empty queue and not yet the flag; main offers the only
      client and signals, but nobody sleeps. */
  lemma OfferedBetweenReads() returns (s: State)
    ensures CanReach(ONE, s)
    ensures s == State(Dispatch(1), true, [Nobody], [Worker(ReadFlag, [0], 0, [0], [], 0, 0)])
  {
    hide CanReach;
    s := Init(ONE);
    assert CanReach(ONE, s) by { StartReachable(ONE); }
    assert s.owner == [Nobody] && s.workers == [STARTING];
    s := ReachStep(ONE, s, WorkerStep(0));
    s := ReachStep(ONE, s, MainStep);
    s := ReachStep(ONE, s, MainStep);
    s := ReachStep(ONE, s, MainStep);
    s := ReachStep(ONE, s, MainStep);
    s := ReachStep(ONE, s, MainStep);
    assert [] + [0] == [0];
  }

  lemma StartReachable(c: Config)
    ensures CanReach(c, Init(c))
  {
    assert Run(c, Init(c), []) == Init(c);
  }

  /** Main then closes the shop, and the florist reads the flag: it returns with the client
      in its queue, and its total misses that client. */
  lemma ClientCanBeLeftBehind() returns (s: State)
    ensures CanReach(ONE, s) && s.workers[0].pc.Returned?
    ensures s.workers[0].queue == [0] && s.workers[0].totalSales == 0
  {
    hide CanReach;
    s := OfferedBetweenReads();
    s := ReachStep(ONE, s, MainStep);
    s := ReachStep(ONE, s, MainStep);
    s := ReachStep(ONE, s, MainStep);
    s := ReachStep(ONE, s, MainStep);
    s := ReachStep(ONE, s, WorkerStep(0));
  }
}
