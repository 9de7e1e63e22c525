/** The wholesaler and the flags over whole runs: what is drawn is what is dropped, and a
    process that has been told to stop comes to its end. */
module BakeryRuns {
  import opened Bakery
  import opened BakerySafety

  // ---------------------------------------------------------------- what is drawn is dropped

  /** Since it drew f and g, the wholesaler has not dropped them yet, or they are the last
      pair it dropped, or it has dropped another pair after them. */
  ghost predicate DrawnSince(now: State, dropped: nat, f: nat, g: nat) {
    && now.dropped >= dropped
    && (now.dropped == dropped ==> now.seller in {WaitLock(f, g), PostFirst(f, g), PostSecond(f, g)})
    && (now.dropped == dropped + 1 ==> now.last == (f, g))
  }

  lemma StepDrawn(c: Config, now: State, a: Action, dropped: nat, f: nat, g: nat)
    requires Enabled(c, now, a) && DrawnSince(now, dropped, f, g)
    ensures DrawnSince(Step(c, now, a), dropped, f, g)
  {
    hide NextPc, TableAfter, WorkingAfter;
  }

  lemma {:induction false} RunDrawn(c: Config, now: State, run: seq<Action>, dropped: nat, f: nat, g: nat)
    requires Feasible(c, now, run) && DrawnSince(now, dropped, f, g)
    ensures DrawnSince(Run(c, now, run), dropped, f, g)
    decreases |run|
  {
    hide Step, Enabled, DrawnSince;
    if run != [] {
      StepDrawn(c, now, run[0], dropped, f, g);
      RunDrawn(c, Step(c, now, run[0]), run[1..], dropped, f, g);
    }
  }

  /** The wholesaler draws two ingredients.  In every run from there, the next pair it drops
      is that pair, and when it gives up the table exactly these two lie on it. */
  lemma DropsWhatItDrew(c: Config, before: seq<Action>, s: State, f: nat, g: nat, run: seq<Action>, later: State)
    requires c.Valid() && Feasible(c, Init(c), before) && s == After(c, before)
    requires s.seller.Choose? && Enabled(c, s, SellerStep(f, g))
    requires Feasible(c, Step(c, s, SellerStep(f, g)), run) && later == Run(c, Step(c, s, SellerStep(f, g)), run)
    requires later.dropped == s.dropped + 1
    ensures later.last == (f, g)
    ensures later.seller.ReleaseLock? ==> TableIs(later.table, {f, g})
    ensures later.working > 0 && later.baked == s.baked ==> TableIs(later.table, {f, g})
  {
    hide Feasible, Run, Inv;
    Reachable(c, before);
    StepKeeps(c, s, SellerStep(f, g));
    RunKeeps(c, Step(c, s, SellerStep(f, g)), run);
    RunDrawn(c, Step(c, s, SellerStep(f, g)), run, s.dropped, f, g);
    BeforeTheDrop(c, s);
    AfterTheDrop(c, later);
  }

  lemma BeforeTheDrop(c: Config, s: State)
    requires Inv(c, s) && s.seller.Choose?
    ensures s.dropped == s.baked
  {}

  lemma AfterTheDrop(c: Config, s: State)
    requires Inv(c, s)
    ensures s.seller.ReleaseLock? ==> s.dropped > s.baked && TableIs(s.table, {s.last.0, s.last.1})
    ensures s.working > 0 && s.dropped > s.baked ==> TableIs(s.table, {s.last.0, s.last.1})
  {}

  // ---------------------------------------------------------------- stopping

  /** Steps that are left to a chef, and to the wholesaler, after SIGINT has reached it. */
  function ChefLeft(pc: ChefPc): nat {
    match pc
    case Enter => 6 case TryFirst => 5 case TrySecond => 4 case PutBack => 3 case Bake => 3
    case Leave => 2 case Look => 1 case Gone => 0
  }

  function SellerLeft(pc: SellerPc): nat {
    match pc
    case Choose => 7 case WaitLock(_, _) => 6 case PostFirst(_, _) => 5 case PostSecond(_, _) => 4
    case ReleaseLock => 3 case CheckFlag => 2 case AwaitDone => 2 case Guard => 1 case Exited => 0
  }

  function ChefSteps(run: seq<Action>, q: nat): nat {
    if run == [] then 0 else (if run[0] == ChefStep(q) then 1 else 0) + ChefSteps(run[1..], q)
  }

  function SellerSteps(run: seq<Action>): nat {
    if run == [] then 0 else (if run[0].SellerStep? then 1 else 0) + SellerSteps(run[1..])
  }

  lemma ChefUsesRank(c: Config, s: State, a: Action, q: nat)
    requires Enabled(c, s, a) && |s.chefs| == |c.pairs| && q < |s.chefs| && !s.chefs[q].on
    ensures var next := Step(c, s, a);
      && |next.chefs| == |c.pairs| && !next.chefs[q].on
      && ChefLeft(next.chefs[q].pc) + (if a == ChefStep(q) then 1 else 0) <= ChefLeft(s.chefs[q].pc)
  {
    hide TableAfter, WorkingAfter, StepSeller;
    SellerLeavesChefs(s, a);
  }

  lemma SellerLeavesChefs(s: State, a: Action)
    ensures a.SellerStep? ==> StepSeller(s, a.f, a.g).chefs == s.chefs
  {}

  lemma {:induction false} ChefStops(c: Config, s: State, run: seq<Action>, q: nat)
    requires Feasible(c, s, run) && |s.chefs| == |c.pairs| && q < |s.chefs| && !s.chefs[q].on
    ensures q < |Run(c, s, run).chefs|
    ensures ChefLeft(Run(c, s, run).chefs[q].pc) + ChefSteps(run, q) <= ChefLeft(s.chefs[q].pc)
    decreases |run|
  {
    hide Step, Enabled, ChefLeft;
    if run != [] {
      ChefUsesRank(c, s, run[0], q);
      ChefStops(c, Step(c, s, run[0]), run[1..], q);
    }
  }

  lemma SellerUsesRank(c: Config, s: State, a: Action)
    requires Enabled(c, s, a) && !s.sellerOn
    ensures var next := Step(c, s, a);
      !next.sellerOn && SellerLeft(next.seller) + (if a.SellerStep? then 1 else 0) <= SellerLeft(s.seller)
  {
    hide NextPc, TableAfter, WorkingAfter;
  }

  lemma {:induction false} SellerStops(c: Config, s: State, run: seq<Action>)
    requires Feasible(c, s, run) && !s.sellerOn
    ensures SellerLeft(Run(c, s, run).seller) + SellerSteps(run) <= SellerLeft(s.seller)
    decreases |run|
  {
    hide Step, Enabled, SellerLeft;
    if run != [] {
      SellerUsesRank(c, s, run[0]);
      SellerStops(c, Step(c, s, run[0]), run[1..]);
    }
  }

  /** SIGINT can reach any process at any time, and a process that it has reached takes few
      more steps, whatever the others do: a chef finishes at most the visit it is waiting for
      and leaves; the wholesaler drops at most the pair it is about to draw, and does not go
      to wait for it to be baked. */
  lemma StopsWhenTold(c: Config, s: State, a: Action, run: seq<Action>)
    requires Sized(c, s) && (a == StopSeller || (a.StopChef? && a.q < |c.pairs|))
    requires Feasible(c, Step(c, s, a), run)
    ensures Enabled(c, s, a)
    ensures a.StopChef? ==> ChefSteps(run, a.q) <= 6
    ensures a.StopSeller? ==> SellerSteps(run) <= 7
    ensures a.StopSeller? && !s.seller.AwaitDone? ==> !Run(c, Step(c, s, a), run).seller.AwaitDone?
  {
    var next := Step(c, s, a);
    if a.StopChef? {
      ChefStops(c, next, run, a.q);
    } else {
      SellerStops(c, next, run);
      if !s.seller.AwaitDone? { NeverWaits(c, next, run); }
    }
  }

  lemma {:induction false} NeverWaits(c: Config, s: State, run: seq<Action>)
    requires Feasible(c, s, run) && !s.sellerOn && !s.seller.AwaitDone?
    ensures !Run(c, s, run).seller.AwaitDone?
    decreases |run|
  {
    hide NextPc, TableAfter, WorkingAfter;
    if run != [] { NeverWaits(c, Step(c, s, run[0]), run[1..]); }
  }
}
