/** The bakery over all its runs: the step invariant, who bakes what, and that another bake
    is always within reach while nobody has been told to stop. */
module BakeryResults {
  import opened Bakery
  import opened BakerySafety

  // ---------------------------------------------------------------- the step invariant

  /** Every semaphore stays in {0, 1} and the table semaphore excludes everybody else. */
  lemma SemaphoresAreBinary(c: Config, run: seq<Action>)
    requires c.Valid() && Feasible(c, Init(c), run)
    ensures var s := After(c, run);
      && s.working + SellerHolds(s.seller) + Sum(ChefsHolding(s)) == 1
      && s.done <= 1
      && forall k | 0 <= k < |s.table| :: s.table[k] <= 1
  {
    Reachable(c, run);
    TableIsBinary(c, After(c, run));
    CountsSay(After(c, run));
  }

  lemma TableIsBinary(c: Config, s: State)
    requires Inv(c, s)
    ensures forall k | 0 <= k < |s.table| :: s.table[k] <= 1
  {
    hide Sum, Outstanding;
    if s.working == 0 && SellerHolds(s.seller) == 0 {
      var q := SumPositive(ChefsHolding(s));
      assert ChefRight(s, s.chefs[q].pc, c.pairs[q]);
    }
  }

  /** Drops and bakes alternate, no ingredient is lost or made, and whenever the table is
      free it is empty or holds exactly the pair that was dropped last. */
  lemma TableIsLastPair(c: Config, run: seq<Action>)
    requires c.Valid() && Feasible(c, Init(c), run)
    ensures var s := After(c, run);
      && s.baked <= s.dropped <= s.baked + 1
      && s.posted == 2 * s.baked + Sum(s.table) + Sum(InHands(s))
      && (s.working > 0 ==>
            TableIs(s.table, if s.dropped == s.baked then {} else {s.last.0, s.last.1}))
  {
    Reachable(c, run);
    CountsSay(After(c, run));
  }

  // ---------------------------------------------------------------- one chef's visit

  /** The pair is the one that has been dropped and not baked. */
  predicate Matches(s: State, pair: Pair) { Outstanding(s) == {pair.0, pair.1} }

  /** The run, by whatever process, contains no step with which chef q gives up the lock. */
  ghost predicate StaysInside(c: Config, s: State, q: nat, run: seq<Action>)
    decreases |run|
  {
    run == [] || (
      && !(run[0] == ChefStep(q) && q < |s.chefs| && s.chefs[q].pc.Leave?)
      && StaysInside(c, Step(c, s, run[0]), q, run[1..]))
  }

  /** What holds between the entry of chef q, in state s, and its leaving: it has the lock,
      nothing has been dropped since, and only q can have baked, once, as the last thing it
      did, and only if its pair is the outstanding one. */
  ghost predicate Visiting(s: State, now: State, q: nat, pair: Pair)
    requires q < |now.chefs|
  {
    var pc := now.chefs[q].pc;
    && ChefHolds(pc) == 1
    && now.last == s.last && now.dropped == s.dropped && now.posted == s.posted
    && now.baked == s.baked + (if pc.Leave? && Matches(s, pair) then 1 else 0)
    && (pc.Bake? ==> Matches(s, pair))
    && (pc.PutBack? ==> !Matches(s, pair))
  }

  lemma Entering(c: Config, s: State, q: nat)
    requires c.Valid() && Inv(c, s) && q < |c.pairs| && Enabled(c, s, ChefStep(q)) && s.chefs[q].pc.Enter?
    ensures Visiting(s, Step(c, s, ChefStep(q)), q, c.pairs[q])
  {
    hide LockRight, CountsRight, LastRight, SellerRight, FreeRight, IngredientsRight, ExitsRight, ChefRight;
  }

  lemma VisitorStep(c: Config, s: State, now: State, q: nat)
    requires c.Valid() && Inv(c, now) && q < |c.pairs|
    requires Visiting(s, now, q, c.pairs[q]) && !now.chefs[q].pc.Leave?
    ensures Visiting(s, StepChef(now, q, c.pairs[q]), q, c.pairs[q])
  {
    hide LockRight, CountsRight, LastRight, SellerRight, FreeRight, IngredientsRight, ExitsRight, TableIs;
    hide Has, TableAfter, WorkingAfter;
    var pair, base := c.pairs[q], Outstanding(now);
    assert ChefRight(now, now.chefs[q].pc, pair);
    assert base == Outstanding(s);
    if now.chefs[q].pc.TryFirst? {
      TakeFrom(now.table, base, pair.0);
      assert !Has(now.table, pair.0) ==> pair.0 !in base;
    } else if now.chefs[q].pc.TrySecond? {
      TakeFrom(now.table, base - {pair.0}, pair.1);
      OutstandingPair(now, pair);
    }
  }

  lemma OutstandingPair(s: State, pair: Pair)
    requires pair.0 != pair.1 && pair.0 in Outstanding(s)
    ensures Matches(s, pair) <==> pair.1 in Outstanding(s) - {pair.0}
  {
    if pair.1 in Outstanding(s) { assert Outstanding(s) == {pair.0, pair.1}; }
  }

  /** While chef q is inside, no other process moves what the visit is about. */
  lemma OthersStep(c: Config, s: State, now: State, q: nat, a: Action)
    requires c.Valid() && Inv(c, now) && q < |c.pairs| && Enabled(c, now, a) && a != ChefStep(q)
    requires Visiting(s, now, q, c.pairs[q])
    ensures Visiting(s, Step(c, now, a), q, c.pairs[q])
  {
    hide LockRight, CountsRight, LastRight, SellerRight, FreeRight, IngredientsRight, ExitsRight, ChefRight;
    hide TableAfter, WorkingAfter, Has, Outstanding;
    Alone(now, q);
  }

  lemma {:induction false} VisitKeeps(c: Config, s: State, now: State, q: nat, run: seq<Action>)
    requires c.Valid() && Inv(c, now) && q < |c.pairs| && Visiting(s, now, q, c.pairs[q])
    requires Feasible(c, now, run) && StaysInside(c, now, q, run)
    ensures Inv(c, Run(c, now, run)) && Visiting(s, Run(c, now, run), q, c.pairs[q])
    decreases |run|
  {
    hide Inv, Step, Enabled, Visiting;
    if run != [] {
      var a := run[0];
      StepKeeps(c, now, a);
      InvSized(c, now);
      if a == ChefStep(q) { VisitorMoves(c, s, now, q); } else { OthersStep(c, s, now, q, a); }
      InvSized(c, Step(c, now, a));
      VisitKeeps(c, s, Step(c, now, a), q, run[1..]);
    }
  }

  lemma VisitorMoves(c: Config, s: State, now: State, q: nat)
    requires c.Valid() && Inv(c, now) && Sized(c, now) && q < |c.pairs|
    requires Visiting(s, now, q, c.pairs[q]) && !now.chefs[q].pc.Leave?
    ensures Sized(c, Step(c, now, ChefStep(q)))
    ensures Visiting(s, Step(c, now, ChefStep(q)), q, c.pairs[q])
  {
    hide Inv, Visiting;
    VisitorStep(c, s, now, q);
  }

  /** A chef enters at a free table and is about to leave it again; in between, any process
      has taken any steps.  The chef has baked exactly if its pair was the outstanding one,
      and then the table is empty; otherwise the table is as the chef found it.  Nobody else
      has dropped, baked or taken anything. */
  lemma VisitBakesOrRestores(c: Config, run: seq<Action>, s: State, q: nat, visit: seq<Action>, left: State)
    requires c.Valid() && Feasible(c, Init(c), run) && s == After(c, run) && q < |c.pairs|
    requires q < |s.chefs| && s.chefs[q].pc.Enter? && s.working > 0
    requires var entered := Step(c, s, ChefStep(q));
      Feasible(c, entered, visit) && StaysInside(c, entered, q, visit) && left == Run(c, entered, visit)
    requires q < |left.chefs| && left.chefs[q].pc.Leave?
    ensures left.last == s.last && left.dropped == s.dropped && left.posted == s.posted
    ensures Matches(s, c.pairs[q]) ==>
      left.baked == s.baked + 1 && left.done + left.collected == s.done + s.collected + 1 && TableIs(left.table, {})
    ensures !Matches(s, c.pairs[q]) ==>
      left.baked == s.baked && left.done + left.collected == s.done + s.collected && left.table == s.table
  {
    hide Inv, Run, Feasible, Step, StaysInside, TableIs, AllPairs, Matches;
    Reachable(c, run);
    assert Enabled(c, s, ChefStep(q));
    StepKeeps(c, s, ChefStep(q));
    Entering(c, s, q);
    InvSized(c, Step(c, s, ChefStep(q)));
    VisitKeeps(c, s, Step(c, s, ChefStep(q)), q, visit);
    VisitEnds(c, s, q, left);
  }

  lemma VisitEnds(c: Config, s: State, q: nat, left: State)
    requires c.Valid() && Inv(c, s) && Inv(c, left) && s.working > 0
    requires q < |left.chefs| && q < |c.pairs| && Visiting(s, left, q, c.pairs[q]) && left.chefs[q].pc.Leave?
    ensures TableIs(left.table, Outstanding(left))
    ensures Matches(s, c.pairs[q]) ==> TableIs(left.table, {})
    ensures !Matches(s, c.pairs[q]) ==> left.table == s.table
    ensures left.done + left.collected == left.baked && s.done + s.collected == s.baked
  {
    hide LockRight, LastRight, SellerRight, IngredientsRight, ExitsRight, TableIs;
    assert ChefRight(left, left.chefs[q].pc, c.pairs[q]);
    if Matches(s, c.pairs[q]) {
      MatchIsOutstanding(s, c.pairs[q]);
    } else {
      SameOutstanding(s, left);
      SameTable(s.table, left.table, Outstanding(s));
    }
  }

  lemma MatchIsOutstanding(s: State, pair: Pair)
    requires Matches(s, pair)
    ensures s.dropped > s.baked
  {
    assert pair.0 in Outstanding(s);
  }

  lemma SameTable(a: seq<nat>, b: seq<nat>, items: set<nat>)
    requires |a| == |b| && TableIs(a, items) && TableIs(b, items)
    ensures a == b
  {}

  /** For every pair the wholesaler can drop there is exactly one chef that can bake it. */
  lemma ExactlyOneChef(c: Config, f: nat, g: nat) returns (q: nat)
    requires c.Valid() && f < c.kinds && g < c.kinds && f != g
    ensures q < |c.pairs| && {c.pairs[q].0, c.pairs[q].1} == {f, g}
    ensures forall p | 0 <= p < |c.pairs| && {c.pairs[p].0, c.pairs[p].1} == {f, g} :: p == q
  {
    var pair: Pair := if f < g then (f, g) else (g, f);
    assert pair in c.pairs;
    q :| 0 <= q < |c.pairs| && c.pairs[q] == pair;
    forall p | 0 <= p < |c.pairs| && {c.pairs[p].0, c.pairs[p].1} == {f, g} ensures p == q {
      SamePair(c.pairs[p], pair);
    }
  }

  /** Whenever a pair has been dropped and not baked, there is exactly one chef it matches. */
  lemma ExactlyOneMatches(c: Config, run: seq<Action>) returns (q: nat)
    requires c.Valid() && Feasible(c, Init(c), run)
    requires After(c, run).dropped > After(c, run).baked
    ensures q < |c.pairs| && Matches(After(c, run), c.pairs[q])
    ensures forall p | 0 <= p < |c.pairs| && Matches(After(c, run), c.pairs[p]) :: p == q
  {
    hide Inv, Run, Feasible;
    Reachable(c, run);
    LastInRange(c, After(c, run));
    q := ExactlyOneChef(c, After(c, run).last.0, After(c, run).last.1);
  }

  lemma LastInRange(c: Config, s: State)
    requires Inv(c, s) && s.dropped > s.baked
    ensures s.last.0 < c.kinds && s.last.1 < c.kinds && s.last.0 != s.last.1
  {}

  lemma SamePair(a: Pair, b: Pair)
    requires a.0 < a.1 && b.0 < b.1 && {a.0, a.1} == {b.0, b.1}
    ensures a == b
  {
    assert a.0 in {b.0, b.1} && a.1 in {b.0, b.1};
  }

  // ---------------------------------------------------------------- another bake is within reach

  predicate AllOn(s: State) {
    s.sellerOn && forall q | 0 <= q < |s.chefs| :: s.chefs[q].on
  }

  predicate IsStop(a: Action) { a.StopSeller? || a.StopChef? }

  /** Some run of at most n steps, in which no flag flips, brings the bakes above a number. */
  ghost predicate Reaches(c: Config, s: State, n: nat, baked: nat) {
    exists run ::
      && |run| <= n && Feasible(c, s, run) && Run(c, s, run).baked > baked
      && forall k | 0 <= k < |run| :: !IsStop(run[k])
  }

  lemma ReachesAfter(c: Config, s: State, a: Action, n: nat, baked: nat)
    requires Enabled(c, s, a) && !IsStop(a) && Reaches(c, Step(c, s, a), n, baked)
    ensures Reaches(c, s, n + 1, baked)
  {
    hide Enabled, Step, IsStop;
    var run :| |run| <= n && Feasible(c, Step(c, s, a), run) && Run(c, Step(c, s, a), run).baked > baked
      && forall k | 0 <= k < |run| :: !IsStop(run[k]);
    var longer := [a] + run;
    assert longer[1..] == run;
    assert Run(c, s, longer).baked > baked;
  }

  lemma ReachesNow(c: Config, s: State, baked: nat)
    requires s.baked > baked
    ensures Reaches(c, s, 0, baked)
  {
    assert Run(c, s, []).baked > baked;
  }

  lemma ReachesMore(c: Config, s: State, n: nat, m: nat, baked: nat)
    requires Reaches(c, s, n, baked) && n <= m
    ensures Reaches(c, s, m, baked)
  {}

  /** Steps that are left to the chef of the outstanding pair. */
  function BakerRank(pc: ChefPc): nat {
    match pc
    case Leave => 6 case Look => 5 case Enter => 4 case TryFirst => 3 case TrySecond => 2 case Bake => 1
    case _ => 0
  }

  lemma BakerStep(c: Config, s: State, q: nat)
    requires c.Valid() && Inv(c, s) && AllOn(s) && q < |c.pairs|
    requires s.dropped > s.baked && {c.pairs[q].0, c.pairs[q].1} == {s.last.0, s.last.1}
    requires ChefHolds(s.chefs[q].pc) == 1 || s.working > 0
    ensures Enabled(c, s, ChefStep(q))
    ensures var s' := StepChef(s, q, c.pairs[q]);
      || s'.baked == s.baked + 1
      || (s'.baked == s.baked && s'.dropped == s.dropped && s'.last == s.last && AllOn(s')
          && (ChefHolds(s'.chefs[q].pc) == 1 || s'.working > 0)
          && BakerRank(s'.chefs[q].pc) < BakerRank(s.chefs[q].pc))
  {
    hide Sum, AllPairs;
    var pair := c.pairs[q];
    assert ChefRight(s, s.chefs[q].pc, pair);
    assert pair.0 in {s.last.0, s.last.1} && pair.1 in {s.last.0, s.last.1};
    assert Outstanding(s) == {pair.0, pair.1};
    assert pair.0 < pair.1 < c.kinds by { PairRange(c, q); }
  }

  lemma PairRange(c: Config, q: nat)
    requires c.Valid() && q < |c.pairs|
    ensures c.pairs[q].0 < c.pairs[q].1 < c.kinds
  {}

  lemma {:induction false} BakerGoes(c: Config, s: State, q: nat)
    requires c.Valid() && Inv(c, s) && AllOn(s) && q < |c.pairs|
    requires s.dropped > s.baked && {c.pairs[q].0, c.pairs[q].1} == {s.last.0, s.last.1}
    requires ChefHolds(s.chefs[q].pc) == 1 || s.working > 0
    ensures Reaches(c, s, BakerRank(s.chefs[q].pc) + 1, s.baked)
    decreases BakerRank(s.chefs[q].pc)
  {
    hide Inv, StepChef, Reaches, AllOn, ChefHolds, BakerRank, Enabled;
    BakerStep(c, s, q);
    InvSized(c, s);
    StepKeeps(c, s, ChefStep(q));
    var s' := StepChef(s, q, c.pairs[q]);
    if s'.baked > s.baked {
      ReachesNow(c, s', s.baked);
      ReachesAfter(c, s, ChefStep(q), 0, s.baked);
      ReachesMore(c, s, 1, BakerRank(s.chefs[q].pc) + 1, s.baked);
    } else {
      InvSized(c, s');
      BakerGoes(c, s', q);
      ReachesAfter(c, s, ChefStep(q), BakerRank(s'.chefs[q].pc) + 1, s.baked);
      ReachesMore(c, s, BakerRank(s'.chefs[q].pc) + 2, BakerRank(s.chefs[q].pc) + 1, s.baked);
    }
  }

  lemma InvSized(c: Config, s: State)
    requires Inv(c, s)
    ensures Sized(c, s)
  {}

  /** With a pair on a free table, its chef bakes. */
  lemma PairGoes(c: Config, s: State)
    requires c.Valid() && Inv(c, s) && AllOn(s) && s.dropped > s.baked && s.working > 0
    ensures Reaches(c, s, 7, s.baked)
  {
    hide Reaches, AllOn, AllPairs, Sum, TableIs, ChefRight;
    var q := ExactlyOneChef(c, s.last.0, s.last.1);
    BakerGoes(c, s, q);
    ReachesMore(c, s, BakerRank(s.chefs[q].pc) + 1, 7, s.baked);
  }

  /** Steps that are left to the wholesaler until a pair is on a free table. */
  function SellerRank(pc: SellerPc): nat {
    match pc
    case CheckFlag => 8 case AwaitDone => 7 case Guard => 6 case Choose => 5 case WaitLock(_, _) => 4
    case PostFirst(_, _) => 3 case PostSecond(_, _) => 2 case ReleaseLock => 1 case Exited => 0
  }

  lemma SellerStepHelps(c: Config, s: State)
    requires c.Valid() && Inv(c, s) && AllOn(s)
    requires SellerHolds(s.seller) == 1 || (s.working > 0 && s.dropped == s.baked)
    ensures Enabled(c, s, SellerStep(0, 1))
    ensures var s' := StepSeller(s, 0, 1);
      && s'.baked == s.baked && AllOn(s')
      && (s.seller.ReleaseLock? ==> s'.working > 0 && s'.dropped > s'.baked)
      && (!s.seller.ReleaseLock? ==>
            && SellerRank(s'.seller) < SellerRank(s.seller)
            && (SellerHolds(s'.seller) == 1 || (s'.working > 0 && s'.dropped == s'.baked)))
  {
    hide Sum, TableIs, ChefRight, AllPairs, IngredientsRight;
  }

  lemma {:induction false} SellerGoes(c: Config, s: State)
    requires c.Valid() && Inv(c, s) && AllOn(s)
    requires SellerHolds(s.seller) == 1 || (s.working > 0 && s.dropped == s.baked)
    ensures Reaches(c, s, SellerRank(s.seller) + 8, s.baked)
    decreases SellerRank(s.seller)
  {
    hide Inv, StepSeller, Reaches, AllOn, SellerHolds, SellerRank, Enabled;
    SellerStepHelps(c, s);
    StepKeeps(c, s, SellerStep(0, 1));
    var s' := StepSeller(s, 0, 1);
    if s.seller.ReleaseLock? {
      PairGoes(c, s');
      ReachesAfter(c, s, SellerStep(0, 1), 7, s.baked);
      ReachesMore(c, s, 8, SellerRank(s.seller) + 8, s.baked);
    } else {
      SellerGoes(c, s');
      ReachesAfter(c, s, SellerStep(0, 1), SellerRank(s'.seller) + 8, s.baked);
      ReachesMore(c, s, SellerRank(s'.seller) + 9, SellerRank(s.seller) + 8, s.baked);
    }
  }

  lemma FreeGoes(c: Config, s: State)
    requires c.Valid() && Inv(c, s) && AllOn(s) && s.working > 0
    ensures Reaches(c, s, 16, s.baked)
  {
    hide Reaches, Inv;
    CountsOfInv(c, s);
    CountsSay(s);
    if s.dropped > s.baked {
      PairGoes(c, s);
      ReachesMore(c, s, 7, 16, s.baked);
    } else {
      SellerGoes(c, s);
      ReachesMore(c, s, SellerRank(s.seller) + 8, 16, s.baked);
    }
  }

  lemma CountsOfInv(c: Config, s: State)
    requires Inv(c, s)
    ensures CountsRight(s) && LockRight(s)
  {}

  function VisitRank(pc: ChefPc): nat {
    match pc case TryFirst => 4 case TrySecond => 3 case PutBack => 2 case Bake => 2 case Leave => 1 case _ => 0
  }

  lemma {:induction false} HolderGoes(c: Config, s: State, q: nat)
    requires c.Valid() && Inv(c, s) && AllOn(s) && q < |s.chefs| && ChefHolds(s.chefs[q].pc) == 1
    ensures Reaches(c, s, VisitRank(s.chefs[q].pc) + 16, s.baked)
    decreases VisitRank(s.chefs[q].pc)
  {
    hide Inv, Reaches, AllPairs, Has, TableAfter;
    InvSized(c, s);
    StepKeeps(c, s, ChefStep(q));
    var s', rank := StepChef(s, q, c.pairs[q]), VisitRank(s.chefs[q].pc);
    var rank' := VisitRank(s'.chefs[q].pc);
    if s.chefs[q].pc.Bake? {
      ReachesNow(c, s', s.baked);
      ReachesAfter(c, s, ChefStep(q), 0, s.baked);
      ReachesMore(c, s, 1, rank + 16, s.baked);
    } else if s.chefs[q].pc.Leave? {
      FreeGoes(c, s');
      ReachesAfter(c, s, ChefStep(q), 16, s.baked);
    } else {
      HolderGoes(c, s', q);
      ReachesAfter(c, s, ChefStep(q), rank' + 16, s.baked);
      ReachesMore(c, s, rank' + 17, rank + 16, s.baked);
    }
  }

  /** Nobody stops by itself. */
  lemma {:induction false} StaysOn(c: Config, s: State, run: seq<Action>)
    requires Feasible(c, s, run) && AllOn(s) && forall k | 0 <= k < |run| :: !IsStop(run[k])
    ensures AllOn(Run(c, s, run))
    decreases |run|
  {
    hide NextPc, TableAfter, WorkingAfter, StepSeller;
    if run != [] {
      assert !IsStop(run[0]);
      if run[0].SellerStep? { SellerKeepsFlags(s, run[0].f, run[0].g); }
      StaysOn(c, Step(c, s, run[0]), run[1..]);
    }
  }

  lemma SellerKeepsFlags(s: State, f: nat, g: nat)
    ensures StepSeller(s, f, g).sellerOn == s.sellerOn && StepSeller(s, f, g).chefs == s.chefs
  {}

  /** After every run in which nobody was told to stop, a further bake is at most twenty
      steps away, whatever the states of the wholesaler and of all chefs. */
  lemma NextBakeWithinReach(c: Config, run: seq<Action>)
    requires c.Valid() && Feasible(c, Init(c), run) && forall k | 0 <= k < |run| :: !IsStop(run[k])
    ensures Reaches(c, After(c, run), 20, After(c, run).baked)
  {
    hide Inv, Reaches, Feasible, Run;
    Reachable(c, run);
    StaysOn(c, Init(c), run);
    var s := After(c, run);
    CountsOfInv(c, s);
    if s.working > 0 {
      FreeGoes(c, s);
      ReachesMore(c, s, 16, 20, s.baked);
    } else if SellerHolds(s.seller) == 1 {
      SellerGoes(c, s);
      ReachesMore(c, s, SellerRank(s.seller) + 8, 20, s.baked);
    } else {
      var q := SumPositive(ChefsHolding(s));
      HolderGoes(c, s, q);
      ReachesMore(c, s, VisitRank(s.chefs[q].pc) + 16, 20, s.baked);
    }
  }
}
