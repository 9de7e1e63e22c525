/** What every run of the bakery keeps: one process at the table, semaphores in {0, 1},
    conservation of ingredients, and a table that is only ever the last dropped pair. */
module BakerySafety {
  import opened Bakery

  // ---------------------------------------------------------------- sums

  function Sum(xs: seq<nat>): nat {
    if xs == [] then 0 else xs[0] + Sum(xs[1..])
  }

  lemma {:induction false} SumUpdate(xs: seq<nat>, i: nat, x: nat)
    requires i < |xs|
    ensures Sum(xs[i := x]) == Sum(xs) - xs[i] + x
  {
    if i == 0 {
      assert xs[i := x][1..] == xs[1..];
    } else {
      assert xs[i := x][1..] == xs[1..][i - 1 := x];
      SumUpdate(xs[1..], i - 1, x);
    }
  }

  lemma {:induction false} SumZeros(xs: seq<nat>)
    requires forall k | 0 <= k < |xs| :: xs[k] == 0
    ensures Sum(xs) == 0
  {
    if xs != [] { SumZeros(xs[1..]); }
  }

  lemma {:induction false} SumAtLeast(xs: seq<nat>, i: nat)
    requires i < |xs|
    ensures Sum(xs) >= xs[i]
  {
    if i > 0 { SumAtLeast(xs[1..], i - 1); }
  }

  lemma {:induction false} SumAtLeastTwo(xs: seq<nat>, i: nat, j: nat)
    requires i < j < |xs|
    ensures Sum(xs) >= xs[i] + xs[j]
  {
    if i == 0 { SumAtLeast(xs[1..], j - 1); } else { SumAtLeastTwo(xs[1..], i - 1, j - 1); }
  }

  lemma {:induction false} SumPositive(xs: seq<nat>) returns (i: nat)
    requires Sum(xs) > 0
    ensures i < |xs| && xs[i] > 0
  {
    if xs[0] > 0 {
      i := 0;
    } else {
      var k := SumPositive(xs[1..]);
      i := k + 1;
    }
  }

  // ---------------------------------------------------------------- who is at the table

  function ChefHolds(pc: ChefPc): nat {
    if pc.TryFirst? || pc.TrySecond? || pc.PutBack? || pc.Bake? || pc.Leave? then 1 else 0
  }

  function SellerHolds(pc: SellerPc): nat {
    if pc.PostFirst? || pc.PostSecond? || pc.ReleaseLock? then 1 else 0
  }

  function ChefsHolding(s: State): seq<nat> {
    seq(|s.chefs|, q requires 0 <= q < |s.chefs| => ChefHolds(s.chefs[q].pc))
  }

  /** `working` and the processes between taking and releasing it add up to one. */
  ghost predicate LockRight(s: State) {
    s.working + SellerHolds(s.seller) + Sum(ChefsHolding(s)) == 1
  }

  lemma Alone(s: State, q: nat)
    requires LockRight(s) && q < |s.chefs| && ChefHolds(s.chefs[q].pc) == 1
    ensures s.working == 0 && SellerHolds(s.seller) == 0
    ensures forall p | 0 <= p < |s.chefs| && p != q :: ChefHolds(s.chefs[p].pc) == 0
  {
    SumAtLeast(ChefsHolding(s), q);
    forall p | 0 <= p < |s.chefs| && p != q ensures ChefHolds(s.chefs[p].pc) == 0 {
      if p < q { SumAtLeastTwo(ChefsHolding(s), p, q); } else { SumAtLeastTwo(ChefsHolding(s), q, p); }
    }
  }

  lemma NoChefHolds(s: State, q: nat)
    requires LockRight(s) && (s.working > 0 || SellerHolds(s.seller) == 1) && q < |s.chefs|
    ensures ChefHolds(s.chefs[q].pc) == 0
  {
    SumAtLeast(ChefsHolding(s), q);
  }

  // ---------------------------------------------------------------- the counters

  /** Drops, bakes and collected bakes run in step with the wholesaler's program. */
  ghost predicate CountsRight(s: State) {
    && s.done + s.collected == s.baked
    && s.collected <= s.baked <= s.dropped <= s.collected + 1
    && (s.seller.Choose? || s.seller.WaitLock? || s.seller.PostFirst? || s.seller.PostSecond? ==>
          s.dropped == s.collected)
    && (s.seller.ReleaseLock? || s.seller.CheckFlag? || s.seller.AwaitDone? ==> s.dropped == s.collected + 1)
    && (s.seller.ReleaseLock? ==> s.dropped > s.baked)
    && (s.seller.Guard? && s.sellerOn ==> s.dropped == s.collected)
    && (s.seller.Exited? ==> !s.sellerOn)
  }

  // ---------------------------------------------------------------- the table

  /** The pair that has been dropped and not baked, if there is one. */
  function Outstanding(s: State): set<nat> {
    if s.dropped > s.baked then {s.last.0, s.last.1} else {}
  }

  ghost predicate TableIs(table: seq<nat>, items: set<nat>) {
    && (forall k | 0 <= k < |table| :: table[k] == if k in items then 1 else 0)
    && (forall k | k in items :: k < |table|)
  }

  ghost predicate SellerRight(c: Config, s: State) {
    match s.seller
    case WaitLock(f, g) => f < c.kinds && g < c.kinds && f != g
    case PostFirst(f, g) => f < c.kinds && g < c.kinds && f != g && TableIs(s.table, {})
    case PostSecond(f, g) => f < c.kinds && g < c.kinds && f != g && TableIs(s.table, {f})
    case ReleaseLock => TableIs(s.table, Outstanding(s))
    case _ => true
  }

  /** A chef that took its first ingredient found it in the outstanding pair; one that puts
      it back did not find its second there; one that bakes found exactly its own pair. */
  ghost predicate ChefRight(s: State, pc: ChefPc, pair: Pair) {
    var base := Outstanding(s);
    match pc
    case TryFirst => TableIs(s.table, base)
    case TrySecond => pair.0 in base && TableIs(s.table, base - {pair.0})
    case PutBack => pair.0 in base && pair.1 !in base && TableIs(s.table, base - {pair.0})
    case Bake => base == {pair.0, pair.1} && TableIs(s.table, {})
    case Leave => TableIs(s.table, base)
    case _ => true
  }

  ghost predicate LastRight(c: Config, s: State) {
    s.dropped > 0 ==> s.last.0 < c.kinds && s.last.1 < c.kinds && s.last.0 != s.last.1
  }

  ghost predicate FreeRight(s: State) { s.working > 0 ==> TableIs(s.table, Outstanding(s)) }

  ghost predicate ChefsRight(c: Config, s: State) {
    && |s.chefs| == |c.pairs|
    && forall q | 0 <= q < |s.chefs| :: ChefRight(s, s.chefs[q].pc, c.pairs[q])
  }

  // ---------------------------------------------------------------- the ingredients

  /** What a chef has taken from the table and neither put back nor baked. */
  function Held(pc: ChefPc): nat {
    if pc.TrySecond? || pc.PutBack? then 1 else if pc.Bake? then 2 else 0
  }

  function InHands(s: State): seq<nat> {
    seq(|s.chefs|, q requires 0 <= q < |s.chefs| => Held(s.chefs[q].pc))
  }

  /** Ingredients posted are baked, two at a time, or on the table, or in a chef's hands. */
  ghost predicate IngredientsRight(s: State) {
    s.posted == 2 * s.baked + Sum(s.table) + Sum(InHands(s))
  }

  ghost predicate ExitsRight(s: State) {
    forall q | 0 <= q < |s.chefs| :: s.chefs[q].pc.Gone? ==> !s.chefs[q].on
  }

  ghost predicate Inv(c: Config, s: State) {
    && Sized(c, s) && LockRight(s) && CountsRight(s) && LastRight(c, s)
    && SellerRight(c, s) && FreeRight(s) && ChefsRight(c, s) && IngredientsRight(s) && ExitsRight(s)
  }

  // ---------------------------------------------------------------- a chef's step

  lemma ChefSums(s: State, q: nat, pair: Pair)
    requires q < |s.chefs| && Enabled(Config(0, []), s, ChefStep(q)) && LockRight(s)
    ensures LockRight(StepChef(s, q, pair))
  {
    hide Sum, NextPc, TableAfter;
    var s' := StepChef(s, q, pair);
    var pc' := s'.chefs[q].pc;
    SumUpdate(ChefsHolding(s), q, ChefHolds(pc'));
    assert ChefsHolding(s') == ChefsHolding(s)[q := ChefHolds(pc')];
    ChefHolding(s.chefs[q], s.table, pair, s.working);
  }

  lemma ChefHolding(chef: Chef, table: seq<nat>, pair: Pair, working: nat)
    requires chef.pc.Enter? ==> working > 0
    ensures WorkingAfter(chef.pc, working) + ChefHolds(NextPc(chef, table, pair)) == working + ChefHolds(chef.pc)
  {}

  lemma ChefIngredients(s: State, q: nat, pair: Pair)
    requires q < |s.chefs| && pair.0 < |s.table| && IngredientsRight(s)
    ensures IngredientsRight(StepChef(s, q, pair))
  {
    hide Sum, NextPc, TableAfter, WorkingAfter;
    var s' := StepChef(s, q, pair);
    var pc' := s'.chefs[q].pc;
    SumUpdate(InHands(s), q, Held(pc'));
    assert InHands(s') == InHands(s)[q := Held(pc')];
    ChefTakes(s.chefs[q], s.table, pair);
  }

  lemma ChefTakes(chef: Chef, table: seq<nat>, pair: Pair)
    requires pair.0 < |table|
    ensures Sum(TableAfter(chef.pc, table, pair)) + Held(NextPc(chef, table, pair))
            + (if chef.pc.Bake? then 2 else 0) == Sum(table) + Held(chef.pc)
  {
    hide Sum;
    if pair.0 < |table| {
      SumUpdate(table, pair.0, table[pair.0] + 1);
      if table[pair.0] > 0 { SumUpdate(table, pair.0, table[pair.0] - 1); }
    }
    if Has(table, pair.1) { SumUpdate(table, pair.1, table[pair.1] - 1); }
  }

  lemma TakeFrom(table: seq<nat>, items: set<nat>, k: nat)
    requires TableIs(table, items)
    ensures Has(table, k) <==> k in items
    ensures TableIs(Take(table, k), items - {k})
  {}

  lemma AddTo(table: seq<nat>, items: set<nat>, k: nat)
    requires TableIs(table, items) && k !in items && k < |table|
    ensures TableIs(Add(table, k), items + {k})
  {}

  /** The chef itself: what it finds, what it leaves. */
  lemma ChefOwnStep(s: State, q: nat, pair: Pair)
    requires q < |s.chefs| && ChefRight(s, s.chefs[q].pc, pair) && pair.0 < |s.table| && pair.0 != pair.1
    requires s.chefs[q].pc.Enter? ==> TableIs(s.table, Outstanding(s))
    requires CountsRight(s)
    ensures ChefRight(StepChef(s, q, pair), StepChef(s, q, pair).chefs[q].pc, pair)
  {
    hide TableIs, Has, Take, Add, CountsRight, WorkingAfter;
    var pc, base := s.chefs[q].pc, Outstanding(s);
    if pc.TryFirst? {
      TakeFrom(s.table, base, pair.0);
      if pair.0 !in base { assert base - {pair.0} == base; }
    } else if pc.TrySecond? {
      TakeFrom(s.table, base - {pair.0}, pair.1);
      if pair.1 in base {
        assert base == {pair.0, pair.1};
        assert base - {pair.0} - {pair.1} == {};
      } else {
        assert base - {pair.0} - {pair.1} == base - {pair.0};
      }
    } else if pc.PutBack? {
      AddTo(s.table, base - {pair.0}, pair.0);
      assert base - {pair.0} + {pair.0} == base;
    } else if pc.Bake? {
      CountsSay(s);
    }
  }

  lemma CountsSay(s: State)
    requires CountsRight(s)
    ensures s.baked <= s.dropped <= s.baked + 1 && s.done <= 1
  {}

  lemma OthersIdle(s: State, q: nat, p: nat)
    requires LockRight(s) && q < |s.chefs| && p < |s.chefs| && p != q
    requires ChefHolds(s.chefs[q].pc) == 1 || (s.chefs[q].pc.Enter? && s.working > 0)
    ensures ChefHolds(s.chefs[p].pc) == 0 && SellerHolds(s.seller) == 0
  {
    hide LockRight;
    if ChefHolds(s.chefs[q].pc) == 1 { Alone(s, q); } else { NoChefHolds(s, p); FreeMeansNobody(s); }
  }

  lemma FreeMeansNobody(s: State)
    requires LockRight(s) && s.working > 0
    ensures SellerHolds(s.seller) == 0 && s.working == 1
  {}

  lemma ChefTable(c: Config, s: State, q: nat)
    requires c.Valid() && Inv(c, s) && Enabled(c, s, ChefStep(q))
    ensures var s' := StepChef(s, q, c.pairs[q]);
      ChefsRight(c, s') && FreeRight(s') && SellerRight(c, s')
  {
    hide TableIs, LockRight, CountsRight, IngredientsRight, Outstanding, LastRight, ExitsRight;
    var pair, s' := c.pairs[q], StepChef(s, q, c.pairs[q]);
    assert ChefRight(s, s.chefs[q].pc, pair);
    ChefOwnStep(s, q, pair);
    if ChefHolds(s.chefs[q].pc) == 1 {
      Alone(s, q);
      if s.chefs[q].pc.Leave? { SameOutstanding(s, s'); }
      forall p | 0 <= p < |s.chefs| && p != q ensures ChefRight(s', s'.chefs[p].pc, c.pairs[p]) {
        OthersIdle(s, q, p);
      }
    } else {
      assert Outstanding(s') == Outstanding(s) by { SameOutstanding(s, s'); }
      if s.chefs[q].pc.Enter? { FreeMeansNobody(s); }
      forall p | 0 <= p < |s.chefs| && p != q ensures ChefRight(s', s'.chefs[p].pc, c.pairs[p]) {
        assert ChefRight(s, s.chefs[p].pc, c.pairs[p]);
      }
    }
  }

  lemma SameOutstanding(s: State, s': State)
    requires s'.dropped == s.dropped && s'.baked == s.baked && s'.last == s.last
    ensures Outstanding(s') == Outstanding(s)
  {}

  lemma ChefCounts(c: Config, s: State, q: nat)
    requires Sized(c, s) && q < |c.pairs| && CountsRight(s) && LastRight(c, s) && ExitsRight(s) && LockRight(s)
    requires ChefRight(s, s.chefs[q].pc, c.pairs[q])
    ensures var s' := StepChef(s, q, c.pairs[q]); CountsRight(s') && LastRight(c, s') && ExitsRight(s')
  {
    hide TableIs, TableAfter, WorkingAfter, LockRight;
    if s.chefs[q].pc.Bake? { Alone(s, q); }
    assert s.chefs[q].pc.Bake? ==> c.pairs[q].0 in Outstanding(s);
  }

  lemma ChefKeeps(c: Config, s: State, q: nat)
    requires c.Valid() && Inv(c, s) && Enabled(c, s, ChefStep(q))
    ensures Inv(c, StepChef(s, q, c.pairs[q]))
  {
    hide LockRight, CountsRight, LastRight, SellerRight, FreeRight, IngredientsRight, ExitsRight, ChefRight;
    ChefTable(c, s, q);
    ChefCounts(c, s, q);
    ChefSums(s, q, c.pairs[q]);
    ChefIngredients(s, q, c.pairs[q]);
  }

  // ---------------------------------------------------------------- the wholesaler's step

  lemma SellerSums(s: State, f: nat, g: nat)
    requires LockRight(s) && IngredientsRight(s)
    requires s.seller.WaitLock? ==> s.working > 0
    requires s.seller.PostFirst? ==> s.seller.f < |s.table|
    requires s.seller.PostSecond? ==> s.seller.g < |s.table|
    ensures LockRight(StepSeller(s, f, g)) && IngredientsRight(StepSeller(s, f, g))
  {
    hide Sum;
    var s' := StepSeller(s, f, g);
    assert ChefsHolding(s') == ChefsHolding(s) && InHands(s') == InHands(s);
    if s.seller.PostFirst? { SumUpdate(s.table, s.seller.f, s.table[s.seller.f] + 1); }
    if s.seller.PostSecond? { SumUpdate(s.table, s.seller.g, s.table[s.seller.g] + 1); }
  }

  lemma SellerCounts(c: Config, s: State, f: nat, g: nat)
    requires CountsRight(s) && LastRight(c, s) && SellerRight(c, s) && ExitsRight(s) && Enabled(c, s, SellerStep(f, g))
    ensures var s' := StepSeller(s, f, g); CountsRight(s') && LastRight(c, s') && ExitsRight(s')
  {
    hide TableIs, Add;
  }

  lemma SellerTable(c: Config, s: State, f: nat, g: nat)
    requires Sized(c, s) && CountsRight(s) && SellerRight(c, s) && FreeRight(s) && Enabled(c, s, SellerStep(f, g))
    requires s.working > 0 ==> SellerHolds(s.seller) == 0
    requires s.working <= 1
    ensures var s' := StepSeller(s, f, g); SellerRight(c, s') && FreeRight(s')
  {
    hide TableIs, Add;
    match s.seller
    case PostFirst(a, b) => AddTo(s.table, {}, a); assert {} + {a} == {a};
    case PostSecond(a, b) => AddTo(s.table, {a}, b); assert {a} + {b} == {a, b};
    case _ =>
  }

  lemma SellerChefs(c: Config, s: State, f: nat, g: nat)
    requires c.Valid() && Inv(c, s) && Enabled(c, s, SellerStep(f, g))
    ensures ChefsRight(c, StepSeller(s, f, g))
  {
    hide TableIs, LockRight, IngredientsRight, Add, CountsRight;
    var s' := StepSeller(s, f, g);
    forall q | 0 <= q < |s.chefs| ensures ChefRight(s', s'.chefs[q].pc, c.pairs[q]) {
      assert ChefRight(s, s.chefs[q].pc, c.pairs[q]);
      if SellerHolds(s.seller) == 1 || s.seller.WaitLock? { NoChefHolds(s, q); }
    }
  }

  lemma SellerKeeps(c: Config, s: State, f: nat, g: nat)
    requires c.Valid() && Inv(c, s) && Enabled(c, s, SellerStep(f, g))
    ensures Inv(c, StepSeller(s, f, g))
  {
    hide LockRight, CountsRight, LastRight, FreeRight, IngredientsRight, ExitsRight, ChefRight, ChefsRight, TableIs;
    if s.working > 0 { FreeMeansNobody(s); }
    assert |StepSeller(s, f, g).table| == |s.table|;
    SellerTable(c, s, f, g);
    SellerCounts(c, s, f, g);
    SellerSums(s, f, g);
    SellerChefs(c, s, f, g);
  }

  // ---------------------------------------------------------------- every step of every run

  lemma InitHolds(c: Config)
    ensures Inv(c, Init(c))
  {
    var s := Init(c);
    SumZeros(ChefsHolding(s));
    SumZeros(InHands(s));
    SumZeros(s.table);
  }

  lemma StopChefKeeps(c: Config, s: State, q: nat)
    requires Inv(c, s) && q < |s.chefs|
    ensures Inv(c, s.(chefs := s.chefs[q := s.chefs[q].(on := false)]))
  {
    hide Sum, TableIs;
    var s' := s.(chefs := s.chefs[q := s.chefs[q].(on := false)]);
    assert ChefsHolding(s') == ChefsHolding(s) && InHands(s') == InHands(s);
    assert forall p | 0 <= p < |s.chefs| ::
      ChefRight(s', s'.chefs[p].pc, c.pairs[p]) <==> ChefRight(s, s.chefs[p].pc, c.pairs[p]);
  }

  lemma StopSellerKeeps(c: Config, s: State)
    requires Inv(c, s)
    ensures Inv(c, s.(sellerOn := false))
  {
    hide Sum, TableIs;
    var s' := s.(sellerOn := false);
    assert ChefsHolding(s') == ChefsHolding(s) && InHands(s') == InHands(s);
    assert forall p | 0 <= p < |s.chefs| ::
      ChefRight(s', s'.chefs[p].pc, c.pairs[p]) <==> ChefRight(s, s.chefs[p].pc, c.pairs[p]);
  }

  lemma StepKeeps(c: Config, s: State, a: Action)
    requires c.Valid() && Inv(c, s) && Enabled(c, s, a)
    ensures Inv(c, Step(c, s, a))
  {
    hide LockRight, CountsRight, LastRight, SellerRight, FreeRight, IngredientsRight, ExitsRight, ChefsRight,
      StepSeller, StepChef;
    match a
    case SellerStep(f, g) => SellerKeeps(c, s, f, g);
    case ChefStep(q) => ChefKeeps(c, s, q);
    case StopSeller => StopSellerKeeps(c, s);
    case StopChef(q) => StopChefKeeps(c, s, q);
  }

  lemma {:induction false} RunKeeps(c: Config, s: State, run: seq<Action>)
    requires c.Valid() && Inv(c, s) && Feasible(c, s, run)
    ensures Inv(c, Run(c, s, run))
    decreases |run|
  {
    hide Inv, Step, Enabled;
    if run != [] {
      StepKeeps(c, s, run[0]);
      RunKeeps(c, Step(c, s, run[0]), run[1..]);
    }
  }

  function After(c: Config, run: seq<Action>): State { Run(c, Init(c), run) }

  lemma Reachable(c: Config, run: seq<Action>)
    requires c.Valid() && Feasible(c, Init(c), run)
    ensures Inv(c, After(c, run))
  {
    InitHolds(c);
    RunKeeps(c, Init(c), run);
  }
}
