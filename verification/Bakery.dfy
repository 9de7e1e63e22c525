/** The chefs and the wholesaler of HW4 as a transition system over shared semaphores.
    There are `kinds` ingredients (four in the program) and one chef for every pair of
    them.  One step is one semaphore operation or one look at the process's own flag;
    SIGINT may clear the flag of any process at any time.  No wait is interrupted. */
module Bakery {

  /** A pair of ingredients; the first number is the smaller one. */
  type Pair = (nat, nat)

  datatype Config = Config(kinds: nat, pairs: seq<Pair>) {
    ghost predicate Valid() { kinds >= 2 && AllPairs(kinds, pairs) }
  }

  /** One chef for every pair of different ingredients, and no two for the same pair. */
  ghost predicate AllPairs(kinds: nat, pairs: seq<Pair>) {
    && (forall q | 0 <= q < |pairs| :: pairs[q].0 < pairs[q].1 < kinds)
    && (forall p, q | 0 <= p < q < |pairs| :: pairs[p] != pairs[q])
    && (forall i, j | 0 <= i < j < kinds :: (i, j) in pairs)
  }

  /** The fork loops of main. */
  method ForkChefs(kinds: nat) returns (pairs: seq<Pair>)
    ensures AllPairs(kinds, pairs)
  {
    pairs := [];
    for i: nat := 0 to kinds
      invariant Before(pairs, i, 0, kinds)
    {
      for j: nat := 0 to kinds
        invariant Before(pairs, i, j, kinds)
      {
        if j > i {
          pairs := pairs + [(i, j)];
        }
      }
    }
  }

  /** The list holds exactly the pairs that the two loops have passed. */
  ghost predicate Before(pairs: seq<Pair>, i: nat, j: nat, kinds: nat) {
    && (forall q | 0 <= q < |pairs| ::
          pairs[q].0 < pairs[q].1 < kinds && (pairs[q].0 < i || (pairs[q].0 == i && pairs[q].1 < j)))
    && (forall p, q | 0 <= p < q < |pairs| :: pairs[p] != pairs[q])
    && (forall a, b | 0 <= a < b < kinds && (a < i || (a == i && b < j)) :: (a, b) in pairs)
  }

  // ---------------------------------------------------------------- the state

  datatype SellerPc =
    | Guard                               // while (keepWorking)
    | Choose
    | WaitLock(f: nat, g: nat)
    | PostFirst(f: nat, g: nat)
    | PostSecond(f: nat, g: nat)
    | ReleaseLock
    | CheckFlag                           // if (keepWorking)
    | AwaitDone
    | Exited

  datatype ChefPc =
    | Look                                // while (keepWorking)
    | Enter                               // sem_wait(working)
    | TryFirst | TrySecond
    | PutBack
    | Bake                                // sem_post(done)
    | Leave                               // sem_post(working)
    | Gone

  datatype Chef = Chef(pc: ChefPc, on: bool)

  /** `last`, `dropped`, `baked`, `collected` and `posted` record what happened: the last
      pair dropped, the numbers of pairs dropped, of bakes and of bakes the wholesaler has
      waited for, and the number of ingredients posted. */
  datatype State = State(
    working: nat, done: nat, table: seq<nat>,
    seller: SellerPc, sellerOn: bool, chefs: seq<Chef>,
    last: (nat, nat), dropped: nat, baked: nat, collected: nat, posted: nat)

  function Init(c: Config): State {
    State(1, 0, seq(c.kinds, _ => 0), Guard, true, seq(|c.pairs|, _ => Chef(Look, true)), (0, 0), 0, 0, 0, 0)
  }

  datatype Action =
    | SellerStep(f: nat, g: nat)          // the ingredients random() would pick
    | ChefStep(q: nat)
    | StopSeller
    | StopChef(q: nat)

  ghost predicate Sized(c: Config, s: State) { |s.table| == c.kinds && |s.chefs| == |c.pairs| }

  ghost predicate Enabled(c: Config, s: State, a: Action) {
    match a
    case SellerStep(f, g) =>
      (match s.seller
       case Choose => f < c.kinds && g < c.kinds && f != g
       case WaitLock(_, _) => s.working > 0
       case AwaitDone => s.done > 0
       case Exited => false
       case _ => true)
    case ChefStep(q) =>
      q < |s.chefs| && !s.chefs[q].pc.Gone? && (s.chefs[q].pc.Enter? ==> s.working > 0)
    case StopSeller => true
    case StopChef(q) => q < |s.chefs|
  }

  function Step(c: Config, s: State, a: Action): State {
    match a
    case SellerStep(f, g) => StepSeller(s, f, g)
    case ChefStep(q) => if q < |s.chefs| && q < |c.pairs| then StepChef(s, q, c.pairs[q]) else s
    case StopSeller => s.(sellerOn := false)
    case StopChef(q) => if q < |s.chefs| then s.(chefs := s.chefs[q := s.chefs[q].(on := false)]) else s
  }

  function Add(table: seq<nat>, k: nat): seq<nat> {
    if k < |table| then table[k := table[k] + 1] else table
  }

  function Has(table: seq<nat>, k: nat): bool { k < |table| && table[k] > 0 }

  function Take(table: seq<nat>, k: nat): seq<nat> {
    if Has(table, k) then table[k := table[k] - 1] else table
  }

  function StepSeller(s: State, f: nat, g: nat): State {
    match s.seller
    case Guard => s.(seller := if s.sellerOn then Choose else Exited)
    case Choose => s.(seller := WaitLock(f, g))
    case WaitLock(a, b) => s.(working := Dec(s.working), seller := PostFirst(a, b))
    case PostFirst(a, b) => s.(table := Add(s.table, a), posted := s.posted + 1, seller := PostSecond(a, b))
    case PostSecond(a, b) =>
      s.(table := Add(s.table, b), posted := s.posted + 1, seller := ReleaseLock,
         last := (a, b), dropped := s.dropped + 1)
    case ReleaseLock => s.(working := s.working + 1, seller := CheckFlag)
    case CheckFlag => s.(seller := if s.sellerOn then AwaitDone else Guard)
    case AwaitDone => s.(done := Dec(s.done), collected := s.collected + 1, seller := Guard)
    case Exited => s
  }

  function Dec(n: nat): nat { if n > 0 then n - 1 else 0 }

  function StepChef(s: State, q: nat, pair: Pair): State
    requires q < |s.chefs|
  {
    var chef := s.chefs[q];
    s.(chefs := s.chefs[q := chef.(pc := NextPc(chef, s.table, pair))],
       table := TableAfter(chef.pc, s.table, pair),
       working := WorkingAfter(chef.pc, s.working),
       done := if chef.pc.Bake? then s.done + 1 else s.done,
       baked := if chef.pc.Bake? then s.baked + 1 else s.baked)
  }

  function NextPc(chef: Chef, table: seq<nat>, pair: Pair): ChefPc {
    match chef.pc
    case Look => if chef.on then Enter else Gone
    case Enter => TryFirst
    case TryFirst => if Has(table, pair.0) then TrySecond else Leave
    case TrySecond => if Has(table, pair.1) then Bake else PutBack
    case PutBack => Leave
    case Bake => Leave
    case Leave => Look
    case Gone => Gone
  }

  function TableAfter(pc: ChefPc, table: seq<nat>, pair: Pair): seq<nat> {
    match pc
    case TryFirst => Take(table, pair.0)
    case TrySecond => Take(table, pair.1)
    case PutBack => Add(table, pair.0)
    case _ => table
  }

  function WorkingAfter(pc: ChefPc, working: nat): nat {
    match pc case Enter => Dec(working) case Leave => working + 1 case _ => working
  }

  // ---------------------------------------------------------------- runs

  ghost predicate Feasible(c: Config, s: State, run: seq<Action>)
    decreases |run|
  {
    run == [] || (Enabled(c, s, run[0]) && Feasible(c, Step(c, s, run[0]), run[1..]))
  }

  function Run(c: Config, s: State, run: seq<Action>): State
    decreases |run|
  {
    if run == [] then s else Run(c, Step(c, s, run[0]), run[1..])
  }
}
