/** The florist pool always finishes: it is never stuck, and the length of every run is
    bounded, whatever the scheduler does.  Only wake-ups without a signal can stretch a
    run, each of them by a constant. */
module FloristProgress {
  import opened FloristPool
  import opened FloristSafety

  // ---------------------------------------------------------------- never stuck

  /** A florist that is not asleep, not finished and not blocked can step; if it is blocked,
      main holds its mutex, and then main can step. */
  lemma NeverStuck(c: Config, run: seq<Action>) returns (a: Action)
    requires c.Valid() && Feasible(c, Init(c), run) && !After(c, run).main.Done?
    ensures Sized(c, After(c, run)) && Enabled(c, After(c, run), a) && !a.SpuriousWakeup?
  {
    Reachable(c, run);
    a := SomeoneCanMove(c, After(c, run));
  }

  lemma SomeoneCanMove(c: Config, s: State) returns (a: Action)
    requires Inv(c, s) && !s.main.Done?
    ensures Enabled(c, s, a) && !a.SpuriousWakeup?
  {
    hide WorkerRight, RoutedRight, Routed, Handled;
    a := MainStep;
    if !Enabled(c, s, MainStep) {
      // The florist whose mutex or whose end main is waiting for
      var i := match s.main case LockFor(k) => c.Target(k) case LockAll(j) => j case Join(j) => j case _ => 0;
      assert MainRight(c, s);
      assert OwnerRight(c, s, i);
      assert NoLostWakeup(c, s.main, s.keepWorking, s.workers[i], i);
      a := WorkerStep(i);
    }
  }

  // ---------------------------------------------------------------- a bound on every run

  /** Steps a florist can take before it sleeps or returns, if nothing is added to its
      queue, the flag stays as it is, and it has clients; */
  function BusyRank(pc: FloristPc): nat {
    match pc
    case Unlock(_) => 6 case Deliver(_) => 5 case ReadQueue => 4 case ReadFlag => 4
    case LockOwn => 3 case Relock => 3 case InnerGuard => 2 case Poll => 1
    case Asleep => 0 case Returned => 0
  }

  /** if its queue is empty and the shop stays open; */
  function IdleRank(pc: FloristPc): nat {
    match pc
    case Poll => 7 case Unlock(_) => 6 case Deliver(_) => 5 case ReadQueue => 4 case ReadFlag => 3
    case LockOwn => 2 case Relock => 2 case InnerGuard => 1
    case Asleep => 0 case Returned => 0
  }

  /** if its queue is empty and the shop is closing. */
  function ClosingRank(pc: FloristPc): nat {
    match pc
    case LockOwn => 7 case Relock => 7 case InnerGuard => 6 case Poll => 5 case Unlock(_) => 4
    case Deliver(_) => 3 case ReadQueue => 2 case ReadFlag => 1
    case Asleep => 0 case Returned => 0
  }

  function WorkerRank(w: Worker, keepWorking: bool): nat {
    8 * |w.queue| +
    (if w.queue != [] then BusyRank(w.pc) else if keepWorking then IdleRank(w.pc) else ClosingRank(w.pc))
  }

  function Total(ws: seq<Worker>, keepWorking: bool): nat {
    if ws == [] then 0 else WorkerRank(ws[0], keepWorking) + Total(ws[1..], keepWorking)
  }

  function MainRank(c: Config, pc: MainPc): int {
    var n, perClient := c.florists, 30;
    match pc
    case Dispatch(k) => 20 * n + 5 + perClient * (|c.routes| - k)
    case LockFor(k) => 20 * n + 5 + perClient * (|c.routes| - k) - 1
    case OfferTo(k) => 20 * n + 5 + perClient * (|c.routes| - k) - 2
    case SignalFor(k) => 20 * n + 5 + perClient * (|c.routes| - k) - 18
    case UnlockFor(k) => 20 * n + 5 + perClient * (|c.routes| - k) - 27
    case LockAll(j) => 19 * n + 4 + (n - j)
    case StopWork => 19 * n + 3
    case UnlockAll(j) => 10 * n + 2 + (n - j)
    case SignalJoin(j) => 10 * (n - j) + 1
    case Join(j) => 10 * (n - j) - 8
    case Done => 0
  }

  function Rank(c: Config, s: State): int { MainRank(c, s.main) + Total(s.workers, s.keepWorking) }

  lemma {:induction false} TotalUpdate(ws: seq<Worker>, i: nat, w: Worker, keepWorking: bool)
    requires i < |ws|
    ensures Total(ws[i := w], keepWorking) ==
            Total(ws, keepWorking) - WorkerRank(ws[i], keepWorking) + WorkerRank(w, keepWorking)
  {
    if i == 0 {
      assert ws[i := w][1..] == ws[1..];
    } else {
      assert ws[i := w][1..] == ws[1..][i - 1 := w];
      TotalUpdate(ws[1..], i - 1, w, keepWorking);
    }
  }

  lemma {:induction false} TotalClosing(ws: seq<Worker>)
    ensures Total(ws, false) <= Total(ws, true) + 7 * |ws|
  {
    if ws != [] { TotalClosing(ws[1..]); }
  }

  /** A step of a florist uses up some of its rank. */
  lemma LocalUsesRank(w: Worker, keepWorking: bool, atomicGuard: bool, owner: Owner)
    requires WorkerRight(w, keepWorking, atomicGuard) && WorkerEnabled(w.pc, owner)
    ensures WorkerRank(Local(w, keepWorking, atomicGuard), keepWorking) < WorkerRank(w, keepWorking)
  {}

  lemma WorkerUsesRank(c: Config, s: State, i: nat)
    requires Inv(c, s) && i < c.florists && WorkerEnabled(s.workers[i].pc, s.owner[i])
    ensures Rank(c, StepWorker(c, s, i)) < Rank(c, s)
  {
    hide Local, WorkerRank, OwnMutex, WorkerRight, MainRank;
    LocalUsesRank(s.workers[i], s.keepWorking, c.atomicGuard, s.owner[i]);
    TotalUpdate(s.workers, i, Local(s.workers[i], s.keepWorking, c.atomicGuard), s.keepWorking);
  }

  lemma ReceivingCosts(w: Worker, keepWorking: bool, client: Client)
    ensures WorkerRank(Receiving(w, client), keepWorking) <= WorkerRank(w, keepWorking) + 15
    ensures WorkerRank(Woken(w), keepWorking) <= WorkerRank(w, keepWorking) + 7
  {}

  /** What main adds to the florists' ranks by a step. */
  function Gift(pc: MainPc, florists: nat): nat {
    match pc
    case OfferTo(_) => 15 case SignalFor(_) => 7 case SignalJoin(j) => if j < florists then 7 else 0
    case StopWork => 7 * florists
    case _ => 0
  }

  lemma MainGives(c: Config, s: State)
    requires Sized(c, s) && MainRight(c, s)
    ensures var s' := StepMain(c, s);
      Total(s'.workers, s'.keepWorking) <= Total(s.workers, s.keepWorking) + Gift(s.main, c.florists)
  {
    hide WorkerRank, Receiving, Woken, MutexesAfter, NextMain, Total;
    match s.main
    case OfferTo(k) =>
      var i := c.Target(k);
      ReceivingCosts(s.workers[i], s.keepWorking, k);
      TotalUpdate(s.workers, i, Receiving(s.workers[i], k), s.keepWorking);
    case SignalFor(k) =>
      var i := c.Target(k);
      ReceivingCosts(s.workers[i], s.keepWorking, k);
      TotalUpdate(s.workers, i, Woken(s.workers[i]), s.keepWorking);
    case SignalJoin(j) =>
      if j < c.florists {
        ReceivingCosts(s.workers[j], s.keepWorking, 0);
        TotalUpdate(s.workers, j, Woken(s.workers[j]), s.keepWorking);
      }
    case StopWork => TotalClosing(s.workers);
    case _ =>
  }

  lemma MainPays(c: Config, s: State)
    requires Sized(c, s) && MainRight(c, s) && MainEnabled(c, s)
    ensures MainRank(c, NextMain(c, s.main)) + Gift(s.main, c.florists) < MainRank(c, s.main)
  {}

  lemma MainRankPositive(c: Config, s: State)
    requires MainRight(c, s)
    ensures MainRank(c, s.main) >= 0
  {}

  predicate Spurious(a: Action) { a.SpuriousWakeup? }

  lemma StepUsesRank(c: Config, s: State, a: Action)
    requires Inv(c, s) && Enabled(c, s, a)
    ensures Rank(c, Step(c, s, a)) < Rank(c, s) + (if Spurious(a) then 8 else 0)
  {
    hide MainRank, WorkerRank, Gift, Total, StepWorker, WorkerEnabled, MainEnabled, NextMain;
    match a
    case MainStep =>
      MainGives(c, s);
      MainPays(c, s);
    case WorkerStep(i) => WorkerUsesRank(c, s, i);
    case SpuriousWakeup(i) =>
      ReceivingCosts(s.workers[i], s.keepWorking, 0);
      TotalUpdate(s.workers, i, Woken(s.workers[i]), s.keepWorking);
  }

  function SpuriousIn(run: seq<Action>): nat {
    if run == [] then 0 else (if Spurious(run[0]) then 1 else 0) + SpuriousIn(run[1..])
  }

  lemma {:induction false} RunUsesRank(c: Config, s: State, run: seq<Action>)
    requires c.Valid() && Sized(c, s) && Feasible(c, s, run) && Inv(c, s)
    ensures |run| <= Rank(c, s) + 8 * SpuriousIn(run)
    decreases |run|
  {
    hide Inv, Enabled, Step, MainRank, Total, Spurious;
    InvMain(c, s);
    MainRankPositive(c, s);
    if run != [] {
      var next := Step(c, s, run[0]);
      StepKeeps(c, s, run[0]);
      InvSized(c, next);
      StepUsesRank(c, s, run[0]);
      RunUsesRank(c, next, run[1..]);
    }
  }

  lemma InvMain(c: Config, s: State)
    requires Inv(c, s)
    ensures MainRight(c, s)
  {}

  lemma {:induction false} TotalFresh(n: nat)
    ensures Total(seq(n, _ => STARTING), true) == 4 * n
  {
    if n > 0 {
      assert seq(n, _ => STARTING)[1..] == seq(n - 1, _ => STARTING);
      TotalFresh(n - 1);
    }
  }

  /** Every run is bounded by the numbers of florists, clients and wake-ups without a
      signal.  As the pool is never stuck before main is done, every run that goes on as
      long as it can ends with every florist joined. */
  lemma EveryRunEnds(c: Config, run: seq<Action>)
    requires c.Valid() && Feasible(c, Init(c), run)
    ensures |run| <= 24 * c.florists + 30 * |c.routes| + 5 + 8 * SpuriousIn(run)
  {
    hide Total;
    InitHolds(c);
    RunUsesRank(c, Init(c), run);
    TotalFresh(c.florists);
    assert Init(c).workers == seq(c.florists, _ => STARTING);
  }
}
