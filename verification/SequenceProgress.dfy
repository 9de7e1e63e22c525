/** Progress of the HW2 protocol.  No fairness is assumed: whatever the scheduler does,
    only a bounded number of steps can pass before a row is written or taken away, so
    both processes keep working for ever, spurious wake-ups included. */
module SequenceProgress {
  import opened SequenceFile
  import opened SequenceProtocol
  import opened SequenceSafety

  /** What one pending signal can cost: a full round through open, lock, count and close. */
  function Wake(c: Config): nat { c.itemCount + 6 }

  /** Steps the parent can still take before it writes a last word or sleeps. */
  function ParentRank(c: Config, p: ParentPc): int {
    match p
    case SendReady => 1 + Wake(c)
    case AwaitChild => 0
    case OpenToWrite => c.itemCount + 4
    case LockToWrite => c.itemCount + 3
    case CountToWrite => c.itemCount + 2
    case WriteWord(_, _, i) => c.itemCount - i
    case CloseWritten(_) => c.itemCount + 6 + Wake(c)
    case WakeChild => c.itemCount + 5 + Wake(c)
    case CloseFull => 1
    case SuspendFull => 0
  }

  function ChildRank(c: Config, p: ChildPc): int {
    match p
    case AwaitParent => c.itemCount + 7
    case ReplyReady => c.itemCount + 6 + Wake(c)
    case OpenToRead => c.itemCount + 5
    case LockToRead => c.itemCount + 4
    case CountToRead => c.itemCount + 3
    case SeekLast(_) => c.itemCount + 2
    case ReadWord(_, _, _, i) => c.itemCount - i + 1
    case CutOff(_, _, _) => 1
    case CloseRead(_, _) => c.itemCount + 8 + Wake(c)
    case Process(_, _) => c.itemCount + 7 + Wake(c)
    case WakeParent => c.itemCount + 6 + Wake(c)
    case CloseEmpty => 1
    case SuspendEmpty => 0
  }

  function Rank(c: Config, s: State): int {
    ParentRank(c, s.parent) + ChildRank(c, s.child)
    + (if s.parentPending then Wake(c) else 0) + (if s.childPending then Wake(c) else 0)
  }

  /** One more than the greatest rank. */
  function RoundBound(c: Config): nat { 6 * c.itemCount + 39 }

  /** Rows written plus rows taken away. */
  function Moved(s: State): nat { |s.produced| + |s.consumed| }

  lemma RankBounded(c: Config, s: State, rows: seq<Row>)
    requires c.Valid() && Inv(c, s, rows)
    ensures 0 <= Rank(c, s) < RoundBound(c)
  {
    hide Flatten, FileAgrees, Conserved, AllOfSize, Handshake, LockAgrees, NoLostWakeup;
  }

  ghost predicate UsesRank(c: Config, s: State, next: State) {
    || Moved(next) == Moved(s) + 1
    || (Moved(next) == Moved(s) && Rank(c, next) < Rank(c, s))
  }

  lemma ParentUsesRank(c: Config, s: State, rows: seq<Row>, row: Row)
    requires c.Valid() && ParentAgrees(c, s.parent, rows) && Enabled(c, s, A(row))
    ensures UsesRank(c, s, ParentStep(c, s, row))
  {
    hide Rows, Flatten, RowCount, LastRowStart, FileAgrees, Conserved, AllOfSize, Word, Truncate;
    hide ChildRank;
  }

  lemma ChildUsesRank(c: Config, s: State, rows: seq<Row>)
    requires c.Valid() && ChildAgrees(c, s.child, rows) && Enabled(c, s, B)
    ensures UsesRank(c, s, ChildStep(c, s))
  {
    hide Rows, Flatten, RowCount, LastRowStart, FileAgrees, Conserved, AllOfSize, Word, Truncate;
    hide ParentRank;
  }

  /** Every step that moves no row uses up some of the rank. */
  lemma StepUsesRank(c: Config, s: State, rows: seq<Row>, actor: Actor)
    requires c.Valid() && Inv(c, s, rows) && Enabled(c, s, actor)
    ensures UsesRank(c, s, Step(c, s, actor))
  {
    hide UsesRank, ParentStep, ChildStep, ParentAgrees, ChildAgrees, FileAgrees, Conserved;
    match actor
    case A(row) => ParentUsesRank(c, s, rows, row);
    case B => ChildUsesRank(c, s, rows);
  }

  lemma {:induction false} StepsPerRow(c: Config, s: State, rows: seq<Row>, schedule: seq<Actor>)
    requires c.Valid() && Inv(c, s, rows) && Feasible(c, s, schedule)
    ensures var end := Run(c, s, schedule);
      && Moved(end) >= Moved(s)
      && |schedule| <= Rank(c, s) + (Moved(end) - Moved(s)) * RoundBound(c)
    decreases |schedule|
  {
    hide Flatten, Rows, Inv, Rank, Step;
    RankBounded(c, s, rows);
    if schedule != [] {
      var next, mid := Step(c, s, schedule[0]), NextRows(c, s, rows, schedule[0]);
      StepKeeps(c, s, rows, schedule[0]);
      StepUsesRank(c, s, rows, schedule[0]);
      StepsPerRow(c, next, mid, schedule[1..]);
      RankBounded(c, next, mid);
      var end := Run(c, next, schedule[1..]);
      OneMore(Moved(end) - Moved(next), RoundBound(c));
    }
  }

  lemma OneMore(n: int, size: nat)
    ensures (n + 1) * size == n * size + size
  {}

  lemma Balance(c: Config, s: State, rows: seq<Row>)
    requires Conserved(c, s, rows)
    ensures |c.initial| + |s.produced| == |s.consumed| + |rows|
  {
    assert |multiset(c.initial) + multiset(s.produced)| == |c.initial| + |s.produced|;
    assert |multiset(s.consumed) + multiset(rows)| == |s.consumed| + |rows|;
  }

  /** Neither process starves, under any scheduler: the length of a run bounds from
      below both the rows the parent has written and the rows the child has taken. */
  lemma BothKeepWorking(c: Config, schedule: seq<Actor>)
    requires c.Valid() && Feasible(c, Init(c), schedule)
    ensures var end := Run(c, Init(c), schedule);
      && |schedule| <= (2 * |end.produced| + c.maximum + 1) * RoundBound(c)
      && |schedule| <= (2 * |end.consumed| + c.maximum + 1) * RoundBound(c)
  {
    var end := Run(c, Init(c), schedule);
    InitHolds(c);
    Reachable(c, schedule);
    RankBounded(c, Init(c), c.initial);
    StepsPerRow(c, Init(c), c.initial, schedule);
    Balance(c, end, Stored(c, end));
    var k := RoundBound(c);
    OneMore(Moved(end), k);
    Widen(Moved(end) + 1, 2 * |end.produced| + c.maximum + 1, k);
    Widen(Moved(end) + 1, 2 * |end.consumed| + c.maximum + 1, k);
  }

  lemma Widen(a: nat, b: nat, k: nat)
    requires a <= b
    ensures a * k <= b * k
  {}
}
