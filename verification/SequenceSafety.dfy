/** What every run of the HW2 protocol keeps: mutual exclusion, whole rows, the
    bounded stack, and no lost wake-up. */
module SequenceSafety {
  import opened SequenceFile
  import opened SequenceProtocol

  /** The rows after a step: a row appears with its last word, and goes with ftruncate. */
  ghost function NextRows(c: Config, s: State, rows: seq<Row>, actor: Actor): seq<Row> {
    match actor
    case A(_) =>
      if s.parent.WriteWord? && s.parent.i + 1 == c.itemCount then rows + [s.parent.row] else rows
    case B =>
      if s.child.CutOff? && rows != [] then rows[..|rows| - 1] else rows
  }

  // ---------------------------------------------------------------- counting and the file

  /** The layout makes the rows of the invariant the rows that are in the file. */
  lemma InvStored(c: Config, s: State, rows: seq<Row>)
    requires c.Valid() && FileAgrees(c, s, rows) && ParentAgrees(c, s.parent, rows)
    ensures Stored(c, s) == rows
    ensures RowCount(s.file, c.RowSize()) == |rows| <= c.maximum
  {
    RowsOfFlatten(rows, Torn(s.parent), c.RowSize());
  }

  lemma OneMoreWord(row: Row, i: nat)
    requires WORD * (i + 1) <= |row|
    ensures row[..WORD * i] + Word(row, WORD * i) == row[..WORD * (i + 1)]
  {}

  lemma WriteStep(c: Config, s: State, rows: seq<Row>, row: Row)
    requires c.Valid() && FileAgrees(c, s, rows) && ParentAgrees(c, s.parent, rows)
    requires s.parent.WriteWord?
    ensures FileAgrees(c, ParentStep(c, s, row), NextRows(c, s, rows, A(row)))
  {
    hide Rows, Flatten, Word, RowCount;
    var r, i := s.parent.row, s.parent.i;
    OneMoreWord(r, i);
    FlattenAppend(rows, r);
    assert Flatten(rows) + r[..WORD * i] + Word(r, WORD * i) == Flatten(rows) + r[..WORD * (i + 1)];
  }

  lemma CutStep(c: Config, s: State, rows: seq<Row>)
    requires c.Valid() && FileAgrees(c, s, rows) && ChildAgrees(c, s.child, rows)
    requires s.child.CutOff? && Torn(s.parent) == []
    ensures FileAgrees(c, ChildStep(c, s), NextRows(c, s, rows, B))
  {
    hide Rows, Flatten, RowCount, LastRowStart;
    FlattenTop(rows);
  }

  lemma QuietStep(c: Config, s: State, rows: seq<Row>, actor: Actor)
    requires c.Valid() && FileAgrees(c, s, rows)
    requires actor.A? ==> !s.parent.WriteWord?
    requires actor.B? ==> !s.child.CutOff?
    ensures FileAgrees(c, Step(c, s, actor), NextRows(c, s, rows, actor))
  {
    hide Rows, Flatten, RowCount, LastRowStart;
  }

  lemma FileStep(c: Config, s: State, rows: seq<Row>, actor: Actor)
    requires c.Valid() && Inv(c, s, rows)
    ensures FileAgrees(c, Step(c, s, actor), NextRows(c, s, rows, actor))
  {
    hide Rows, Flatten, RowCount, LastRowStart, FileAgrees, AllOfSize, Word, Truncate;
    if actor.A? && s.parent.WriteWord? {
      WriteStep(c, s, rows, actor.row);
    } else if actor.B? && s.child.CutOff? {
      CutStep(c, s, rows);
    } else {
      QuietStep(c, s, rows, actor);
    }
  }

  lemma BalancedPush(initial: seq<Row>, produced: seq<Row>, consumed: seq<Row>, rows: seq<Row>, r: Row)
    requires Balanced(initial, produced, consumed, rows)
    ensures Balanced(initial, produced + [r], consumed, rows + [r])
  {
    var before := multiset(initial) + multiset(produced);
    assert multiset(initial) + multiset(produced + [r]) == before + multiset{r};
    assert multiset(consumed) + multiset(rows + [r]) == multiset(consumed) + multiset(rows) + multiset{r};
  }

  lemma BalancedPop(initial: seq<Row>, produced: seq<Row>, consumed: seq<Row>, rows: seq<Row>, r: Row)
    requires Balanced(initial, produced, consumed, rows + [r])
    ensures Balanced(initial, produced, consumed + [r], rows)
  {
    assert multiset(consumed + [r]) + multiset(rows) == multiset(consumed) + multiset(rows + [r]);
  }

  lemma ConservedStep(c: Config, s: State, rows: seq<Row>, actor: Actor)
    requires c.Valid() && Conserved(c, s, rows) && ChildAgrees(c, s.child, rows)
    ensures Conserved(c, Step(c, s, actor), NextRows(c, s, rows, actor))
  {
    hide Rows, Flatten, RowCount, LastRowStart, AllOfSize, Word, Truncate, Balanced;
    if actor.B? && s.child.CutOff? {
      assert rows == rows[..|rows| - 1] + [s.child.row];
      BalancedPop(c.initial, s.produced, s.consumed, rows[..|rows| - 1], s.child.row);
    } else if actor.A? && s.parent.WriteWord? {
      BalancedPush(c.initial, s.produced, s.consumed, rows, s.parent.row);
    }
  }

  // ---------------------------------------------------------------- the two processes

  lemma ParentLocal(c: Config, s: State, rows: seq<Row>, row: Row)
    requires c.Valid() && Inv(c, s, rows) && Enabled(c, s, A(row))
    ensures ParentAgrees(c, ParentStep(c, s, row).parent, NextRows(c, s, rows, A(row)))
    ensures ChildAgrees(c, ParentStep(c, s, row).child, NextRows(c, s, rows, A(row)))
    ensures LockAgrees(ParentStep(c, s, row)) && Handshake(ParentStep(c, s, row))
  {
    hide Rows, Flatten, RowCount, LastRowStart, FileAgrees, Conserved, AllOfSize, Word, Truncate;
    InvStored(c, s, rows);
  }

  lemma ReadStep(c: Config, s: State, rows: seq<Row>)
    requires c.Valid() && Inv(c, s, rows) && (s.child.SeekLast? || s.child.ReadWord?)
    ensures ChildAgrees(c, ChildStep(c, s).child, rows)
  {
    hide Rows, Flatten, RowCount;
    var rest, top := rows[..|rows| - 1], rows[|rows| - 1];
    FlattenTop(rows);
    FlattenSize(rest, c.RowSize());
    assert s.file == Flatten(rest) + top;
    if s.child.ReadWord? {
      var i, offset := s.child.i, s.child.offset;
      assert s.file[offset + WORD * i..offset + WORD * i + WORD] == top[WORD * i..WORD * i + WORD];
      assert top[..WORD * i] + top[WORD * i..WORD * i + WORD] == top[..WORD * (i + 1)];
    }
  }

  lemma ChildLocal(c: Config, s: State, rows: seq<Row>)
    requires c.Valid() && Inv(c, s, rows) && Enabled(c, s, B)
    ensures ChildAgrees(c, ChildStep(c, s).child, NextRows(c, s, rows, B))
    ensures ParentAgrees(c, ChildStep(c, s).parent, NextRows(c, s, rows, B))
    ensures LockAgrees(ChildStep(c, s)) && Handshake(ChildStep(c, s))
  {
    hide Rows, Flatten, RowCount, LastRowStart, FileAgrees, Conserved, AllOfSize, Word, Truncate;
    InvStored(c, s, rows);
    if s.child.SeekLast? || s.child.ReadWord? { ReadStep(c, s, rows); }
  }

  lemma WakeupStep(c: Config, s: State, rows: seq<Row>, actor: Actor)
    requires c.Valid() && Inv(c, s, rows) && Enabled(c, s, actor)
    ensures NoLostWakeup(c, Step(c, s, actor), NextRows(c, s, rows, actor))
  {
    hide Rows, Flatten, RowCount, LastRowStart, FileAgrees, Conserved, AllOfSize, Word, Truncate;
    InvStored(c, s, rows);
  }

  // ---------------------------------------------------------------- every step of every run

  lemma InitHolds(c: Config)
    requires c.Valid()
    ensures Inv(c, Init(c), c.initial)
  {
    assert Init(c).file == Flatten(c.initial) + [];
  }

  lemma StepKeeps(c: Config, s: State, rows: seq<Row>, actor: Actor)
    requires c.Valid() && Inv(c, s, rows) && Enabled(c, s, actor)
    ensures Inv(c, Step(c, s, actor), NextRows(c, s, rows, actor))
  {
    hide ParentStep, ChildStep, NextRows, FileAgrees, Conserved, ParentAgrees, ChildAgrees, LockAgrees,
      Handshake, NoLostWakeup;
    FileStep(c, s, rows, actor);
    ConservedStep(c, s, rows, actor);
    WakeupStep(c, s, rows, actor);
    match actor
    case A(row) => ParentLocal(c, s, rows, row);
    case B => ChildLocal(c, s, rows);
  }

  lemma {:induction false} RunKeeps(c: Config, s: State, rows: seq<Row>, schedule: seq<Actor>) returns (after: seq<Row>)
    requires c.Valid() && Inv(c, s, rows) && Feasible(c, s, schedule)
    ensures Inv(c, Run(c, s, schedule), after)
    decreases |schedule|
  {
    hide Rows, Flatten, RowCount, LastRowStart;
    if schedule == [] {
      after := rows;
    } else {
      StepKeeps(c, s, rows, schedule[0]);
      after := RunKeeps(c, Step(c, s, schedule[0]), NextRows(c, s, rows, schedule[0]), schedule[1..]);
    }
  }

  /** Every state a run from the start can reach satisfies the invariant of its stored rows. */
  lemma Reachable(c: Config, schedule: seq<Actor>)
    requires c.Valid() && Feasible(c, Init(c), schedule)
    ensures var s := Run(c, Init(c), schedule); Inv(c, s, Stored(c, s))
  {
    InitHolds(c);
    var rows := RunKeeps(c, Init(c), c.initial, schedule);
    InvStored(c, Run(c, Init(c), schedule), rows);
  }

  // ---------------------------------------------------------------- main results

  /** The two processes are never both between taking and releasing the lock; when nobody
      holds it the file is whole rows; there are never more than `maximum` of them, and
      no row was lost or made up. */
  lemma FileIsBoundedStack(c: Config, schedule: seq<Actor>)
    requires c.Valid() && Feasible(c, Init(c), schedule)
    ensures var s := Run(c, Init(c), schedule);
      && !(ParentLocks(s.parent) && ChildLocks(s.child))
      && |Stored(c, s)| <= c.maximum
      && multiset(c.initial) + multiset(s.produced) == multiset(s.consumed) + multiset(Stored(c, s))
      && (s.lock == Nobody ==>
            && s.file == Flatten(Stored(c, s))
            && |s.file| == |Stored(c, s)| * (8 * c.itemCount))
  {
    Reachable(c, schedule);
    var s := Run(c, Init(c), schedule);
    FlattenSize(Stored(c, s), c.RowSize());
    hide Rows, Flatten, RowCount, LastRowStart;
  }

  /** A process that has decided to suspend is still right to, or its wake-up has been
      sent, or the other process is on its way to sending it. */
  lemma NoWakeupIsLost(c: Config, schedule: seq<Actor>)
    requires c.Valid() && Feasible(c, Init(c), schedule)
    ensures var s := Run(c, Init(c), schedule); NoLostWakeup(c, s, Stored(c, s))
  {
    Reachable(c, schedule);
  }

  lemma SomeoneCanMove(c: Config, s: State, rows: seq<Row>)
    requires c.Valid() && Inv(c, s, rows)
    ensures exists actor :: Enabled(c, s, actor)
  {
    var row: Row := seq(c.RowSize(), _ => 0);
    if !Enabled(c, s, B) {
      assert Enabled(c, s, A(row));
    }
  }

  /** In every reachable state, the handshake included, one of the processes can move. */
  lemma NeverStuck(c: Config, schedule: seq<Actor>)
    requires c.Valid() && Feasible(c, Init(c), schedule)
    ensures exists actor :: Enabled(c, Run(c, Init(c), schedule), actor)
  {
    Reachable(c, schedule);
    SomeoneCanMove(c, Run(c, Init(c), schedule), Stored(c, Run(c, Init(c), schedule)));
  }

  // ---------------------------------------------------------------- refinement of a bounded stack

  datatype StackOp = Push(row: Row) | Pop(row: Row)

  /** What a run did to the history of rows, in order. */
  function Trace(c: Config, s: State, schedule: seq<Actor>): seq<StackOp>
    requires c.itemCount > 0
    decreases |schedule|
  {
    if schedule == [] then []
    else
      var next := Step(c, s, schedule[0]);
      OpBetween(s, next) + Trace(c, next, schedule[1..])
  }

  function OpBetween(s: State, next: State): seq<StackOp> {
    if |next.produced| > |s.produced| then [Push(next.produced[|next.produced| - 1])]
    else if |next.consumed| > |s.consumed| then [Pop(next.consumed[|next.consumed| - 1])]
    else []
  }

  /** The specification: a stack with room for `maximum` rows. */
  ghost predicate StackRun(maximum: nat, before: seq<Row>, ops: seq<StackOp>, after: seq<Row>)
    decreases |ops|
  {
    if ops == [] then before == after
    else match ops[0]
      case Push(row) => |before| < maximum && StackRun(maximum, before + [row], ops[1..], after)
      case Pop(row) =>
        && before != [] && row == before[|before| - 1]
        && StackRun(maximum, before[..|before| - 1], ops[1..], after)
  }

  /** One step is a legal push, a legal pop, or leaves the stack alone. */
  ghost predicate OneOp(maximum: nat, before: seq<Row>, op: seq<StackOp>, after: seq<Row>) {
    || (op == [] && after == before)
    || (exists row :: op == [Push(row)] && after == before + [row] && |before| < maximum)
    || (exists row :: op == [Pop(row)] && before == after + [row])
  }

  lemma StepRefines(c: Config, s: State, rows: seq<Row>, actor: Actor)
    requires c.Valid() && Inv(c, s, rows) && Enabled(c, s, actor)
    ensures OneOp(c.maximum, rows, OpBetween(s, Step(c, s, actor)), NextRows(c, s, rows, actor))
  {
    hide Rows, Flatten, RowCount, LastRowStart;
    var next := Step(c, s, actor);
    if actor.A? && s.parent.WriteWord? && s.parent.i + 1 == c.itemCount {
      assert OpBetween(s, next) == [Push(s.parent.row)];
    } else if actor.B? && s.child.CutOff? {
      assert OpBetween(s, next) == [Pop(s.child.row)];
      assert rows == rows[..|rows| - 1] + [s.child.row];
    } else {
      assert OpBetween(s, next) == [];
    }
  }

  lemma ThenRun(maximum: nat, before: seq<Row>, op: seq<StackOp>, mid: seq<Row>, ops: seq<StackOp>, after: seq<Row>)
    requires OneOp(maximum, before, op, mid) && StackRun(maximum, mid, ops, after)
    ensures StackRun(maximum, before, op + ops, after)
  {
    if op == [] {
      assert op + ops == ops;
    } else {
      assert (op + ops)[1..] == ops;
      if op[0].Pop? { assert before[..|before| - 1] == mid; }
    }
  }

  lemma {:induction false} RunRefines(c: Config, s: State, rows: seq<Row>, schedule: seq<Actor>)
    requires c.Valid() && Inv(c, s, rows) && Feasible(c, s, schedule)
    ensures StackRun(c.maximum, rows, Trace(c, s, schedule), Stored(c, Run(c, s, schedule)))
    decreases |schedule|
  {
    if schedule == [] {
      InvStored(c, s, rows);
    } else {
      hide Rows, Flatten, RowCount, LastRowStart;
      var next, mid := Step(c, s, schedule[0]), NextRows(c, s, rows, schedule[0]);
      StepKeeps(c, s, rows, schedule[0]);
      StepRefines(c, s, rows, schedule[0]);
      RunRefines(c, next, mid, schedule[1..]);
      ThenRun(c.maximum, rows, OpBetween(s, next), mid,
              Trace(c, next, schedule[1..]), Stored(c, Run(c, next, schedule[1..])));
    }
  }

  /** For every run, the rows written and read are a legal history of one stack of at
      most `maximum` rows that starts with what the file held: each read returns exactly
      the latest row not read yet, and no row is written to a full stack. */
  lemma RunRefinesStack(c: Config, schedule: seq<Actor>)
    requires c.Valid() && Feasible(c, Init(c), schedule)
    ensures StackRun(c.maximum, c.initial, Trace(c, Init(c), schedule), Stored(c, Run(c, Init(c), schedule)))
  {
    InitHolds(c);
    RunRefines(c, Init(c), c.initial, schedule);
  }
}
