/** The two processes of HW2 as a transition system.

    Process A (the parent) appends rows to the communication file, process B (the
    child) removes them from its end.  A suspends when the file is full, B when it is
    empty, and each wakes the other only when it ends that condition.  The lock is
    given up before the wake-up signal is sent.

    One step is one system call, or one word read or written.  A schedule is any
    interleaving of steps that are enabled when they are taken.  SIGUSR1 is blocked
    except inside sigsuspend, so a process carries at most one pending copy of it, and
    sigsuspend takes the pending copy away atomically.  SIGINT is not sent. */
module SequenceProtocol {
  import opened SequenceFile

  datatype Config = Config(maximum: nat, itemCount: nat, initial: seq<Row>) {
    ghost predicate Valid() {
      && maximum >= 1 && itemCount >= 1
      && |initial| <= maximum && AllOfSize(initial, RowSize())
    }
    function RowSize(): nat { WORD * itemCount }
  }

  datatype Holder = Nobody | Parent | Child

  datatype ParentPc =
    | SendReady                                       // kill(child) of the handshake
    | AwaitChild                                      // sigsuspend of the handshake
    | OpenToWrite
    | LockToWrite                                     // fcntl(F_SETLKW)
    | CountToWrite
    | WriteWord(lines: nat, row: Row, i: nat)
    | CloseWritten(lines: nat)                        // close releases the lock
    | WakeChild
    | CloseFull
    | SuspendFull

  datatype ChildPc =
    | AwaitParent                                     // sigsuspend of the handshake
    | ReplyReady
    | OpenToRead
    | LockToRead
    | CountToRead
    | SeekLast(lines: nat)
    | ReadWord(lines: nat, offset: nat, row: Row, i: nat)
    | CutOff(lines: nat, offset: nat, row: Row)       // ftruncate
    | CloseRead(lines: nat, row: Row)
    | Process(lines: nat, row: Row)                   // CalculateDFT and ChildLogger
    | WakeParent
    | CloseEmpty
    | SuspendEmpty

  datatype State = State(
    file: seq<Byte>, lock: Holder,
    parentPending: bool, childPending: bool,
    parent: ParentPc, child: ChildPc,
    produced: seq<Row>, consumed: seq<Row>)

  function Init(c: Config): State {
    State(Flatten(c.initial), Nobody, false, false, SendReady, AwaitParent, [], [])
  }

  /** Which process moves; the parent's step carries the row it would produce. */
  datatype Actor = A(row: Row) | B

  ghost predicate Enabled(c: Config, s: State, actor: Actor) {
    match actor
    case A(row) =>
      (match s.parent
       case AwaitChild => s.parentPending
       case SuspendFull => s.parentPending
       case LockToWrite => s.lock == Nobody
       case CountToWrite => |row| == c.RowSize()
       case _ => true)
    case B =>
      match s.child
      case AwaitParent => s.childPending
      case SuspendEmpty => s.childPending
      case LockToRead => s.lock == Nobody
      case _ => true
  }

  function Step(c: Config, s: State, actor: Actor): State
    requires c.itemCount > 0
  {
    match actor case A(row) => ParentStep(c, s, row) case B => ChildStep(c, s)
  }

  function ParentStep(c: Config, s: State, row: Row): State
    requires c.itemCount > 0
  {
    match s.parent
    case SendReady => s.(parent := AwaitChild, childPending := true)
    case AwaitChild => s.(parent := OpenToWrite, parentPending := false)
    case OpenToWrite => s.(parent := LockToWrite)
    case LockToWrite => s.(parent := CountToWrite, lock := Parent)
    case CountToWrite =>
      var lines := RowCount(s.file, c.RowSize());
      if lines == c.maximum then s.(parent := CloseFull) else s.(parent := WriteWord(lines, row, 0))
    case WriteWord(lines, r, i) =>
      var file := s.file + Word(r, WORD * i);
      if i + 1 == c.itemCount
      then s.(file := file, produced := s.produced + [r], parent := CloseWritten(lines))
      else s.(file := file, parent := WriteWord(lines, r, i + 1))
    case CloseWritten(lines) =>
      s.(lock := Nobody, parent := if lines == 0 then WakeChild else OpenToWrite)
    case WakeChild => s.(parent := OpenToWrite, childPending := true)
    case CloseFull => s.(lock := Nobody, parent := SuspendFull)
    case SuspendFull => s.(parent := OpenToWrite, parentPending := false)
  }

  function ChildStep(c: Config, s: State): State
    requires c.itemCount > 0
  {
    match s.child
    case AwaitParent => s.(child := ReplyReady, childPending := false)
    case ReplyReady => s.(child := OpenToRead, parentPending := true)
    case OpenToRead => s.(child := LockToRead)
    case LockToRead => s.(child := CountToRead, lock := Child)
    case CountToRead =>
      var lines := RowCount(s.file, c.RowSize());
      s.(child := if lines == 0 then CloseEmpty else SeekLast(lines))
    case SeekLast(lines) =>
      s.(child := ReadWord(lines, LastRowStart(lines, c.RowSize()), [], 0))
    case ReadWord(lines, offset, row, i) =>
      var grown := row + Word(s.file, offset + WORD * i);
      s.(child := if i + 1 == c.itemCount then CutOff(lines, offset, grown)
                  else ReadWord(lines, offset, grown, i + 1))
    case CutOff(lines, offset, row) =>
      s.(file := Truncate(s.file, offset), consumed := s.consumed + [row], child := CloseRead(lines, row))
    case CloseRead(lines, row) => s.(lock := Nobody, child := Process(lines, row))
    case Process(lines, row) =>
      s.(child := if lines == c.maximum then WakeParent else OpenToRead)
    case WakeParent => s.(child := OpenToRead, parentPending := true)
    case CloseEmpty => s.(lock := Nobody, child := SuspendEmpty)
    case SuspendEmpty => s.(child := OpenToRead, childPending := false)
  }

  /** The word at a byte offset; past the end a read transfers nothing and the cleared
      buffer keeps its zeros. */
  function Word(bytes: seq<Byte>, at: nat): Row {
    if at + WORD <= |bytes| then bytes[at..at + WORD] else seq(WORD, _ => 0)
  }

  function Truncate(file: seq<Byte>, size: nat): seq<Byte> {
    if size <= |file| then file[..size] else file + seq(size - |file|, _ => 0)
  }

  // ---------------------------------------------------------------- runs

  ghost predicate Feasible(c: Config, s: State, schedule: seq<Actor>)
    requires c.itemCount > 0
    decreases |schedule|
  {
    schedule == [] ||
    (Enabled(c, s, schedule[0]) && Feasible(c, Step(c, s, schedule[0]), schedule[1..]))
  }

  function Run(c: Config, s: State, schedule: seq<Actor>): State
    requires c.itemCount > 0
    decreases |schedule|
  {
    if schedule == [] then s else Run(c, Step(c, s, schedule[0]), schedule[1..])
  }

  // ---------------------------------------------------------------- the invariant

  /** The complete rows in the file. */
  function Stored(c: Config, s: State): seq<Row>
    requires c.itemCount > 0
  {
    Rows(s.file, c.RowSize())
  }

  /** The part of a row that the parent has written so far. */
  function Torn(p: ParentPc): seq<Byte> {
    match p
    case WriteWord(_, row, i) => if WORD * i <= |row| then row[..WORD * i] else []
    case _ => []
  }

  predicate ParentLocks(p: ParentPc) {
    p.CountToWrite? || p.WriteWord? || p.CloseWritten? || p.CloseFull?
  }
  predicate ChildLocks(p: ChildPc) {
    p.CountToRead? || p.SeekLast? || p.ReadWord? || p.CutOff? || p.CloseRead? || p.CloseEmpty?
  }
  predicate LockAgrees(s: State) {
    && (s.lock == Parent <==> ParentLocks(s.parent))
    && (s.lock == Child <==> ChildLocks(s.child))
  }

  /** The bytes are whole rows and at most one torn row, which only the lock holder sees. */
  ghost predicate FileAgrees(c: Config, s: State, rows: seq<Row>) {
    && s.file == Flatten(rows) + Torn(s.parent)
    && AllOfSize(rows, c.RowSize())
    && |rows| <= c.maximum
  }

  /** No row is lost or made up. */
  ghost predicate Conserved(c: Config, s: State, rows: seq<Row>) {
    Balanced(c.initial, s.produced, s.consumed, rows)
  }

  ghost predicate Balanced(initial: seq<Row>, produced: seq<Row>, consumed: seq<Row>, rows: seq<Row>) {
    multiset(initial) + multiset(produced) == multiset(consumed) + multiset(rows)
  }

  ghost predicate ParentAgrees(c: Config, p: ParentPc, rows: seq<Row>) {
    match p
    case WriteWord(lines, row, i) =>
      |row| == c.RowSize() && i < c.itemCount && lines == |rows| < c.maximum
    case CloseWritten(lines) => |rows| == lines + 1
    case CloseFull => |rows| == c.maximum
    case _ => true
  }

  ghost predicate ChildAgrees(c: Config, p: ChildPc, rows: seq<Row>) {
    match p
    case SeekLast(lines) => lines == |rows| > 0
    case ReadWord(lines, offset, row, i) =>
      && lines == |rows| > 0 && i < c.itemCount
      && offset == |Flatten(rows[..lines - 1])|
      && WORD * i <= |rows[lines - 1]| && row == rows[lines - 1][..WORD * i]
    case CutOff(lines, offset, row) =>
      && lines == |rows| > 0
      && offset == |Flatten(rows[..lines - 1])|
      && row == rows[lines - 1]
    case CloseRead(lines, _) => |rows| == lines - 1
    case CloseEmpty => rows == []
    case _ => true
  }

  /** The parent has decided to suspend because the file was full. */
  predicate ParentCommitted(s: State) { s.parent.CloseFull? || s.parent.SuspendFull? }
  predicate ChildCommitted(s: State) { s.child.CloseEmpty? || s.child.SuspendEmpty? }

  /** The child has taken a row from a full file and has not sent the signal for it yet. */
  predicate ChildOwesSignal(c: Config, s: State) {
    match s.child
    case CloseRead(lines, _) => lines == c.maximum
    case Process(lines, _) => lines == c.maximum
    case WakeParent => true
    case _ => false
  }
  predicate ParentOwesSignal(s: State) {
    match s.parent
    case CloseWritten(lines) => lines == 0
    case WakeChild => true
    case _ => false
  }

  ghost predicate NoLostWakeup(c: Config, s: State, rows: seq<Row>) {
    && (ParentCommitted(s) ==> |rows| == c.maximum || s.parentPending || ChildOwesSignal(c, s))
    && (ChildCommitted(s) ==> |rows| == 0 || s.childPending || ParentOwesSignal(s))
  }

  predicate Handshake(s: State) {
    && (s.child.AwaitParent? || s.child.ReplyReady? ==>
          (s.parent.SendReady? || s.parent.AwaitChild?) && !s.parentPending)
    && (s.parent.SendReady? ==> s.child.AwaitParent? && !s.childPending)
    && (s.parent.AwaitChild? && s.child.AwaitParent? ==> s.childPending)
    && (s.parent.AwaitChild? && !s.child.AwaitParent? && !s.child.ReplyReady? ==> s.parentPending)
  }

  ghost predicate Inv(c: Config, s: State, rows: seq<Row>) {
    && LockAgrees(s) && FileAgrees(c, s, rows) && Conserved(c, s, rows)
    && ParentAgrees(c, s.parent, rows) && ChildAgrees(c, s.child, rows)
    && NoLostWakeup(c, s, rows) && Handshake(s)
  }
}
