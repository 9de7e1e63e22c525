/** What the HW2 processes do with the rows and with the signals, over whole runs: every
    row is written as it was produced and transformed as it was read, and exactly one
    signal is sent for each time the file stops being full or stops being empty. */
module SequenceHistory {
  import opened SequenceFile
  import opened SequenceProtocol
  import opened SequenceSafety

  // ---------------------------------------------------------------- rows

  /** The rows that process A produced in a run: those it had ready when it found room. */
  function RowsMade(c: Config, s: State, schedule: seq<Actor>): seq<Row>
    requires c.itemCount > 0
    decreases |schedule|
  {
    if schedule == [] then []
    else MadeBy(c, s, schedule[0]) + RowsMade(c, Step(c, s, schedule[0]), schedule[1..])
  }

  function MadeBy(c: Config, s: State, actor: Actor): seq<Row>
    requires c.itemCount > 0
  {
    match actor
    case A(row) => if s.parent.CountToWrite? && |Stored(c, s)| < c.maximum then [row] else []
    case B => []
  }

  /** The rows that process B gave to CalculateDFT and ChildLogger in a run. */
  function RowsTransformed(c: Config, s: State, schedule: seq<Actor>): seq<Row>
    requires c.itemCount > 0
    decreases |schedule|
  {
    if schedule == [] then []
    else TransformedBy(s, schedule[0]) + RowsTransformed(c, Step(c, s, schedule[0]), schedule[1..])
  }

  function TransformedBy(s: State, actor: Actor): seq<Row> {
    if actor == B && s.child.Process? then [s.child.row] else []
  }

  /** The row that is being written, and the row that has been read and not yet transformed. */
  function InWriting(p: ParentPc): seq<Row> { match p case WriteWord(_, row, _) => [row] case _ => [] }

  function InHand(p: ChildPc): seq<Row> {
    match p case CloseRead(_, row) => [row] case Process(_, row) => [row] case _ => []
  }

  lemma WritingStep(c: Config, s: State, rows: seq<Row>, actor: Actor)
    requires c.Valid() && Inv(c, s, rows) && Enabled(c, s, actor)
    ensures var next := Step(c, s, actor);
      next.produced + InWriting(next.parent) == s.produced + InWriting(s.parent) + MadeBy(c, s, actor)
  {
    hide Rows, Flatten, LastRowStart, RowCount, Word, Truncate, Conserved, NoLostWakeup, Handshake, ChildAgrees;
    InvStored(c, s, rows);
  }

  lemma TransformStep(c: Config, s: State, actor: Actor, done: seq<Row>)
    requires c.itemCount > 0 && Enabled(c, s, actor) && s.consumed == done + InHand(s.child)
    ensures var next := Step(c, s, actor);
      next.consumed == done + TransformedBy(s, actor) + InHand(next.child)
  {
    hide Rows, Flatten, LastRowStart, RowCount, Word, Truncate;
  }

  lemma {:induction false} RowsFollow(c: Config, s: State, rows: seq<Row>, schedule: seq<Actor>, done: seq<Row>)
    requires c.Valid() && Inv(c, s, rows) && Feasible(c, s, schedule) && s.consumed == done + InHand(s.child)
    ensures var end := Run(c, s, schedule);
      && end.produced + InWriting(end.parent) == s.produced + InWriting(s.parent) + RowsMade(c, s, schedule)
      && end.consumed == done + RowsTransformed(c, s, schedule) + InHand(end.child)
    decreases |schedule|
  {
    hide Inv, Step, Enabled, MadeBy, TransformedBy, InWriting, InHand;
    if schedule != [] {
      var actor := schedule[0];
      StepKeeps(c, s, rows, actor);
      WritingStep(c, s, rows, actor);
      TransformStep(c, s, actor, done);
      RowsFollow(c, Step(c, s, actor), NextRows(c, s, rows, actor), schedule[1..], done + TransformedBy(s, actor));
      assert done + TransformedBy(s, actor) + RowsTransformed(c, Step(c, s, actor), schedule[1..])
          == done + RowsTransformed(c, s, schedule);
    }
  }

  /** In every run: the rows written are those produced, in order and unchanged, but for the
      one being written; and the rows transformed are those popped, in order and unchanged,
      but for the one popped last, if it is still in hand. */
  lemma EveryRowIsWrittenAndTransformed(c: Config, schedule: seq<Actor>)
    requires c.Valid() && Feasible(c, Init(c), schedule)
    ensures var end := Run(c, Init(c), schedule);
      && RowsMade(c, Init(c), schedule) == end.produced + InWriting(end.parent)
      && end.consumed == RowsTransformed(c, Init(c), schedule) + InHand(end.child)
  {
    InitHolds(c);
    RowsFollow(c, Init(c), c.initial, schedule, []);
  }

  // ---------------------------------------------------------------- signals

  function One(b: bool): nat { if b then 1 else 0 }

  /** How often in a run the file stopped being full, and how often it stopped being empty. */
  function TimesNoLongerFull(c: Config, s: State, schedule: seq<Actor>): nat
    requires c.itemCount > 0
    decreases |schedule|
  {
    if schedule == [] then 0
    else
      var next := Step(c, s, schedule[0]);
      One(|Stored(c, s)| == c.maximum && |Stored(c, next)| < c.maximum) + TimesNoLongerFull(c, next, schedule[1..])
  }

  function TimesNoLongerEmpty(c: Config, s: State, schedule: seq<Actor>): nat
    requires c.itemCount > 0
    decreases |schedule|
  {
    if schedule == [] then 0
    else
      var next := Step(c, s, schedule[0]);
      One(|Stored(c, s)| == 0 && |Stored(c, next)| > 0) + TimesNoLongerEmpty(c, next, schedule[1..])
  }

  /** The signals that the loops sent to the parent and to the child in a run. */
  function SignalsToParent(c: Config, s: State, schedule: seq<Actor>): nat
    requires c.itemCount > 0
    decreases |schedule|
  {
    if schedule == [] then 0
    else One(schedule[0] == B && s.child.WakeParent?) + SignalsToParent(c, Step(c, s, schedule[0]), schedule[1..])
  }

  function SignalsToChild(c: Config, s: State, schedule: seq<Actor>): nat
    requires c.itemCount > 0
    decreases |schedule|
  {
    if schedule == [] then 0
    else One(schedule[0].A? && s.parent.WakeChild?) + SignalsToChild(c, Step(c, s, schedule[0]), schedule[1..])
  }

  /** One step: what is owed before, and becomes due, is paid or still owed. */
  lemma LedgerStep(c: Config, s: State, rows: seq<Row>, actor: Actor)
    requires c.Valid() && Inv(c, s, rows) && Enabled(c, s, actor)
    ensures var next, rows' := Step(c, s, actor), NextRows(c, s, rows, actor);
      && One(|rows| == c.maximum && |rows'| < c.maximum) + One(ChildOwesSignal(c, s))
         == One(actor == B && s.child.WakeParent?) + One(ChildOwesSignal(c, next))
      && One(|rows| == 0 && |rows'| > 0) + One(ParentOwesSignal(s))
         == One(actor.A? && s.parent.WakeChild?) + One(ParentOwesSignal(next))
  {
    hide Rows, Flatten, LastRowStart, RowCount, Word, Truncate, FileAgrees, Conserved, NoLostWakeup, Handshake;
    InvStored(c, s, rows);
  }

  lemma {:induction false} Ledger(c: Config, s: State, rows: seq<Row>, schedule: seq<Actor>)
    requires c.Valid() && Inv(c, s, rows) && Feasible(c, s, schedule)
    ensures var end := Run(c, s, schedule);
      && TimesNoLongerFull(c, s, schedule) + One(ChildOwesSignal(c, s))
         == SignalsToParent(c, s, schedule) + One(ChildOwesSignal(c, end))
      && TimesNoLongerEmpty(c, s, schedule) + One(ParentOwesSignal(s))
         == SignalsToChild(c, s, schedule) + One(ParentOwesSignal(end))
    decreases |schedule|
  {
    hide Inv, Step, Enabled, One, ChildOwesSignal, ParentOwesSignal, NextRows, Stored;
    if schedule != [] {
      var next, rows' := Step(c, s, schedule[0]), NextRows(c, s, rows, schedule[0]);
      StepKeeps(c, s, rows, schedule[0]);
      LedgerStep(c, s, rows, schedule[0]);
      StoredOfInv(c, s, rows);
      StoredOfInv(c, next, rows');
      Ledger(c, next, rows', schedule[1..]);
    }
  }

  lemma StoredOfInv(c: Config, s: State, rows: seq<Row>)
    requires c.Valid() && Inv(c, s, rows)
    ensures Stored(c, s) == rows
  {
    InvStored(c, s, rows);
  }

  /** In every run, the child has sent exactly one signal for each time the file stopped
      being full, and the parent one for each time it stopped being empty, except for a
      signal that is due and on its way. */
  lemma OneSignalPerTransition(c: Config, schedule: seq<Actor>)
    requires c.Valid() && Feasible(c, Init(c), schedule)
    ensures var end := Run(c, Init(c), schedule);
      && TimesNoLongerFull(c, Init(c), schedule)
         == SignalsToParent(c, Init(c), schedule) + One(ChildOwesSignal(c, end))
      && TimesNoLongerEmpty(c, Init(c), schedule)
         == SignalsToChild(c, Init(c), schedule) + One(ParentOwesSignal(end))
  {
    InitHolds(c);
    Ledger(c, Init(c), c.initial, schedule);
  }

  /** Nothing but a kill of the other process makes a signal pending, and nothing but
      sigsuspend takes it away. */
  lemma SignalsComeFromKill(c: Config, s: State, actor: Actor)
    requires c.itemCount > 0 && Enabled(c, s, actor)
    ensures var next := Step(c, s, actor);
      && (next.parentPending <==>
            || (actor == B && (s.child.WakeParent? || s.child.ReplyReady?))
            || (s.parentPending && !(actor.A? && (s.parent.AwaitChild? || s.parent.SuspendFull?))))
      && (next.childPending <==>
            || (actor.A? && (s.parent.WakeChild? || s.parent.SendReady?))
            || (s.childPending && !(actor == B && (s.child.AwaitParent? || s.child.SuspendEmpty?))))
  {
    hide RowCount, LastRowStart, Word, Truncate;
  }
}
