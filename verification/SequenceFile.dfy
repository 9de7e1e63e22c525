/** The communication file of HW2: a flat byte file that both processes use as a
    stack of rows.  A row is `itemCount` words of eight bytes.  The file carries no
    header; the number of rows is recovered by dividing its size.

    The first half defines the layout as functions; the second half is the file
    itself, changed in place by the helpers of both processes. */
module SequenceFile {

  type Byte = b: int | 0 <= b < 256
  type Row = seq<Byte>

  // sizeof(double)
  const WORD := 8

  // ---------------------------------------------------------------- layout

  /** The rows that a file of bytes holds, oldest first; a torn tail is ignored. */
  function Rows(file: seq<Byte>, rowSize: nat): seq<Row>
    requires rowSize > 0
  {
    if |file| < rowSize then []
    else [file[..rowSize]] + Rows(file[rowSize..], rowSize)
  }

  /** The bytes of a sequence of rows, in order. */
  function Flatten(rows: seq<Row>): seq<Byte> {
    if rows == [] then [] else rows[0] + Flatten(rows[1..])
  }

  /** CountSequence: the size of the file divided by the size of a row. */
  function RowCount(file: seq<Byte>, rowSize: nat): nat
    requires rowSize > 0
  {
    |file| / rowSize
  }

  /** Where the last of a number of rows starts. */
  function LastRowStart(lines: nat, rowSize: nat): nat {
    if lines == 0 then 0 else (lines - 1) * rowSize
  }

  predicate AllOfSize(rows: seq<Row>, rowSize: nat) {
    forall k | 0 <= k < |rows| :: |rows[k]| == rowSize
  }

  lemma {:induction false} FlattenAppend(rows: seq<Row>, row: Row)
    ensures Flatten(rows + [row]) == Flatten(rows) + row
  {
    if rows == [] {
      assert (rows + [row])[1..] == [];
    } else {
      FlattenAppend(rows[1..], row);
      assert (rows + [row])[1..] == rows[1..] + [row];
    }
  }

  /** Taking the top row off the bytes. */
  lemma FlattenTop(rows: seq<Row>)
    requires rows != []
    ensures Flatten(rows) == Flatten(rows[..|rows| - 1]) + rows[|rows| - 1]
  {
    FlattenAppend(rows[..|rows| - 1], rows[|rows| - 1]);
    assert rows[..|rows| - 1] + [rows[|rows| - 1]] == rows;
  }

  lemma {:induction false} FlattenSize(rows: seq<Row>, rowSize: nat)
    requires AllOfSize(rows, rowSize)
    ensures |Flatten(rows)| == |rows| * rowSize
  {
    if rows != [] {
      FlattenSize(rows[1..], rowSize);
      assert |rows| * rowSize == rowSize + (|rows| - 1) * rowSize;
    }
  }

  lemma MultipleIsFar(a: int, size: int)
    requires size > 0
    ensures a > 0 ==> a * size >= size
    ensures a < 0 ==> a * size <= -size
  {
    if a > 0 { assert a * size >= 1 * size; }
    if a < 0 { assert a * size <= -1 * size; }
  }

  lemma DropOne(x: nat, size: nat)
    requires 0 < size <= x
    ensures x / size == (x - size) / size + 1
  {
    var d, e := x / size, (x - size) / size;
    calc {
      (d - e - 1) * size;
      d * size - e * size - size;
      ((x - size) % size) - (x % size);
    }
    MultipleIsFar(d - e - 1, size);
  }

  /** Dividing the size of the file counts its complete rows, torn tail or not. */
  lemma {:induction false} CountByDivision(file: seq<Byte>, rowSize: nat)
    requires rowSize > 0
    ensures |Rows(file, rowSize)| == RowCount(file, rowSize)
  {
    if |file| >= rowSize {
      DropOne(|file|, rowSize);
      CountByDivision(file[rowSize..], rowSize);
    }
  }

  /** Reading the layout back: slicing recovers the rows, whatever torn tail follows
      them, and dividing the size recovers their number. */
  lemma RowsOfFlatten(rows: seq<Row>, tail: seq<Byte>, rowSize: nat)
    requires rowSize > 0 && AllOfSize(rows, rowSize) && |tail| < rowSize
    ensures Rows(Flatten(rows) + tail, rowSize) == rows
    ensures RowCount(Flatten(rows) + tail, rowSize) == |rows|
    ensures |Flatten(rows)| == |rows| * rowSize
  {
    RowsRecovered(rows, tail, rowSize);
    CountByDivision(Flatten(rows) + tail, rowSize);
    FlattenSize(rows, rowSize);
  }

  lemma {:induction false} RowsRecovered(rows: seq<Row>, tail: seq<Byte>, rowSize: nat)
    requires rowSize > 0 && AllOfSize(rows, rowSize) && |tail| < rowSize
    ensures Rows(Flatten(rows) + tail, rowSize) == rows
  {
    var file := Flatten(rows) + tail;
    if rows == [] {
      assert file == tail;
    } else {
      assert file == rows[0] + (Flatten(rows[1..]) + tail);
      assert file[..rowSize] == rows[0] && file[rowSize..] == Flatten(rows[1..]) + tail;
      RowsRecovered(rows[1..], tail, rowSize);
    }
  }

  // ---------------------------------------------------------------- the file

  class CommFile {
    var bytes: seq<Byte>
    // Offset of the descriptor that was opened for reading
    var offset: nat

    constructor (bytes: seq<Byte>)
      ensures this.bytes == bytes && offset == 0
    {
      this.bytes := bytes;
      offset := 0;
    }

    /** CountSequence, by the size that stat reports. */
    method CountSequence(itemCount: nat) returns (lines: nat)
      requires itemCount > 0
      ensures lines == |Rows(bytes, 8 * itemCount)|
    {
      var fileSize := |bytes|;
      lines := fileSize / (WORD * itemCount);
      CountByDivision(bytes, WORD * itemCount);
    }

    /** WriteToFile: appends the row one word at a time (the descriptor is in append mode). */
    method WriteToFile(row: Row, itemCount: nat)
      requires |row| == WORD * itemCount
      modifies `bytes
      ensures bytes == old(bytes) + row
    {
      for i := 0 to itemCount
        invariant bytes == old(bytes) + row[..WORD * i]
      {
        bytes := bytes + row[WORD * i..WORD * i + WORD];
        assert row[..WORD * (i + 1)] == row[..WORD * i] + row[WORD * i..WORD * i + WORD];
      }
      assert row[..WORD * itemCount] == row;
    }

    /** ReadSequence: seeks to the start of row `line`, reads it word by word, and cuts the
        file off there. */
    method ReadSequence(itemCount: nat, line: nat) returns (sequence: Row)
      requires line > 0
      requires |bytes| >= line * (WORD * itemCount)
      modifies this
      ensures |sequence| == WORD * itemCount
      ensures |bytes| == (line - 1) * (WORD * itemCount)
      ensures bytes + sequence <= old(bytes)
      ensures itemCount > 0 && line == |Rows(old(bytes), WORD * itemCount)| ==>
        Rows(bytes, WORD * itemCount) + [sequence] == Rows(old(bytes), WORD * itemCount)
    {
      hide Rows;
      sequence := [];
      OneRowLess(line, WORD * itemCount);
      var start := (line - 1) * (WORD * itemCount);
      offset := start;
      for i := 0 to itemCount
        invariant bytes == old(bytes)
        invariant offset == start + WORD * i
        invariant |bytes| >= start + WORD * itemCount
        invariant sequence == bytes[start..offset]
      {
        sequence := sequence + bytes[offset..offset + WORD];
        offset := offset + WORD;
      }
      bytes := bytes[..start];
      if itemCount > 0 && line == |Rows(old(bytes), WORD * itemCount)| { TopRow(old(bytes), WORD * itemCount, line); }
    }
  }

  /** The last complete row, and what is left when the file is cut off where it starts. */
  lemma {:induction false} TopRow(file: seq<Byte>, rowSize: nat, line: nat)
    requires rowSize > 0 && 0 < line == |Rows(file, rowSize)|
    ensures (line - 1) * rowSize + rowSize <= |file|
    ensures var start := (line - 1) * rowSize;
      Rows(file[..start], rowSize) + [file[start..start + rowSize]] == Rows(file, rowSize)
    decreases line
  {
    var start := (line - 1) * rowSize;
    if line == 1 {
      assert Rows(file[rowSize..], rowSize) == [];
      assert Rows(file[..start], rowSize) == [];
    } else {
      var rest := file[rowSize..];
      TopRow(rest, rowSize, line - 1);
      OneRowLess(line - 1, rowSize);
      DropFirstRow(file, rowSize, (line - 2) * rowSize, start);
    }
  }

  /** Leaving out the first row, the rows from `before` on are those from `start` on. */
  lemma DropFirstRow(file: seq<Byte>, rowSize: nat, before: nat, start: nat)
    requires rowSize > 0 && start == before + rowSize && start + rowSize <= |file|
    ensures Rows(file, rowSize) == [file[..rowSize]] + Rows(file[rowSize..], rowSize)
    ensures Rows(file[..start], rowSize) == [file[..rowSize]] + Rows(file[rowSize..][..before], rowSize)
    ensures file[rowSize..][before..before + rowSize] == file[start..start + rowSize]
  {
    assert file[..start][..rowSize] == file[..rowSize];
    assert file[..start][rowSize..] == file[rowSize..][..before];
  }

  lemma OneRowLess(line: nat, size: nat)
    requires line > 0
    ensures line * size == (line - 1) * size + size
  {}

  /** A row written and then read back is the same row, and leaves the file as it was. */
  method WriteThenRead(file: CommFile, row: Row, itemCount: nat, ghost rows: seq<Row>) returns (back: Row)
    requires itemCount > 0 && |row| == WORD * itemCount
    requires AllOfSize(rows, WORD * itemCount) && file.bytes == Flatten(rows)
    modifies file
    ensures back == row && file.bytes == old(file.bytes)
  {
    file.WriteToFile(row, itemCount);
    ghost var grown := rows + [row];
    assert file.bytes == Flatten(grown) + [] by { FlattenAppend(rows, row); }
    RowsOfFlatten(grown, [], WORD * itemCount);
    var lines := file.CountSequence(itemCount);
    back := file.ReadSequence(itemCount, lines);
    assert file.bytes + back == old(file.bytes) + row;
    assert back == (file.bytes + back)[|file.bytes|..];
  }
}
