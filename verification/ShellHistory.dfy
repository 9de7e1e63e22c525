/** The command history of the HW3 shell: a null-terminated array that is copied and
    replaced when a new command differs from the latest one. */
module ShellHistory {
  import opened ShellTokens

  /** The history after one more command. */
  function Remember(history: seq<string>, command: string): seq<string> {
    if history != [] && history[|history| - 1] == command then history else history + [command]
  }

  /** The history after a session. */
  function RememberAll(commands: seq<string>): seq<string> {
    if commands == [] then []
    else Remember(RememberAll(commands[..|commands| - 1]), commands[|commands| - 1])
  }

  /** The positions at which a session changes to a different command. */
  function Changes(commands: seq<string>): seq<nat> {
    if commands == [] then []
    else
      var n := |commands| - 1;
      Changes(commands[..n]) + (if n == 0 || commands[n] != commands[n - 1] then [n] else [])
  }

  /** One more command, on both sides. */
  lemma OneMore(commands: seq<string>)
    requires commands != []
    ensures var n := |commands| - 1; var h, c := RememberAll(commands[..n]), Changes(commands[..n]);
      && RememberAll(commands) == Remember(h, commands[n])
      && (n == 0 ==> h == [] && c == [])
      && Changes(commands) == c + (if n == 0 || commands[n] != commands[n - 1] then [n] else [])
  {}

  /** The history lists, in order, exactly the commands at which the session changed: no
      two neighbours are equal and nothing but immediate repeats is dropped. */
  lemma {:induction false} HistoryIsChanges(commands: seq<string>)
    ensures |RememberAll(commands)| == |Changes(commands)|
    ensures forall k | 0 <= k < |Changes(commands)| ::
      Changes(commands)[k] < |commands| && RememberAll(commands)[k] == commands[Changes(commands)[k]]
    ensures commands != [] ==>
      RememberAll(commands) != [] && RememberAll(commands)[|RememberAll(commands)| - 1] == commands[|commands| - 1]
  {
    if commands != [] {
      hide RememberAll, Changes;
      var n := |commands| - 1;
      OneMore(commands);
      HistoryIsChanges(commands[..n]);
    }
  }

  lemma {:induction false} NoNeighboursEqual(commands: seq<string>)
    ensures forall k | 0 < k < |RememberAll(commands)| :: RememberAll(commands)[k] != RememberAll(commands)[k - 1]
  {
    if commands != [] { NoNeighboursEqual(commands[..|commands| - 1]); }
  }

  class History {
    var slots: array<Entry>

    /** The strings before the terminator, which is the last slot. */
    ghost predicate Valid()
      reads this, slots
    {
      && slots.Length > 0 && slots[slots.Length - 1] == Null
      && forall k | 0 <= k < slots.Length - 1 :: slots[k].Str?
    }

    ghost function Contents(): seq<string>
      reads this, slots
      requires Valid()
    {
      seq(slots.Length - 1, k requires 0 <= k < slots.Length - 1 && Valid() reads this, slots => slots[k].text)
    }

    constructor ()
      ensures Valid() && fresh(slots) && Contents() == []
    {
      slots := new Entry[1](_ => Null);
    }

    /** AddToHistory: counts up to the terminator, then copies into a longer array. */
    method AddToHistory(command: string)
      requires Valid()
      modifies this
      ensures Valid() && (slots == old(slots) || fresh(slots))
      ensures Contents() == Remember(old(Contents()), command)
    {
      var size := 0;
      while slots[size] != Null
        invariant 0 <= size < slots.Length
        decreases slots.Length - size
      {
        size := size + 1;
      }
      size := size + 1;
      if size == 1 || slots[size - 2] != Str(command) {
        var newSlots := new Entry[size + 1](_ => Null);
        for i := 0 to size - 1
          invariant slots == old(slots) && slots[..] == old(slots[..]) && size == slots.Length
          invariant forall k | 0 <= k < i :: newSlots[k] == slots[k]
          invariant newSlots[size] == Null
        {
          newSlots[i] := slots[i];
        }
        newSlots[size - 1] := Str(command);
        slots := newSlots;
      }
    }
  }

  /** A session of commands leaves exactly the remembered ones. */
  method Session(commands: seq<string>) returns (history: History)
    ensures history.Valid() && history.Contents() == RememberAll(commands)
  {
    history := new History();
    for i := 0 to |commands|
      invariant fresh(history) && history.Valid() && history.Contents() == RememberAll(commands[..i])
    {
      assert commands[..i + 1][..i] == commands[..i];
      history.AddToHistory(commands[i]);
    }
    assert commands[..|commands|] == commands;
  }
}
