/** The scan at the head of ExecuteCommands, and the branch it leads to, for the lists that
    the validator lets through. */
module ShellScan {
  import opened Options
  import opened ShellTokens
  import opened ShellGrammar

  /** Indices of the commands among the first `upto` tokens, in order. */
  function Commands(list: seq<string>, upto: nat): seq<nat>
    requires upto <= |list|
  {
    if upto == 0 then []
    else Commands(list, upto - 1) + (if KindOf(list[upto - 1]) == Command then [upto - 1] else [])
  }

  lemma {:induction false} CommandsAre(list: seq<string>, upto: nat)
    requires upto <= |list|
    ensures var c := Commands(list, upto);
      && (forall k | 0 <= k < |c| :: c[k] < upto && KindOf(list[c[k]]) == Command)
      && (forall k, m | 0 <= k < m < |c| :: c[k] < c[m])
      && (forall i | 0 <= i < upto && KindOf(list[i]) == Command :: i in c)
  {
    hide KindOf;
    if upto > 0 {
      CommandsAre(list, upto - 1);
      var c, before, last := Commands(list, upto), Commands(list, upto - 1), upto - 1;
      assert KindOf(list[last]) == Command ==> c == before + [last] && c[|before|] == last;
      assert KindOf(list[last]) != Command ==> c == before;
      forall i | 0 <= i < upto && KindOf(list[i]) == Command ensures i in c {
        if i < last { assert i in before; }
      }
    }
  }

  /** The index of the first `>`, or the length of the list. */
  ghost predicate FirstRight(list: seq<string>, end: nat) {
    && end <= |list|
    && (forall i | 0 <= i < end :: list[i] != ">")
    && (end < |list| ==> list[end] == ">")
  }

  datatype Branch = ExitShell | ChangeDirectory | SingleCommand | PipedCommands

  /** An accepted list that is not empty starts with a command. */
  lemma AcceptedStart(list: seq<string>)
    requires InGrammar(list) && list != []
    ensures KindOf(list[0]) == Command
  {
    if list != [EXIT] {
      var segments, target :| IsLine(list, segments, target);
      assert list[0] == RenderSegment(segments[0])[0];
    }
  }

  /** The scan.  `secondLast` starts unassigned, as in the program. */
  method Scan(list: seq<string>)
    returns (commandSize: nat, lastCommand: nat, secondLast: Option<nat>, redirectorRight: bool, branch: Branch,
             ghost end: nat)
    requires InGrammar(list) && list != []
    ensures FirstRight(list, end) && (redirectorRight <==> end < |list|)
    // The number of commands before the first `>`, and the greatest two
    ensures var c := Commands(list, end);
      && commandSize == |c| >= 1 && lastCommand == c[|c| - 1] && lastCommand < end
      && secondLast == Some(if |c| >= 2 then c[|c| - 2] else 0)
    // The pipe branch always has a second command to start
    ensures branch == PipedCommands ==>
        commandSize >= 2 && secondLast.Some? && secondLast.value < lastCommand
    ensures branch == PipedCommands <==>
        list[0] != "exit" && list[0] != "cd" && (commandSize == 2 || (commandSize > 2 && list[lastCommand] == "wc"))
    ensures branch == ExitShell <==> list == ["exit"]
    ensures branch == ChangeDirectory <==> list[0] == "cd"
  {
    hide KindOf, InGrammar;
    AcceptedStart(list);
    KindsOfMarks(list[0]);
    commandSize, lastCommand, secondLast, redirectorRight := 0, 0, None, false;
    var i := 0;
    while At(list, i) != Null && !redirectorRight
      invariant 0 <= i <= |list| && (forall k | 0 <= k < i :: list[k] != RIGHT)
      invariant redirectorRight <==> 0 < i < |list| && list[i] == RIGHT
      invariant commandSize == |Commands(list, i)|
      invariant i > 0 ==> commandSize > 0
      invariant commandSize > 0 ==> lastCommand == Commands(list, i)[commandSize - 1]
      invariant commandSize == 0 ==> lastCommand == 0
      invariant commandSize == 1 ==> secondLast == Some(0)
      invariant commandSize > 1 ==> secondLast == Some(Commands(list, i)[commandSize - 2])
      decreases |list| - i
    {
      var token := KindOf(At(list, i).text);
      i := i + 1;
      if token == Command {
        commandSize := commandSize + 1;
        secondLast := Some(lastCommand);
        lastCommand := i - 1;
      }
      if At(list, i) != Null && At(list, i).text == RIGHT {
        redirectorRight := true;
      }
    }
    end := i;
    CommandsAre(list, end);
    if list[0] == EXIT {
      branch := ExitShell;
      ExitAlone(list);
    } else if list[0] == CD {
      branch := ChangeDirectory;
    } else if commandSize == 1 || (commandSize > 2 && list[lastCommand] != WC) {
      branch := SingleCommand;
    } else {
      branch := PipedCommands;
    }
  }

  lemma ExitAlone(list: seq<string>)
    requires InGrammar(list) && list != [] && list[0] == EXIT
    ensures list == [EXIT]
  {}
}
