/** The validator of the HW3 shell accepts exactly the lines of a grammar. */
module ShellGrammar {
  import opened ShellTokens

  // ---------------------------------------------------------------- the grammar

  /** A command with its arguments; `piped` says whether a pipe stands before it. */
  datatype Segment = Segment(piped: bool, command: string, args: seq<string>)

  /** What may follow the last segment: nothing, or a redirector and one more token. */
  datatype Target = NoTarget | Target(mark: string, name: string)

  predicate SegmentOk(s: Segment) {
    && KindOf(s.command) == Command && s.command != "exit"
    && forall k | 0 <= k < |s.args| :: KindOf(s.args[k]) == Unknown
  }

  /** Two segments are joined by a pipe, or by nothing if the left one has an argument. */
  predicate Joined(leftHasArgs: bool, segments: seq<Segment>)
    decreases |segments|
  {
    segments == [] ||
    (SegmentOk(segments[0]) && (segments[0].piped || leftHasArgs)
     && Joined(segments[0].args != [], segments[1..]))
  }

  predicate TargetOk(t: Target) {
    t.Target? ==>
      KindOf(t.mark) == Redirector && (KindOf(t.name) == Unknown || (KindOf(t.name) == Command && t.name != "exit"))
  }

  function RenderSegment(s: Segment): seq<string> {
    (if s.piped then ["|"] else []) + [s.command] + s.args
  }

  function RenderSegments(segments: seq<Segment>): seq<string> {
    if segments == [] then [] else RenderSegment(segments[0]) + RenderSegments(segments[1..])
  }

  function RenderTarget(t: Target): seq<string> {
    match t case NoTarget => [] case Target(mark, name) => [mark, name]
  }

  predicate NoPipeThenLeft(list: seq<string>) {
    forall i | 0 <= i < |list| - 2 && list[i] == "|" :: list[i + 2] != "<"
  }

  ghost predicate IsLine(list: seq<string>, segments: seq<Segment>, target: Target) {
    && segments != [] && !segments[0].piped && SegmentOk(segments[0])
    && Joined(segments[0].args != [], segments[1..]) && TargetOk(target)
    && list == RenderSegments(segments) + RenderTarget(target)
  }

  ghost predicate InGrammar(list: seq<string>) {
    || list == []
    || list == ["exit"]
    || (NoPipeThenLeft(list) && exists segments, target :: IsLine(list, segments, target))
  }

  // ---------------------------------------------------------------- the validator's loop, as a function

  /** The first index from i on that does not hold an argument. */
  function ArgsEnd(list: seq<string>, i: nat): (j: nat)
    requires i <= |list|
    ensures i <= j <= |list|
    ensures forall k | i <= k < j :: KindOf(list[k]) == Unknown
    ensures j < |list| ==> KindOf(list[j]) != Unknown
    decreases |list| - i
  {
    if i < |list| && KindOf(list[i]) == Unknown then ArgsEnd(list, i + 1) else i
  }

  /** What the validator answers when its loop stands before index i. */
  predicate Accepts(list: seq<string>, i: nat)
    requires i <= |list|
    decreases |list| - i
  {
    if i == |list| then true
    else
      var kind, last := KindOf(list[i]), i + 1 == |list|;
      match kind
      case Pipe =>
        && i > 0 && !last && KindOf(list[i + 1]) == Command
        && (i + 2 < |list| ==> list[i + 2] != LEFT)
        && Accepts(list, i + 1)
      case Redirector => i > 0 && !last && i + 2 == |list| && Accepts(list, i + 1)
      case Command =>
        && (last || KindOf(list[i + 1]) != Command)
        && (list[i] == EXIT ==> i == 0 && last)
        && Accepts(list, ArgsEnd(list, i + 1))
      case Unknown => last && i > 0 && Accepts(list, i + 1)
  }

  // ---------------------------------------------------------------- accepted lists are lines

  /** The loop stands behind a complete segment. */
  predicate AfterSegment(list: seq<string>, i: nat) {
    && 0 < i <= |list|
    && (KindOf(list[i - 1]) == Unknown || KindOf(list[i - 1]) == Command)
    && (i < |list| ==> KindOf(list[i]) != Unknown)
    && (i < |list| && KindOf(list[i]) == Command ==> KindOf(list[i - 1]) == Unknown)
  }

  predicate HasArgs(list: seq<string>, i: nat)
    requires 0 < i <= |list|
  {
    KindOf(list[i - 1]) == Unknown
  }

  ghost predicate NoPipeThenLeftFrom(list: seq<string>, i: nat) {
    forall k | i <= k < |list| - 2 && list[k] == PIPELINE :: list[k + 2] != LEFT
  }

  /** Reading one segment whose command is at index k. */
  lemma SegmentAt(list: seq<string>, k: nat, piped: bool) returns (s: Segment, j: nat)
    requires k < |list| && KindOf(list[k]) == Command && list[k] != EXIT && Accepts(list, k)
    requires piped ==> k > 0 && list[k - 1] == PIPELINE
    ensures SegmentOk(s) && s.piped == piped && k < j <= |list| && AfterSegment(list, j) && Accepts(list, j)
    ensures HasArgs(list, j) <==> s.args != []
    ensures RenderSegment(s) == list[if piped then k - 1 else k..j]
    ensures forall m | k <= m < j :: list[m] != PIPELINE
  {
    hide KindOf;
    KindsOfMarks(list[k]);
    j := ArgsEnd(list, k + 1);
    forall m | k <= m < j ensures list[m] != PIPELINE { KindsOfMarks(list[m]); }
    s := Segment(piped, list[k], list[k + 1..j]);
    SegmentText(list, k, j, piped);
    assert s.args != [] <==> k + 1 < j;
    assert k + 1 < j ==> KindOf(list[j - 1]) == Unknown;
  }

  lemma SegmentText(list: seq<string>, k: nat, j: nat, piped: bool)
    requires k < j <= |list| && (piped ==> k > 0 && list[k - 1] == PIPELINE)
    ensures RenderSegment(Segment(piped, list[k], list[k + 1..j])) == list[if piped then k - 1 else k..j]
  {
    assert list[k..j] == [list[k]] + list[k + 1..j];
    if piped { assert list[k - 1..j] == [PIPELINE] + list[k..j]; }
  }

  /** One more segment in front of a parsed tail. */
  lemma Prepend(list: seq<string>, i: nat, j: nat, s: Segment, rest: seq<Segment>, target: Target)
    requires i <= j <= |list| && RenderSegment(s) == list[i..j]
    requires list[j..] == RenderSegments(rest) + RenderTarget(target)
    ensures list[i..] == RenderSegments([s] + rest) + RenderTarget(target)
  {
    assert list[i..] == list[i..j] + list[j..];
    assert ([s] + rest)[0] == s && ([s] + rest)[1..] == rest;
    assert RenderSegments([s] + rest) == RenderSegment(s) + RenderSegments(rest);
  }

  /** What the validator has checked where another segment starts. */
  lemma NextSegment(list: seq<string>, i: nat)
    requires AfterSegment(list, i) && Accepts(list, i) && i < |list| && KindOf(list[i]) != Redirector
    ensures var piped := KindOf(list[i]) == Pipe; var k := if piped then i + 1 else i;
      && k < |list| && KindOf(list[k]) == Command && list[k] != EXIT && Accepts(list, k)
      && (piped ==> list[i] == PIPELINE && (i + 2 < |list| ==> list[i + 2] != LEFT))
  {
    hide KindOf;
    KindsOfMarks(list[i]);
  }

  lemma {:induction false} TailIsParsed(list: seq<string>, i: nat) returns (segments: seq<Segment>, target: Target)
    requires AfterSegment(list, i) && Accepts(list, i)
    ensures Joined(HasArgs(list, i), segments) && TargetOk(target)
    ensures list[i..] == RenderSegments(segments) + RenderTarget(target)
    ensures NoPipeThenLeftFrom(list, i)
    decreases |list| - i
  {
    hide KindOf, RenderSegment, Accepts;
    segments, target := [], NoTarget;
    if i < |list| {
      if KindOf(list[i]) == Redirector {
        target := TargetAt(list, i);
      } else {
        NextSegment(list, i);
        var piped := KindOf(list[i]) == Pipe;
        var s, j := SegmentAt(list, if piped then i + 1 else i, piped);
        var rest, t := TailIsParsed(list, j);
        Prepend(list, i, j, s, rest, t);
        segments, target := [s] + rest, t;
      }
    }
  }

  lemma TargetAt(list: seq<string>, i: nat) returns (target: Target)
    requires 0 < i < |list| && KindOf(list[i]) == Redirector && Accepts(list, i)
    ensures target.Target? && TargetOk(target) && list[i..] == [] + RenderTarget(target) && |list| == i + 2
  {
    hide KindOf;
    target := Target(list[i], list[i + 1]);
    KindsOfMarks(list[i + 1]);
    assert Accepts(list, i + 1);
    assert list[i..] == [list[i], list[i + 1]];
  }

  /** Whatever the validator accepts is in the grammar. */
  lemma AcceptedIsLine(list: seq<string>)
    requires Accepts(list, 0)
    ensures InGrammar(list)
  {
    hide KindOf;
    if list != [] && list != [EXIT] {
      assert list[0] == EXIT ==> list == [EXIT];
      var s, j := SegmentAt(list, 0, false);
      var rest, target := TailIsParsed(list, j);
      assert list == list[..j] + list[j..];
      assert [s] + rest != [] && ([s] + rest)[0] == s && ([s] + rest)[1..] == rest;
      assert IsLine(list, [s] + rest, target);
    }
  }

  // ---------------------------------------------------------------- lines are accepted

  lemma {:induction false} ArgsEndAt(list: seq<string>, i: nat, j: nat)
    requires i <= j <= |list| && (forall k | i <= k < j :: KindOf(list[k]) == Unknown)
    requires j < |list| ==> KindOf(list[j]) != Unknown
    ensures ArgsEnd(list, i) == j
    decreases j - i
  {
    if i < j { ArgsEndAt(list, i + 1, j); }
  }

  /** The first token of what follows a segment. */
  lemma TailStart(leftHasArgs: bool, segments: seq<Segment>, target: Target)
    requires Joined(leftHasArgs, segments) && TargetOk(target)
    ensures var tail := RenderSegments(segments) + RenderTarget(target);
      tail != [] ==> KindOf(tail[0]) != Unknown && (KindOf(tail[0]) == Command ==> leftHasArgs)
  {
    if segments != [] {
      assert (RenderSegments(segments) + RenderTarget(target))[0] == RenderSegment(segments[0])[0];
    }
  }

  lemma {:induction false} TailIsAccepted(list: seq<string>, i: nat, leftHasArgs: bool,
                                          segments: seq<Segment>, target: Target)
    requires 0 < i <= |list| && NoPipeThenLeft(list)
    requires Joined(leftHasArgs, segments) && TargetOk(target)
    requires list[i..] == RenderSegments(segments) + RenderTarget(target)
    ensures Accepts(list, i)
    decreases |segments|, 1
  {
    if segments == [] {
      if target.Target? {
        assert list[i..] == [target.mark, target.name];
        assert list[i] == target.mark && list[i + 1] == target.name && |list| == i + 2;
        assert Accepts(list, i + 2);
        assert Accepts(list, i + 1);
      }
    } else {
      var s, rest := segments[0], segments[1..];
      var k := if s.piped then i + 1 else i;
      var j := k + 1 + |s.args|;
      var tail := RenderSegments(rest) + RenderTarget(target);
      assert list[i..] == RenderSegment(s) + tail;
      SegmentIsAccepted(list, i, s, tail, rest, target);
    }
  }

  /** Where the parts of a rendered segment are. */
  lemma SegmentPlaces(list: seq<string>, i: nat, s: Segment, tail: seq<string>)
    requires i <= |list| && list[i..] == RenderSegment(s) + tail
    ensures var k := if s.piped then i + 1 else i; var j := k + 1 + |s.args|;
      && j <= |list| && list[k] == s.command && list[k + 1..j] == s.args && list[j..] == tail
      && (s.piped ==> list[i] == PIPELINE)
  {
    var k := if s.piped then i + 1 else i;
    var j := k + 1 + |s.args|;
    var shown := RenderSegment(s);
    assert |shown| == j - i;
    assert list[i..][..j - i] == shown && list[i..][j - i..] == tail;
    assert list[k] == shown[k - i];
    assert list[k + 1..j] == shown[k + 1 - i..];
    if s.piped { assert list[i] == shown[0]; }
  }

  /** A segment rendered at index i, followed by an accepted tail, is accepted. */
  lemma SegmentIsAccepted(list: seq<string>, i: nat, s: Segment, tail: seq<string>, rest: seq<Segment>, target: Target)
    requires i <= |list| && NoPipeThenLeft(list) && SegmentOk(s) && (i == 0 ==> !s.piped)
    requires Joined(s.args != [], rest) && TargetOk(target)
    requires tail == RenderSegments(rest) + RenderTarget(target)
    requires list[i..] == RenderSegment(s) + tail
    ensures Accepts(list, i)
    decreases |rest| + 1, 0
  {
    hide KindOf, RenderSegment, RenderSegments, RenderTarget, Joined;
    var k := if s.piped then i + 1 else i;
    var j := k + 1 + |s.args|;
    SegmentPlaces(list, i, s, tail);
    TailStart(s.args != [], rest, target);
    TailIsAccepted(list, j, s.args != [], rest, target);
    CommandIsAccepted(list, k, j, s);
    if s.piped { KindsOfMarks(list[i]); }
  }

  lemma CommandIsAccepted(list: seq<string>, k: nat, j: nat, s: Segment)
    requires k < j <= |list| && SegmentOk(s) && list[k] == s.command && list[k + 1..j] == s.args
    requires j < |list| ==> KindOf(list[j]) != Unknown && (KindOf(list[j]) == Command ==> s.args != [])
    requires Accepts(list, j)
    ensures Accepts(list, k)
  {
    hide KindOf;
    assert forall m | k + 1 <= m < j :: list[m] == s.args[m - k - 1];
    ArgsEndAt(list, k + 1, j);
  }

  lemma ExitIsAccepted()
    ensures Accepts([EXIT], 0)
  {
    assert Accepts([EXIT], 1);
    assert ArgsEnd([EXIT], 1) == 1;
  }

  lemma ParsedIsAccepted(list: seq<string>, segments: seq<Segment>, target: Target)
    requires NoPipeThenLeft(list) && IsLine(list, segments, target)
    ensures Accepts(list, 0)
  {
    hide KindOf, SegmentOk, Joined, TargetOk, NoPipeThenLeft;
    var rest := segments[1..];
    assert list[0..] == list == RenderSegment(segments[0]) + (RenderSegments(rest) + RenderTarget(target));
    SegmentIsAccepted(list, 0, segments[0], RenderSegments(rest) + RenderTarget(target), rest, target);
  }

  /** Whatever is in the grammar is accepted. */
  lemma LineIsAccepted(list: seq<string>)
    requires InGrammar(list)
    ensures Accepts(list, 0)
  {
    hide IsLine, NoPipeThenLeft;
    if list == [EXIT] {
      ExitIsAccepted();
    } else if list != [] {
      var segments, target :| IsLine(list, segments, target);
      ParsedIsAccepted(list, segments, target);
    }
  }

  // ---------------------------------------------------------------- the validator

  /** ValidateCommandList.  Every entry it looks at is inside the array, terminator included. */
  method ValidateCommandList(list: seq<string>) returns (ok: bool)
    ensures ok <==> InGrammar(list)
  {
    hide KindOf, InGrammar;
    if Accepts(list, 0) { AcceptedIsLine(list); }
    if InGrammar(list) { LineIsAccepted(list); }
    var i: int := 0;
    while At(list, i) != Null
      invariant 0 <= i <= |list|
      invariant Accepts(list, 0) <==> Accepts(list, i)
      decreases |list| - i
    {
      var current := KindOf(At(list, i).text);
      var nextEntry := At(list, i + 1);
      if (i == 0 || nextEntry == Null) && (current == Pipe || current == Redirector) {
        return false;
      } else if current == Redirector && nextEntry != Null && At(list, i + 2) != Null {
        return false;
      } else if current == Pipe && (nextEntry == Null || KindOf(nextEntry.text) != Command) {
        return false;
      } else if current == Pipe && At(list, i + 2) != Null && At(list, i + 2).text == LEFT {
        return false;
      } else if current == Command {
        if nextEntry != Null && KindOf(nextEntry.text) == Command {
          return false;
        } else if At(list, i).text == EXIT && (i - 1 >= 0 || nextEntry != Null) {
          return false;
        } else {
          ghost var start := i;
          while At(list, i + 1) != Null && KindOf(At(list, i + 1).text) == Unknown
            invariant start <= i < |list|
            invariant ArgsEnd(list, start + 1) == ArgsEnd(list, i + 1)
            decreases |list| - i
          {
            i := i + 1;
          }
        }
      } else if current == Unknown && (nextEntry != Null || i - 1 < 0) {
        return false;
      }
      i := i + 1;
    }
    return true;
  }
}
