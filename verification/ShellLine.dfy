/** Reading a line, splitting it into tokens and remembering it: ReadLine, SplitCommand and
    AddToHistory of the HW3 shell.  A C string is the sequence of its characters before the
    terminating zero. */
module ShellLine {
  import opened Options

  const CHUNK: nat := 10   // CHAR_LENGTH_INTERVAL
  const SPACE := ' '

  // ---------------------------------------------------------------- tokens

  /** The length of the run of non-spaces at the start. */
  function WordEnd(s: string): (b: nat)
    ensures b <= |s| && (forall k | 0 <= k < b :: s[k] != SPACE) && (b < |s| ==> s[b] == SPACE)
  {
    if s == "" || s[0] == SPACE then 0 else 1 + WordEnd(s[1..])
  }

  /** What repeated strtok calls with a space return. */
  function Tokens(s: string): seq<string>
    decreases |s|
  {
    if s == "" then []
    else if s[0] == SPACE then Tokens(s[1..])
    else [s[..WordEnd(s)]] + Tokens(s[WordEnd(s)..])
  }

  /** s[a..b] is a run of non-spaces that cannot be made longer. */
  predicate MaximalRun(s: string, a: nat, b: nat) {
    && a < b <= |s| && (forall k | a <= k < b :: s[k] != SPACE)
    && (a == 0 || s[a - 1] == SPACE) && (b == |s| || s[b] == SPACE)
  }

  /** Where the tokens are. */
  function Runs(s: string, from: nat): seq<(nat, nat)>
    requires from <= |s|
    decreases |s| - from
  {
    if from == |s| then []
    else if s[from] == SPACE then Runs(s, from + 1)
    else var b := from + WordEnd(s[from..]); [(from, b)] + Runs(s, b)
  }

  lemma {:induction false} TokensAtRuns(s: string, from: nat)
    requires from <= |s|
    ensures |Tokens(s[from..])| == |Runs(s, from)|
    ensures forall k | 0 <= k < |Runs(s, from)| ::
      var run := Runs(s, from)[k]; from <= run.0 <= run.1 <= |s| && Tokens(s[from..])[k] == s[run.0..run.1]
    decreases |s| - from
  {
    if from < |s| {
      if s[from] == SPACE {
        assert s[from..][1..] == s[from + 1..];
        TokensAtRuns(s, from + 1);
      } else {
        var b := from + WordEnd(s[from..]);
        assert s[from..][b - from..] == s[b..] && s[from..][..b - from] == s[from..b];
        TokensAtRuns(s, b);
      }
    }
  }

  /** The runs listed are exactly the maximal runs, from left to right. */
  lemma {:induction false} RunsAreMaximal(s: string, from: nat)
    requires from <= |s| && (from == 0 || from == |s| || s[from] == SPACE || s[from - 1] == SPACE)
    ensures forall k | 0 <= k < |Runs(s, from)| ::
      var run := Runs(s, from)[k]; from <= run.0 && MaximalRun(s, run.0, run.1)
    ensures forall k, m | 0 <= k < m < |Runs(s, from)| :: Runs(s, from)[k].1 < Runs(s, from)[m].0
    ensures forall a: nat, b: nat | from <= a && MaximalRun(s, a, b) :: (a, b) in Runs(s, from)
    decreases |s| - from
  {
    if from < |s| {
      if s[from] == SPACE {
        RunsAreMaximal(s, from + 1);
      } else {
        var b := RunAt(s, from);
        RunsAreMaximal(s, b);
        FirstRun(s, from, b);
        hide WordEnd, MaximalRun, Runs;
      }
    }
  }

  lemma RunAt(s: string, from: nat) returns (b: nat)
    requires from < |s| && s[from] != SPACE && (from == 0 || s[from - 1] == SPACE)
    ensures from < b <= |s| && MaximalRun(s, from, b) && (b < |s| ==> s[b] == SPACE)
    ensures Runs(s, from) == [(from, b)] + Runs(s, b)
  {
    b := from + WordEnd(s[from..]);
    assert forall k | from <= k < b :: s[k] == s[from..][k - from];
    assert b < |s| ==> s[b] == s[from..][b - from];
  }

  lemma FirstRun(s: string, from: nat, b: nat)
    requires from < b <= |s| && MaximalRun(s, from, b)
    ensures forall a: nat, e: nat | from <= a < b && MaximalRun(s, a, e) :: a == from && e == b
  {}

  // ---------------------------------------------------------------- the rebuilt text

  function Rebuild(tokens: seq<string>): string {
    if tokens == [] then "" else tokens[0] + [SPACE] + Rebuild(tokens[1..])
  }

  predicate TokenOk(t: string) { t != "" && SPACE !in t }

  lemma {:induction false} RebuildAppend(tokens: seq<string>, t: string)
    ensures Rebuild(tokens + [t]) == Rebuild(tokens) + t + [SPACE]
  {
    if tokens == [] {
      assert (tokens + [t])[1..] == [];
    } else {
      assert (tokens + [t])[1..] == tokens[1..] + [t];
      RebuildAppend(tokens[1..], t);
    }
  }

  lemma {:induction false} TokensAreOk(s: string)
    ensures forall k | 0 <= k < |Tokens(s)| :: TokenOk(Tokens(s)[k])
    decreases |s|
  {
    if s != "" {
      if s[0] == SPACE { TokensAreOk(s[1..]); } else { TokensAreOk(s[WordEnd(s)..]); }
    }
  }

  lemma {:induction false} WordEndOf(t: string, rest: string)
    requires SPACE !in t
    ensures WordEnd(t + [SPACE] + rest) == |t|
  {
    if t != "" {
      assert (t + [SPACE] + rest)[1..] == t[1..] + [SPACE] + rest;
      WordEndOf(t[1..], rest);
    }
  }

  /** Splitting the rebuilt text gives the tokens it was built from. */
  lemma {:induction false} SplitOfRebuild(tokens: seq<string>)
    requires forall k | 0 <= k < |tokens| :: TokenOk(tokens[k])
    ensures Tokens(Rebuild(tokens)) == tokens
  {
    if tokens != [] {
      var t, rest := tokens[0], Rebuild(tokens[1..]);
      var s := t + [SPACE] + rest;
      assert TokenOk(t);
      WordEndOf(t, rest);
      assert s[..|t|] == t && s[|t|..] == [SPACE] + rest;
      assert ([SPACE] + rest)[1..] == rest;
      SplitOfRebuild(tokens[1..]);
    }
  }

  /** Splitting twice is splitting once. */
  lemma SplitIsStable(s: string)
    ensures Tokens(Rebuild(Tokens(s))) == Tokens(s)
  {
    TokensAreOk(s);
    SplitOfRebuild(Tokens(s));
  }

  /** The rebuilt text is at most one character longer than the line. */
  lemma {:induction false} RebuildLength(s: string)
    ensures |Rebuild(Tokens(s))| <= |s| + 1
    decreases |s|
  {
    if s != "" {
      if s[0] == SPACE {
        RebuildLength(s[1..]);
      } else {
        var b := WordEnd(s);
        if b < |s| { RebuildLength(s[b + 1..]); assert s[b..][1..] == s[b + 1..]; }
      }
    }
  }

  /** One call of strtok: skip the delimiters, then run to the next one. */
  method Strtok(command: string, at: nat) returns (found: bool, start: nat, end: nat)
    requires at <= |command|
    ensures at <= start <= end <= |command|
    ensures !found ==> Tokens(command[at..]) == []
    ensures found ==> start < end && Tokens(command[at..]) == [command[start..end]] + Tokens(command[end..])
  {
    start := at;
    while start < |command| && command[start] == SPACE
      invariant at <= start <= |command|
      invariant Tokens(command[start..]) == Tokens(command[at..])
    {
      SkipSpace(command, start);
      start := start + 1;
    }
    end := start;
    found := start < |command|;
    while end < |command| && command[end] != SPACE
      invariant start <= end <= |command|
      invariant forall k | start <= k < end :: command[k] != SPACE
      invariant found ==> end > start || command[end] != SPACE
    {
      end := end + 1;
    }
    if found { TakeWord(command, start, end); }
  }

  lemma SkipSpace(s: string, at: nat)
    requires at < |s| && s[at] == SPACE
    ensures Tokens(s[at..]) == Tokens(s[at + 1..])
  {
    assert s[at..][1..] == s[at + 1..];
  }

  lemma TakeWord(s: string, start: nat, end: nat)
    requires start < end <= |s| && (forall k | start <= k < end :: s[k] != SPACE) && (end < |s| ==> s[end] == SPACE)
    ensures Tokens(s[start..]) == [s[start..end]] + Tokens(s[end..])
  {
    var rest := s[start..];
    WordEndIs(rest, end - start);
    assert rest[..end - start] == s[start..end] && rest[end - start..] == s[end..];
  }

  lemma {:induction false} WordEndIs(s: string, b: nat)
    requires b <= |s| && (forall k | 0 <= k < b :: s[k] != SPACE) && (b < |s| ==> s[b] == SPACE)
    ensures WordEnd(s) == b
  {
    if b > 0 { WordEndIs(s[1..], b - 1); }
  }

  method SplitCommand(command: string) returns (list: seq<string>, rebuilt: string)
    ensures list == Tokens(command)
    ensures rebuilt == Rebuild(list)
  {
    hide Tokens, Rebuild;
    list := [];
    assert command[0..] == command;
    var found, start, end := Strtok(command, 0);
    while found
      invariant start <= end <= |command| && (found ==> start < end)
      invariant found ==> list + [command[start..end]] + Tokens(command[end..]) == Tokens(command)
      invariant !found ==> list == Tokens(command)
      decreases |command| - end, found
    {
      list := list + [command[start..end]];
      found, start, end := Strtok(command, end);
    }
    rebuilt := Recreate(list);
  }

  /** The loop that writes the tokens back, each followed by a space. */
  method Recreate(list: seq<string>) returns (rebuilt: string)
    ensures rebuilt == Rebuild(list)
  {
    rebuilt := "";
    for i := 0 to |list|
      invariant rebuilt == Rebuild(list[..i])
    {
      RebuildAppend(list[..i], list[i]);
      assert list[..i + 1] == list[..i] + [list[i]];
      rebuilt := rebuilt + list[i] + [SPACE];
    }
    assert list[..|list|] == list;
  }

  // ---------------------------------------------------------------- reading

  function Joined(chunks: seq<string>): string {
    if chunks == [] then "" else Joined(chunks[..|chunks| - 1]) + chunks[|chunks| - 1]
  }

  /** What successive reads deliver: up to ten characters each, something at first, until
      a read ends with a newline. */
  predicate Reads(chunks: seq<string>) {
    && chunks != [] && chunks[0] != ""
    && (forall k | 0 <= k < |chunks| :: |chunks[k]| <= 10)
    && (forall k | 0 <= k < |chunks| ::
          (chunks[k] != "" && chunks[k][|chunks[k]| - 1] == '\n') <==> k == |chunks| - 1)
  }

  /** The C string at the start of a buffer. */
  function CText(buffer: string): (text: string)
    ensures |text| <= |buffer| && text == buffer[..|text|]
    ensures '\0' !in text && (|text| < |buffer| ==> buffer[|text|] == '\0')
  {
    if buffer == "" || buffer[0] == '\0' then "" else [buffer[0]] + CText(buffer[1..])
  }

  /** What was read, without the newline that ended it. */
  function Typed(chunks: seq<string>): string {
    var all := Joined(chunks); if all == "" then "" else all[..|all| - 1]
  }

  predicate Blank(s: string) { forall k | 0 <= k < |s| :: s[k] == SPACE }

  /** ReadLine: no read overruns the buffer, and the buffer that is handed over has room for
      ten more characters than were read. */
  method ReadLine(chunks: seq<string>) returns (line: Option<string>, capacity: nat)
    requires Reads(chunks)
    ensures capacity == |Joined(chunks)| + 10 && |Typed(chunks)| + 1 == |Joined(chunks)|
    ensures line == if Blank(CText(Typed(chunks))) then None else Some(CText(Typed(chunks)))
  {
    hide Joined, CText, Reads;
    assert chunks != [] && Joined(chunks[..0]) == "" by { NoChunks(chunks); }
    capacity := CHUNK;
    var buffer := "";
    var continueRead, i := true, 0;
    while continueRead
      invariant 0 <= i <= |chunks| && (continueRead ==> i < |chunks|)
      invariant continueRead ==> buffer == Joined(chunks[..i]) && capacity == |buffer| + CHUNK
      invariant continueRead && i > 0 ==> buffer != "" && buffer[|buffer| - 1] != '\n'
      invariant !continueRead ==> buffer + "\n" == Joined(chunks) && capacity == |buffer| + 1 + CHUNK
      decreases |chunks| - i, continueRead
    {
      OneMoreChunk(chunks, i);
      assert |buffer| + |chunks[i]| <= capacity;
      buffer := buffer + chunks[i];
      capacity := |buffer| + CHUNK;
      i := i + 1;
      if buffer[|buffer| - 1] == '\n' {
        buffer := buffer[..|buffer| - 1];
        continueRead := false;
      }
    }
    assert Typed(chunks) == buffer;
    var command := CText(buffer);
    var status := false;
    for k := 0 to |command|
      invariant status <==> exists m | 0 <= m < k :: command[m] != SPACE
    {
      if command[k] != SPACE { status := true; }
    }
    line := if status then Some(command) else None;
  }

  lemma NoChunks(chunks: seq<string>)
    requires Reads(chunks)
    ensures chunks != [] && chunks[..0] == [] && Joined(chunks[..0]) == ""
  {}

  /** What one more read adds, and where the reading stops. */
  lemma OneMoreChunk(chunks: seq<string>, i: nat)
    requires Reads(chunks) && i < |chunks|
    ensures |chunks[i]| <= CHUNK && (i == 0 ==> chunks[i] != "")
    ensures Joined(chunks[..i + 1]) == Joined(chunks[..i]) + chunks[i]
    ensures i + 1 == |chunks| ==> chunks[..i + 1] == chunks
    ensures i + 1 == |chunks| <==> chunks[i] != "" && chunks[i][|chunks[i]| - 1] == '\n'
  {
    assert chunks[..i + 1][..i] == chunks[..i];
  }

  /** Reading a line and splitting it: the list holds its tokens, and the text that
      SplitCommand writes back over the line, with its terminating zero, fits the buffer
      that ReadLine grew for the line. */
  method ReadAndSplit(chunks: seq<string>)
    returns (line: Option<string>, capacity: nat, list: seq<string>, rebuilt: string)
    requires Reads(chunks)
    ensures list == Tokens(CText(Typed(chunks)))
    ensures line == None <==> list == []
    ensures capacity == |Joined(chunks)| + 10
    ensures line.Some? ==> rebuilt == Rebuild(list) && |rebuilt| + 1 <= capacity
  {
    line, capacity := ReadLine(chunks);
    list, rebuilt := [], "";
    if line.Some? {
      RebuildLength(line.value);
      list, rebuilt := SplitCommand(line.value);
    }
    BlankHasNoTokens(CText(Typed(chunks)));
  }

  lemma {:induction false} BlankHasNoTokens(s: string)
    ensures Tokens(s) == [] <==> Blank(s)
  {
    if s != "" && s[0] == SPACE {
      BlankHasNoTokens(s[1..]);
      assert Blank(s) <==> Blank(s[1..]) by { BlankTail(s); }
    }
  }

  lemma BlankTail(s: string)
    requires s != "" && s[0] == SPACE
    ensures Blank(s) <==> Blank(s[1..])
  {
    if Blank(s[1..]) {
      forall k | 0 <= k < |s| ensures s[k] == SPACE { if k > 0 { assert s[1..][k - 1] == s[k]; } }
    }
  }
}
