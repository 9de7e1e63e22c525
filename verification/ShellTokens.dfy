/** Tokens of the HW3 shell.  A command list is an array of strings that ends with a null
    entry; reading the entry at its length gives that terminator, and nothing may be read
    after it. */
module ShellTokens {

  datatype Kind = Command | Pipe | Redirector | Unknown
  datatype Entry = Null | Str(text: string)

  const EXIT := "exit"
  const CD := "cd"
  const WC := "wc"
  const LEFT := "<"
  const RIGHT := ">"
  const PIPELINE := "|"

  /** ValidateToken: the kind of a token. */
  function KindOf(t: string): Kind {
    if t == "cat" || t == CD || t == EXIT || t == "help" || t == "ls" || t == "pwd" || t == WC || t == "history"
    then Command
    else if t == LEFT || t == RIGHT then Redirector
    else if t == PIPELINE then Pipe
    else Unknown
  }

  /** One entry of the array; the precondition is the bound of the array. */
  function At(list: seq<string>, i: nat): Entry
    requires i <= |list|
  {
    if i < |list| then Str(list[i]) else Null
  }

  /** The words and marks that the shell knows, spelled out. */
  lemma KindsOfMarks(t: string)
    ensures KindOf(t) == Command <==> t in {"cat", "cd", "exit", "help", "ls", "pwd", "wc", "history"}
    ensures KindOf(t) == Redirector <==> t in {"<", ">"}
    ensures KindOf(t) == Pipe <==> t == "|"
  {}
}
