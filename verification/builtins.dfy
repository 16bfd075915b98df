/**
 * The shell's fixed table of built-in commands, the name lookup over it, and
 * the status codes of the built-ins that return.  Directory changes and the
 * current-directory query are operating-system calls; their answers are
 * parameters here.
 */
module Builtins {
  import opened Wrappers

  /** One row of the built-in table: the name typed and its help text. */
  datatype Entry = Entry(name: string, doc: string)

  const Table: seq<Entry> := [
    Entry("?", "show this help menu"),
    Entry("exit", "exit the command shell"),
    Entry("cd", "changes the current working directory"),
    Entry("pwd", "shows the current working directory"),
    Entry("wait", "waits for all background jobs have terminated")
  ]

  const HelpIndex := 0
  const ExitIndex := 1
  const CdIndex := 2
  const PwdIndex := 3
  const WaitIndex := 4

  /** The index of the table entry named `cmd`, or -1; a NULL name matches nothing. */
  function Lookup(cmd: Option<string>): (r: int)
    ensures -1 <= r < |Table|
    ensures r >= 0 ==> cmd == Some(Table[r].name)
    ensures r >= 0 ==> forall i :: 0 <= i < r ==> Table[i].name != cmd.value
    ensures r == -1 <==> cmd.None? || forall i :: 0 <= i < |Table| ==> Table[i].name != cmd.value
  {
    match cmd
    case None => -1
    case Some(c) => LookupFrom(c, 0)
  }

  /** The linear search of the lookup loop, from entry `i` on. */
  function LookupFrom(c: string, i: nat): (r: int)
    requires i <= |Table|
    ensures r == -1 || i <= r < |Table|
    ensures r >= 0 ==> Table[r].name == c && forall k :: i <= k < r ==> Table[k].name != c
    ensures r == -1 <==> forall k :: i <= k < |Table| ==> Table[k].name != c
    decreases |Table| - i
  {
    if i == |Table| then -1
    else if Table[i].name == c then i
    else LookupFrom(c, i + 1)
  }

  /** The names in the table are distinct, so looking up an entry's own name finds it. */
  lemma LookupFindsEachEntry(i: nat)
    requires i < |Table|
    ensures Lookup(Some(Table[i].name)) == i
  {
    var n := Table[i].name;
    assert forall k :: 0 <= k < |Table| && k != i ==> Table[k].name != n by {
      assert Table[0].name != Table[1].name && Table[0].name != Table[2].name;
      assert Table[0].name != Table[3].name && Table[0].name != Table[4].name;
      assert Table[1].name != Table[2].name && Table[1].name != Table[3].name;
      assert Table[1].name[0] != Table[4].name[0];
      assert Table[2].name != Table[3].name && Table[2].name != Table[4].name;
      assert Table[3].name != Table[4].name;
    }
  }

  /** Status of `cd`: 1 when no directory was given, otherwise 0 whether or not the
      directory change succeeded; `dir` is the directory the shell asks for. */
  function Cd(tokens: seq<string>, chdirSucceeds: bool): (r: (int, Option<string>))
    ensures r.0 == 1 <==> |tokens| < 2
    ensures r.0 == 0 <==> |tokens| >= 2
    ensures r.1.Some? <==> |tokens| >= 2
    ensures r.1.Some? ==> r.1.value == tokens[1]
  {
    if |tokens| < 2 then (1, None) else (0, Some(tokens[1]))
  }

  /** The status of `cd` does not depend on the outcome of the directory change. */
  lemma CdIgnoresChdir(tokens: seq<string>)
    ensures Cd(tokens, true) == Cd(tokens, false)
  {
  }

  /** `?` prints one line per table entry, in table order, and returns 1. */
  function Help(): (r: (int, seq<string>))
    ensures r.0 == 1
    ensures |r.1| == |Table|
    ensures forall i :: 0 <= i < |Table| ==> r.1[i] == Table[i].name + " - " + Table[i].doc
  {
    (1, HelpLines(Table))
  }

  function HelpLines(entries: seq<Entry>): (lines: seq<string>)
    ensures |lines| == |entries|
    ensures forall i :: 0 <= i < |entries| ==> lines[i] == entries[i].name + " - " + entries[i].doc
  {
    if |entries| == 0 then []
    else [entries[0].name + " - " + entries[0].doc] + HelpLines(entries[1..])
  }

  /** `pwd` returns 1 and prints nothing when the directory cannot be queried;
      otherwise it prints the directory and returns 0. */
  function Pwd(cwd: Option<string>): (r: (int, seq<string>))
    ensures r.0 == 1 <==> cwd.None?
    ensures r.0 == 0 <==> cwd.Some?
    ensures cwd.None? ==> r.1 == []
    ensures cwd.Some? ==> r.1 == [cwd.value]
  {
    match cwd
    case None => (1, [])
    case Some(d) => (0, [d])
  }
}
