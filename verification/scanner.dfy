/**
 * The external-command token scanner of the shell's main loop.
 *
 * The scanner walks the token sequence once, left to right, keeping two
 * redirection counters (`out` and `in` in the shell, each 0, 1 or 2), the two
 * redirection targets, a background flag and the argument cursor `j`.  It is
 * modelled here as a fold over prefixes of the token sequence (`Run`), together
 * with a method that mirrors the loop and the argv array of `numargs + 1` slots.
 *
 * The partner of the fold is a declarative reading of the same token sequence
 * (`IsOperand`, `IsRedirect`, `IsBackgroundMarker`, `IsArgument`) and the
 * command it describes (`Reference`); `ScanMatchesReference` proves they agree.
 */
module Scanner {
  import opened Wrappers

  const InputOp: string := "<"
  const OutputOp: string := ">"
  const BackgroundOp: string := "&"

  /** Progress of one redirection: the shell's counter values 0, 1 and 2. */
  datatype Redir =
    | NoRedir   // 0: no operator seen
    | Pending   // 1: operator seen, its operand not yet taken
    | Taken     // 2: operand taken

  /** The scanner's variables between two tokens. */
  datatype ScanState = ScanState(
    argv: seq<string>,          // argv[0..j)
    outState: Redir,            // out
    outTo: Option<string>,      // outto
    inState: Redir,             // in
    inFrom: Option<string>,     // infrom
    bg: bool)                   // bg

  /** What the launcher receives for one external command line. */
  datatype Command = Command(
    program: Option<string>,    // token 0, NULL on an empty line
    argv: seq<string>,
    outTarget: Option<string>,  // applied only when `out == 2`
    inSource: Option<string>,   // applied only when `in == 2`
    background: bool)

  const Start := ScanState([], NoRedir, None, NoRedir, None, false)

  predicate IsOperatorToken(t: string) {
    t == InputOp || t == OutputOp || t == BackgroundOp
  }

  /** One iteration of the scanning loop, on a token that is examined.  A pending
      output operand is taken first, then a pending input operand, whatever the
      token is; only a token in neither operand nor operator position is
      appended to argv, and only `&` in operator position stops the scan. */
  function Consume(s: ScanState, t: string): (r: ScanState)
    ensures s.outState == Pending ==> r == s.(outTo := Some(t), outState := Taken)
    ensures s.outState != Pending && s.inState == Pending ==> r == s.(inFrom := Some(t), inState := Taken)
    ensures s.outState != Pending && s.inState != Pending && t == InputOp ==> r == s.(inState := Pending)
    ensures s.outState != Pending && s.inState != Pending && t == OutputOp ==> r == s.(outState := Pending)
    ensures s.outState != Pending && s.inState != Pending && t == BackgroundOp ==> r == s.(bg := true)
    ensures r.argv != s.argv <==> s.outState != Pending && s.inState != Pending && !IsOperatorToken(t)
    ensures r.argv != s.argv ==> r == s.(argv := s.argv + [t])
    ensures r.bg <==> s.bg || (s.outState != Pending && s.inState != Pending && t == BackgroundOp)
  {
    if s.outState == Pending then s.(outTo := Some(t), outState := Taken)
    else if s.inState == Pending then s.(inFrom := Some(t), inState := Taken)
    else if t == InputOp then s.(inState := Pending)
    else if t == OutputOp then s.(outState := Pending)
    else if t == BackgroundOp then s.(bg := true)
    else s.(argv := s.argv + [t])
  }

  /** The scanner's state after the loop has looked at `ts[..n]`; once `bg` is set
      the loop has broken out and later tokens change nothing. */
  function Run(ts: seq<string>, n: nat): (s: ScanState)
    requires n <= |ts|
    ensures |s.argv| <= n
  {
    if n == 0 then Start
    else
      var s := Run(ts, n - 1);
      if s.bg then s else Consume(s, ts[n - 1])
  }

  /** The command the launcher acts on: a redirection counts only when complete. */
  function Finish(program: Option<string>, s: ScanState): Command {
    Command(program, s.argv,
            if s.outState == Taken then s.outTo else None,
            if s.inState == Taken then s.inFrom else None,
            s.bg)
  }

  function ProgramName(ts: seq<string>): Option<string> {
    if |ts| == 0 then None else Some(ts[0])
  }

  /** The command built from a whole token sequence: at most one argument per
      token, and a background job only when some token is `&`. */
  function Scan(ts: seq<string>): (c: Command)
    ensures |c.argv| <= |ts|
    ensures c.background ==> BackgroundOp in ts
  {
    BackgroundNeedsMarker(ts, |ts|);
    assert ts[..|ts|] == ts;
    Finish(ProgramName(ts), Run(ts, |ts|))
  }

  /** The scan stops only on an `&` token. */
  lemma {:induction false} BackgroundNeedsMarker(ts: seq<string>, n: nat)
    requires n <= |ts|
    ensures Run(ts, n).bg ==> BackgroundOp in ts[..n]
  {
    if n > 0 {
      BackgroundNeedsMarker(ts, n - 1);
      assert ts[..n] == ts[..n - 1] + [ts[n - 1]];
    }
  }

  /** The scanner is neither waiting for an operand nor stopped at `&`. */
  ghost predicate Ready(ts: seq<string>) {
    var s := Run(ts, |ts|);
    !s.bg && s.outState != Pending && s.inState != Pending
  }

  // ---------------------------------------------------------------------------
  // The declarative reading of a token sequence

  /** Token `i` directly follows a redirection operator, so it is that operator's operand. */
  predicate IsOperand(ts: seq<string>, i: nat)
    requires i < |ts|
    decreases i, 0
  {
    i > 0 && IsRedirect(ts, i - 1)
  }

  /** Token `i` is `<` or `>` in operator position. */
  predicate IsRedirect(ts: seq<string>, i: nat)
    requires i < |ts|
    decreases i, 1
  {
    (ts[i] == InputOp || ts[i] == OutputOp) && !IsOperand(ts, i)
  }

  /** Token `i` is `&` in operator position. */
  predicate IsBackgroundMarker(ts: seq<string>, i: nat)
    requires i < |ts|
  {
    ts[i] == BackgroundOp && !IsOperand(ts, i)
  }

  /** Token `i` is neither an operator nor an operand. */
  predicate IsArgument(ts: seq<string>, i: nat)
    requires i < |ts|
  {
    !IsOperand(ts, i) && !IsOperatorToken(ts[i])
  }

  /** The position of the first background marker in `ts[..n]`, or `n` if there is none. */
  function FirstMarker(ts: seq<string>, n: nat): (k: nat)
    requires n <= |ts|
    ensures k <= n
    ensures forall i :: 0 <= i < k ==> !IsBackgroundMarker(ts, i)
    ensures k < n ==> IsBackgroundMarker(ts, k)
  {
    if n == 0 then 0
    else
      var k := FirstMarker(ts, n - 1);
      if k < n - 1 then k
      else if IsBackgroundMarker(ts, n - 1) then n - 1
      else n
  }

  /** The arguments among `ts[..n]`, in order. */
  function Arguments(ts: seq<string>, n: nat): seq<string>
    requires n <= |ts|
  {
    if n == 0 then []
    else Arguments(ts, n - 1) + (if IsArgument(ts, n - 1) then [ts[n - 1]] else [])
  }

  /** The position of the last redirection operator `op` in `ts[..n]`. */
  function LastRedirect(ts: seq<string>, n: nat, op: string): (r: Option<nat>)
    requires n <= |ts|
    ensures r.Some? ==> r.value < n && IsRedirect(ts, r.value) && ts[r.value] == op
    ensures r.Some? ==> forall i :: r.value < i < n ==> !(IsRedirect(ts, i) && ts[i] == op)
    ensures r.None? ==> forall i :: 0 <= i < n ==> !(IsRedirect(ts, i) && ts[i] == op)
  {
    if n == 0 then None
    else if IsRedirect(ts, n - 1) && ts[n - 1] == op then Some(n - 1)
    else LastRedirect(ts, n - 1, op)
  }

  /** The target of redirection `op` within `ts[..n]`: the operand of the last such
      operator, provided that operand lies inside `ts[..n]`. */
  function Target(ts: seq<string>, n: nat, op: string): Option<string>
    requires n <= |ts|
  {
    match LastRedirect(ts, n, op)
    case None => None
    case Some(k) => if k + 1 < n then Some(ts[k + 1]) else None
  }

  /** The command a token sequence describes, read declaratively. */
  function Reference(ts: seq<string>): Command {
    var k := FirstMarker(ts, |ts|);
    Command(ProgramName(ts), Arguments(ts, k), Target(ts, k, OutputOp), Target(ts, k, InputOp), k < |ts|)
  }

  // ---------------------------------------------------------------------------
  // The fold agrees with the declarative reading

  /** How a redirection counter and its target relate to the operators in `ts[..n]`. */
  ghost predicate TracksRedirect(ts: seq<string>, n: nat, op: string, st: Redir, target: Option<string>)
    requires n <= |ts|
  {
    match LastRedirect(ts, n, op)
    case None => st == NoRedir
    case Some(k) => if k + 1 < n then st == Taken && target == Some(ts[k + 1]) else st == Pending
  }

  ghost predicate Agrees(ts: seq<string>, n: nat, s: ScanState)
    requires n <= |ts|
  {
    && !s.bg
    && s.argv == Arguments(ts, n)
    && TracksRedirect(ts, n, OutputOp, s.outState, s.outTo)
    && TracksRedirect(ts, n, InputOp, s.inState, s.inFrom)
  }

  /** Before the first background marker, the scanner's state is exactly what the
      declarative reading of the prefix says. */
  lemma {:induction false} RunAgrees(ts: seq<string>, n: nat)
    requires n <= |ts| && FirstMarker(ts, n) == n
    ensures Agrees(ts, n, Run(ts, n))
  {
    if n > 0 {
      var m := n - 1;
      assert FirstMarker(ts, m) == m;
      RunAgrees(ts, m);
      var s := Run(ts, m);
      var t := ts[m];
      assert !IsBackgroundMarker(ts, m);
      if s.outState == Pending {
        assert LastRedirect(ts, m, OutputOp) == Some(m - 1);
        assert IsOperand(ts, m);
        assert LastRedirect(ts, m, InputOp) != Some(m - 1);
      } else if s.inState == Pending {
        assert LastRedirect(ts, m, InputOp) == Some(m - 1);
        assert IsOperand(ts, m);
        assert LastRedirect(ts, m, OutputOp) != Some(m - 1);
      } else {
        assert !IsOperand(ts, m);
      }
    }
  }

  /** Once the scanner has stopped, it stays stopped and unchanged. */
  lemma {:induction false} RunFrozen(ts: seq<string>, a: nat, b: nat)
    requires a <= b <= |ts| && Run(ts, a).bg
    ensures Run(ts, b) == Run(ts, a)
    decreases b
  {
    if b > a {
      RunFrozen(ts, a, b - 1);
    }
  }

  /** After the first background marker `k`, the state is the one before it, stopped. */
  lemma RunAfterMarker(ts: seq<string>, n: nat)
    requires n <= |ts| && FirstMarker(ts, n) < n
    ensures Run(ts, n) == Run(ts, FirstMarker(ts, n)).(bg := true)
  {
    var k := FirstMarker(ts, n);
    assert FirstMarker(ts, k) == k;
    RunAgrees(ts, k);
    var s := Run(ts, k);
    assert IsBackgroundMarker(ts, k);
    assert s.outState != Pending && s.inState != Pending;
    assert Run(ts, k + 1) == s.(bg := true);
    RunFrozen(ts, k + 1, n);
  }

  /** The scanner builds exactly the command the declarative reading describes:
      argv is the in-order list of non-operator, non-operand tokens before the first
      background marker; each redirection target is the operand of the last complete
      operator of its kind; the job is in the background iff a marker was found. */
  lemma ScanMatchesReference(ts: seq<string>)
    ensures Scan(ts) == Reference(ts)
  {
    var k := FirstMarker(ts, |ts|);
    if k < |ts| {
      RunAfterMarker(ts, |ts|);
      assert FirstMarker(ts, k) == k;
      RunAgrees(ts, k);
    } else {
      RunAgrees(ts, |ts|);
    }
  }

  // ---------------------------------------------------------------------------
  // Consequences

  /** The scanner's state after `n` tokens depends only on those tokens. */
  lemma {:induction false} RunPrefix(ts: seq<string>, more: seq<string>, n: nat)
    requires n <= |ts|
    ensures Run(ts + more, n) == Run(ts, n)
  {
    if n > 0 {
      RunPrefix(ts, more, n - 1);
      assert (ts + more)[n - 1] == ts[n - 1];
    }
  }

  /** A background marker stops the scan: whatever follows it, later redirections
      included, leaves the command unchanged. */
  lemma MarkerEndsScan(ts: seq<string>, rest: seq<string>)
    requires Scan(ts).background
    ensures Scan(ts + rest) == Scan(ts)
  {
    RunPrefix(ts, rest, |ts|);
    RunFrozen(ts + rest, |ts|, |ts + rest|);
    assert |ts| > 0;
    assert (ts + rest)[0] == ts[0];
  }

  /** The token after a redirection operator is always taken as its operand, even
      when it is itself `<`, `>` or `&`, and the latest complete redirection of a
      kind replaces any earlier one. */
  lemma RedirectTakesNextToken(ts: seq<string>, op: string, t: string)
    requires |ts| > 0 && Ready(ts)
    requires op == InputOp || op == OutputOp
    ensures var c := Scan(ts + [op, t]);
      if op == OutputOp then c == Scan(ts).(outTarget := Some(t))
      else c == Scan(ts).(inSource := Some(t))
  {
    var us := ts + [op, t];
    RunPrefix(ts, [op, t], |ts|);
    assert us[|ts|] == op && us[|ts| + 1] == t && us[0] == ts[0];
    assert Run(us, |us|) == Consume(Consume(Run(ts, |ts|), op), t);
  }

  /** A trailing `>` or `<` with no operand leaves that redirection incomplete, so
      none of that kind is applied, even if an earlier one was complete. */
  lemma TrailingRedirectCancels(ts: seq<string>, op: string)
    requires |ts| > 0 && Ready(ts)
    requires op == InputOp || op == OutputOp
    ensures var c := Scan(ts + [op]);
      if op == OutputOp then c == Scan(ts).(outTarget := None)
      else c == Scan(ts).(inSource := None)
  {
    var us := ts + [op];
    RunPrefix(ts, [op], |ts|);
    assert us[|ts|] == op && us[0] == ts[0];
    assert Run(us, |us|) == Consume(Run(ts, |ts|), op);
  }

  /** The argument vector never holds an operator token. */
  lemma {:induction false} ArgvHasNoOperators(ts: seq<string>, n: nat)
    requires n <= |ts|
    ensures forall x :: x in Run(ts, n).argv ==> !IsOperatorToken(x)
  {
    if n > 0 {
      ArgvHasNoOperators(ts, n - 1);
    }
  }

  /** Arguments are only ever appended. */
  lemma {:induction false} ArgvGrows(ts: seq<string>, a: nat, b: nat)
    requires a <= b <= |ts|
    ensures Run(ts, a).argv <= Run(ts, b).argv
    decreases b
  {
    if a < b {
      ArgvGrows(ts, a, b - 1);
    }
  }

  /** When the first token is not an operator, it is also `argv[0]`. */
  lemma ProgramHeadsArgv(ts: seq<string>)
    requires |ts| > 0 && !IsOperatorToken(ts[0])
    ensures |Scan(ts).argv| > 0 && Scan(ts).argv[0] == ts[0]
  {
    ArgvGrows(ts, 1, |ts|);
  }

  /** `prog > &` redirects output to a file named `&` and runs in the foreground. */
  lemma OperandBeforeMarker()
    ensures Scan(["prog", ">", "&"]) == Command(Some("prog"), ["prog"], Some("&"), None, false)
  {
    RedirectTakesNextToken(["prog"], OutputOp, BackgroundOp);
    assert ["prog"] + [OutputOp, BackgroundOp] == ["prog", ">", "&"];
  }

  // ---------------------------------------------------------------------------
  // The loop as written, with its argv array

  /** The scanning loop of the shell's main function.  `argv` is allocated with
      `numargs + 1` slots and `j` is the argument cursor; every write, including the
      terminating NULL at `argv[j]`, is proved to stay inside the allocation.
      `args` holds the strings written to `argv[0..j)`. */
  method ScanTokens(ts: seq<string>) returns (cmd: Command, j: nat)
    ensures cmd == Scan(ts)
    ensures j == |cmd.argv| && j <= |ts|
  {
    var numargs := |ts|;
    var argv := new Option<string>[numargs + 1](_ => None);
    j := 0;
    var outState, inState, bg := NoRedir, NoRedir, false;
    var args: seq<string> := [];
    var outTo: Option<string> := None;
    var inFrom: Option<string> := None;
    var i := 0;
    while i < numargs
      invariant 0 <= j <= i <= numargs
      invariant !bg
      invariant j == |args|
      invariant forall k :: 0 <= k < j ==> argv[k] == Some(args[k])
      invariant ScanState(args, outState, outTo, inState, inFrom, bg) == Run(ts, i)
    {
      var temp := ts[i];
      if outState == Pending {
        outTo := Some(temp);
        outState := Taken;
      } else if inState == Pending {
        inFrom := Some(temp);
        inState := Taken;
      } else if temp == InputOp {
        inState := Pending;
      } else if temp == OutputOp {
        outState := Pending;
      } else if temp == BackgroundOp {
        bg := true;
        RunFrozen(ts, i + 1, numargs);
        break;
      } else {
        argv[j] := Some(temp);
        args := args + [temp];
        j := j + 1;
      }
      i := i + 1;
    }
    argv[j] := None;
    var state := ScanState(args, outState, outTo, inState, inFrom, bg);
    cmd := Finish(if numargs == 0 then None else Some(ts[0]), state);
  }
}
