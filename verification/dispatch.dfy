/**
 * One pass of the shell's read–dispatch loop: token 0 is looked up in the
 * built-in table; a built-in runs in the shell itself, anything else is scanned
 * into a command and handed to a forked child.  The answers of the operating
 * system for the line (the current directory, the success of `chdir`, the
 * result of `fork`) are parameters.
 */
module Dispatch {
  import opened Wrappers
  import Builtins
  import Scanner
  import ExecPath
  import Jobs

  /** What the operating system answers while one line is processed. */
  datatype Env = Env(cwd: Option<string>, chdirSucceeds: bool, forkResult: int)

  /** What a line did, when the shell goes on to the next one. */
  datatype Ran =
    | RanBuiltin(index: nat, status: int, output: seq<string>, waited: seq<int>)
    | Spawned(cmd: Scanner.Command, pid: int)
    | ForkFailed(cmd: Scanner.Command)

  datatype Outcome = Continue(jobs: Jobs.JobState, ran: Ran) | ShellExit(status: int)

  /** A fork answers -1 on failure and the child's pid (positive) in the parent. */
  predicate ForkAnswer(cur: int) {
    cur == -1 || cur > 0
  }

  /** The built-in at table index `fundex`, run in the shell with the whole token
      sequence.  Only `exit` ends the shell; no built-in changes the job state. */
  function RunBuiltin(j: Jobs.JobState, fundex: nat, tokens: seq<string>, env: Env): (r: Outcome)
    requires fundex < |Builtins.Table|
    ensures r.ShellExit? <==> fundex == Builtins.ExitIndex
    ensures r.ShellExit? ==> r.status == 0
    ensures r.Continue? ==> r.jobs == j && r.ran.RanBuiltin? && r.ran.index == fundex
    ensures r.Continue? && fundex == Builtins.HelpIndex ==> (r.ran.status, r.ran.output) == Builtins.Help()
    ensures r.Continue? && fundex == Builtins.CdIndex ==>
      r.ran.status == Builtins.Cd(tokens, env.chdirSucceeds).0 && r.ran.output == []
    ensures r.Continue? && fundex != Builtins.WaitIndex ==> r.ran.waited == []
    ensures r.Continue? && fundex == Builtins.PwdIndex ==> (r.ran.status, r.ran.output) == Builtins.Pwd(env.cwd)
    ensures r.Continue? && fundex == Builtins.WaitIndex ==>
      r.ran.status == 0 && r.ran.waited == Jobs.Elements(j.bglist) && r.ran.output == []
  {
    if fundex == Builtins.HelpIndex then
      var (status, lines) := Builtins.Help();
      Continue(j, RanBuiltin(fundex, status, lines, []))
    else if fundex == Builtins.ExitIndex then
      ShellExit(0)
    else if fundex == Builtins.CdIndex then
      Continue(j, RanBuiltin(fundex, Builtins.Cd(tokens, env.chdirSucceeds).0, [], []))
    else if fundex == Builtins.PwdIndex then
      var (status, lines) := Builtins.Pwd(env.cwd);
      Continue(j, RanBuiltin(fundex, status, lines, []))
    else
      Continue(j, RanBuiltin(fundex, 0, [], Jobs.Elements(j.bglist)))
  }

  /** One line, as written.  Any non-zero fork answer reaches the parent's
      bookkeeping, so a failed fork is recorded too (see `Jobs.RecordChildAsWritten`). */
  function ProcessLine(j: Jobs.JobState, tokens: seq<string>, env: Env): (r: Outcome)
    requires ForkAnswer(env.forkResult)
    ensures r.ShellExit? <==> |tokens| > 0 && tokens[0] == "exit"
    ensures var fundex := Builtins.Lookup(Scanner.ProgramName(tokens));
      fundex >= 0 ==> r == RunBuiltin(j, fundex, tokens, env)
    ensures Builtins.Lookup(Scanner.ProgramName(tokens)) == -1 ==> r.Continue? && !r.ran.RanBuiltin?
    ensures r.Continue? && !r.ran.RanBuiltin? ==>
      && Builtins.Lookup(Scanner.ProgramName(tokens)) == -1
      && r.ran.cmd == Scanner.Scan(tokens)
      && r.jobs == Jobs.RecordChildAsWritten(j, env.forkResult, r.ran.cmd.background)
      && (r.ran.Spawned? <==> env.forkResult > 0)
    ensures r.Continue? && r.ran.Spawned? ==> r.ran.pid == env.forkResult
    ensures Jobs.Valid(j) && env.forkResult > 0 && r.Continue? ==> Jobs.Valid(r.jobs)
  {
    var fundex := Builtins.Lookup(Scanner.ProgramName(tokens));
    if fundex >= 0 then
      assert fundex == Builtins.ExitIndex <==> tokens[0] == "exit" by {
        Builtins.LookupFindsEachEntry(Builtins.ExitIndex);
      }
      RunBuiltin(j, fundex, tokens, env)
    else
      assert |tokens| > 0 ==> tokens[0] != "exit" by {
        Builtins.LookupFindsEachEntry(Builtins.ExitIndex);
      }
      var cmd := Scanner.Scan(tokens);
      var jobs := Jobs.RecordChildAsWritten(j, env.forkResult, cmd.background);
      if env.forkResult < 0 then Continue(jobs, ForkFailed(cmd))
      else Continue(jobs, Spawned(cmd, env.forkResult))
  }

  /** One line with the failed fork kept out of the bookkeeping: the command is
      abandoned and nothing is recorded (see `Jobs.RecordChild`). */
  function ProcessLineIntended(j: Jobs.JobState, tokens: seq<string>, env: Env): (r: Outcome)
    requires ForkAnswer(env.forkResult)
    ensures env.forkResult > 0 || Builtins.Lookup(Scanner.ProgramName(tokens)) >= 0 ==>
      r == ProcessLine(j, tokens, env)
    ensures r.Continue? && r.ran.ForkFailed? ==> r.jobs == j
    ensures env.forkResult < 0 && Builtins.Lookup(Scanner.ProgramName(tokens)) == -1 ==>
      r.Continue? && r.ran.ForkFailed? && r.ran.cmd == Scanner.Scan(tokens) && r.jobs == j
    ensures Jobs.Valid(j) && r.Continue? ==> Jobs.Valid(r.jobs)
  {
    var r := ProcessLine(j, tokens, env);
    if r.Continue? && !r.ran.RanBuiltin? then
      Continue(Jobs.RecordChild(j, env.forkResult, r.ran.cmd.background), r.ran)
    else r
  }

  // ---------------------------------------------------------------------------
  // Sessions of several lines

  predicate IsExitLine(tokens: seq<string>) {
    |tokens| > 0 && tokens[0] == "exit"
  }

  /** Every line of a session gets a real fork answer, and none of them is `exit`. */
  predicate WellFormedSession(lines: seq<seq<string>>, envs: seq<Env>) {
    && |lines| == |envs|
    && (forall i :: 0 <= i < |envs| ==> ForkAnswer(envs[i].forkResult))
    && (forall i :: 0 <= i < |lines| ==> !IsExitLine(lines[i]))
  }

  /** The job state after the lines of a session, processed in order from the start. */
  function Session(lines: seq<seq<string>>, envs: seq<Env>): Jobs.JobState
    requires WellFormedSession(lines, envs)
  {
    if |lines| == 0 then Jobs.Initial
    else
      var n := |lines| - 1;
      assert WellFormedSession(lines[..n], envs[..n]);
      ProcessLine(Session(lines[..n], envs[..n]), lines[n], envs[n]).jobs
  }

  /** The external commands of a session, in order, with the pid each got. */
  function Launches(lines: seq<seq<string>>, envs: seq<Env>): (h: seq<Jobs.Launch>)
    requires |lines| == |envs|
    requires forall i :: 0 <= i < |envs| ==> envs[i].forkResult > 0
    ensures forall i :: 0 <= i < |h| ==> h[i].pid > 0
  {
    if |lines| == 0 then []
    else
      var n := |lines| - 1;
      Launches(lines[..n], envs[..n]) +
        (if Builtins.Lookup(Scanner.ProgramName(lines[n])) == -1
         then [Jobs.Launch(envs[n].forkResult, Scanner.Scan(lines[n]).background)]
         else [])
  }

  /** Line by line, the shell keeps exactly the bookkeeping of its launches: when
      every fork succeeds, the job state after a session is the replay of its
      external commands, built-ins contributing nothing. */
  lemma {:induction false} SessionIsReplay(lines: seq<seq<string>>, envs: seq<Env>)
    requires WellFormedSession(lines, envs)
    requires forall i :: 0 <= i < |envs| ==> envs[i].forkResult > 0
    ensures Session(lines, envs) == Jobs.Replay(Launches(lines, envs))
  {
    if |lines| > 0 {
      var n := |lines| - 1;
      assert WellFormedSession(lines[..n], envs[..n]);
      SessionIsReplay(lines[..n], envs[..n]);
      var h := Launches(lines[..n], envs[..n]);
      if Builtins.Lookup(Scanner.ProgramName(lines[n])) == -1 {
        var l := Jobs.Launch(envs[n].forkResult, Scanner.Scan(lines[n]).background);
        assert Launches(lines, envs) == h + [l];
        assert (h + [l])[..|h|] == h;
      } else {
        assert Launches(lines, envs) == h;
      }
    }
  }

  /** Hence after any session whose forks all succeed, SIGINT targets the group of
      the last foreground command, and `wait` would wait for every background
      command, newest first. */
  lemma SessionState(lines: seq<seq<string>>, envs: seq<Env>)
    requires WellFormedSession(lines, envs)
    requires forall i :: 0 <= i < |envs| ==> envs[i].forkResult > 0
    ensures Session(lines, envs).fgpid == Jobs.LastForeground(Launches(lines, envs))
    ensures Jobs.Elements(Session(lines, envs).bglist) ==
      Jobs.Reverse(Jobs.BackgroundPids(Launches(lines, envs)))
  {
    SessionIsReplay(lines, envs);
    Jobs.ReplayState(Launches(lines, envs));
  }

  /** `prog &` followed by `wait`: the shell goes on without blocking, and `wait`
      then waits for the new child first and for the older background children
      after it; the foreground slot is not touched. */
  lemma BackgroundThenWait(j: Jobs.JobState, prog: string, pid: int, env: Env)
    requires pid > 0 && ForkAnswer(env.forkResult)
    requires Builtins.Lookup(Some(prog)) == -1 && !Scanner.IsOperatorToken(prog)
    ensures var first := ProcessLine(j, [prog, "&"], Env(env.cwd, env.chdirSucceeds, pid));
      && first.Continue? && first.ran.Spawned? && first.ran.cmd.background
      && first.jobs.fgpid == j.fgpid
      && var second := ProcessLine(first.jobs, ["wait"], env);
         second.Continue? && second.ran.waited == [pid] + Jobs.Elements(j.bglist)
  {
    var ts := [prog, "&"];
    assert Scanner.Run(ts, 1) == Scanner.Start.(argv := [prog]);
    assert Scanner.Run(ts, 2).bg;
    assert Builtins.Lookup(Some("wait")) == Builtins.WaitIndex by {
      Builtins.LookupFindsEachEntry(Builtins.WaitIndex);
    }
  }

  /** After a foreground job is launched, SIGINT targets its process group; a later
      built-in line leaves that target in place, even though the foreground job
      has long been waited for. */
  lemma ForegroundSlotPersists(j: Jobs.JobState, prog: string, pid: int, later: seq<string>, env: Env)
    requires pid > 0 && ForkAnswer(env.forkResult)
    requires Builtins.Lookup(Some(prog)) == -1 && !Scanner.IsOperatorToken(prog)
    requires |later| > 0 && Builtins.Lookup(Some(later[0])) >= 0 && later[0] != "exit"
    ensures var first := ProcessLine(j, [prog], Env(env.cwd, env.chdirSucceeds, pid));
      && first.Continue? && Jobs.Interrupt(first.jobs) == Some(pid)
      && var second := ProcessLine(first.jobs, later, env);
         second.Continue? && Jobs.Interrupt(second.jobs) == Some(pid)
  {
    var ts := [prog];
    assert Scanner.Run(ts, 1) == Scanner.Start.(argv := [prog]);
  }

  /** An empty line is not a built-in, so the shell forks a child for it, whose
      program name is NULL. */
  lemma EmptyLineForks(j: Jobs.JobState, env: Env)
    requires env.forkResult > 0
    ensures var r := ProcessLine(j, [], env);
      r.Continue? && r.ran.Spawned? && r.ran.cmd.program.None? && r.jobs.fgpid == env.forkResult
  {
  }

  // ---------------------------------------------------------------------------
  // The child's side of a launch

  /** The steps a child takes, in order, when every `execve` fails. */
  datatype ChildStep =
    | RestoreInterrupt          // SIGINT back to the disposition the shell found
    | OwnProcessGroup           // setpgrp()
    | StdoutTo(file: string)    // freopen(file, "w", stdout)
    | StdinFrom(file: string)   // open(file, O_RDONLY) and dup2 onto 0
    | Exec(image: string)       // execve(image, argv, env)
    | ExitWith(status: int)     // exit(status)

  predicate IsRedirection(step: ChildStep) {
    step.StdoutTo? || step.StdinFrom?
  }

  /** The redirections the child applies: exactly the complete ones, each once, output first. */
  function Redirections(cmd: Scanner.Command): (r: seq<ChildStep>)
    ensures |r| == (if cmd.outTarget.Some? then 1 else 0) + (if cmd.inSource.Some? then 1 else 0)
    ensures forall x :: x in r ==> IsRedirection(x)
    ensures forall f :: StdoutTo(f) in r <==> cmd.outTarget == Some(f)
    ensures forall f :: StdinFrom(f) in r <==> cmd.inSource == Some(f)
    ensures cmd.outTarget.Some? && cmd.inSource.Some? ==>
      r == [StdoutTo(cmd.outTarget.value), StdinFrom(cmd.inSource.value)]
  {
    (if cmd.outTarget.Some? then [StdoutTo(cmd.outTarget.value)] else []) +
    (if cmd.inSource.Some? then [StdinFrom(cmd.inSource.value)] else [])
  }

  function Execs(images: seq<string>): (r: seq<ChildStep>)
    ensures |r| == |images|
    ensures forall i :: 0 <= i < |images| ==> r[i] == Exec(images[i])
    ensures forall x :: x in r ==> x.Exec?
  {
    if |images| == 0 then [] else [Exec(images[0])] + Execs(images[1..])
  }

  /** The child's program: restore SIGINT, take its own process group, apply the
      complete redirections (output first), try every candidate, exit with 0. */
  function ChildSteps(cmd: Scanner.Command, path: string): (steps: seq<ChildStep>)
    requires cmd.program.Some? && ExecPath.HasSearchDir(path)
    ensures var n := |Redirections(cmd)|;
      && |steps| >= 4 + n
      && steps[0] == RestoreInterrupt && steps[1] == OwnProcessGroup
      && steps[2 .. 2 + n] == Redirections(cmd)
      && steps[2 + n .. |steps| - 1] == Execs(ExecPath.Candidates(cmd.program.value, path))
      && steps[|steps| - 1] == ExitWith(0)
  {
    var redirs := Redirections(cmd);
    var execs := Execs(ExecPath.Candidates(cmd.program.value, path));
    var setup := [RestoreInterrupt, OwnProcessGroup] + redirs;
    var steps := setup + execs + [ExitWith(0)];
    assert setup[2..] == redirs;
    assert steps[..|setup|] == setup;
    assert steps[|setup| .. |steps| - 1] == execs;
    steps
  }

  /** The child is in its own process group before it opens a redirection file or
      tries any program, and every redirection precedes every exec attempt. */
  lemma GroupBeforeIo(cmd: Scanner.Command, path: string)
    requires cmd.program.Some? && ExecPath.HasSearchDir(path)
    ensures var steps := ChildSteps(cmd, path);
      forall k :: 0 <= k < |steps| && IsRedirection(steps[k]) ==> 1 < k < 2 + |Redirections(cmd)|
    ensures var steps := ChildSteps(cmd, path);
      forall i :: 0 <= i < |steps| && steps[i].Exec? ==> 1 + |Redirections(cmd)| < i
  {
    var steps := ChildSteps(cmd, path);
    var redirs := Redirections(cmd);
    LayoutOrder(steps, redirs, steps[2 + |redirs| .. |steps| - 1]);
  }

  /** Position facts for any step list laid out as set-up, redirections, execs, exit. */
  lemma LayoutOrder(steps: seq<ChildStep>, redirs: seq<ChildStep>, execs: seq<ChildStep>)
    requires |steps| >= 3 + |redirs|
    requires steps[0] == RestoreInterrupt && steps[1] == OwnProcessGroup
    requires steps[2 .. 2 + |redirs|] == redirs && steps[|steps| - 1] == ExitWith(0)
    requires execs == steps[2 + |redirs| .. |steps| - 1]
    requires forall x :: x in redirs ==> IsRedirection(x)
    requires forall x :: x in execs ==> x.Exec?
    ensures forall k :: 0 <= k < |steps| && IsRedirection(steps[k]) ==> 1 < k < 2 + |redirs|
    ensures forall i :: 0 <= i < |steps| && steps[i].Exec? ==> 1 + |redirs| < i
  {
    var n := |redirs|;
    assert forall i :: 2 <= i < 2 + n ==> steps[i] == redirs[i - 2] && redirs[i - 2] in redirs;
    assert forall i :: 2 + n <= i < |steps| - 1 ==> steps[i] == execs[i - 2 - n] && execs[i - 2 - n] in execs;
  }
}
