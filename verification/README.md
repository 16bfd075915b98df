# A verified model of the CTerminal shell's execution core

The shell reads a line, has it tokenized, and looks up token 0 in a fixed table
of five built-ins (`?`, `exit`, `cd`, `pwd`, `wait`). Any other line is an
external command. The parent scans the tokens into an argument vector and finds
the `<` / `>` redirection targets and the `&` background marker. It then forks.
The child restores SIGINT, takes its own process group and applies the
redirections. It tries `execve` on the program name as given, then on
`dir/prog` for each directory of `PATH`. The parent puts the child in the
foreground slot `fgpid` and waits for it, or pushes it on the background list
`bglist`. The SIGINT handler forwards the signal to process group `fgpid`, and
the `wait` built-in walks `bglist`.

The model keeps the pure decisions in this core and proves properties about them.
Processes, signals and the terminal are left to the operating system. Whatever
they answer (the result of `fork`, the current directory, which paths `execve`
accepts) is a parameter.

| module | file | models |
|---|---|---|
| `Wrappers` | `wrappers.dfy` | `Option`, standing in for NULL pointers |
| `Builtins` | `builtins.dfy` | the built-in table, `lookup`, and the status codes of `cd`, `?` and `pwd` |
| `Scanner` | `scanner.dfy` | the token-scanning loop, as a fold (`Run`) and as the loop itself (`ScanTokens`), plus a declarative reading of the same tokens (`Reference`) |
| `ExecPath` | `exec_path.dfy` | `strtok` over `PATH`, the exec candidates and the search loop, and how the child ends |
| `Jobs` | `jobs.dfy` | the foreground slot, the background list, the SIGINT decision and the `wait` walk |
| `Dispatch` | `dispatch.dfy` | one pass of the read–dispatch loop, sessions of several lines, and the order of the child's steps |

Quirks of the code, kept as written:
- `cd` returns 0 whenever a directory was given, whether or not `chdir` succeeds.
- A child whose every `execve` fails exits with status 0, not a failure status.
- `fgpid` is never cleared after the foreground job has been waited for. SIGINT at a
  later prompt therefore still targets that job's process group.
- `wait` frees the list nodes but does not reset `bglist`. In the model the list is
  unchanged after `wait`.
- The program name is token 0 even when that token is an operator. An empty line
  is not a built-in, so it forks a child whose program name is NULL.
- A failed `fork` still reaches the parent's bookkeeping (see "## Findings").
  `Dispatch.ProcessLine` models that. `Dispatch.ProcessLineIntended` is the same
  line with the failed fork left out of the bookkeeping.

## Model

| member | source | states |
|---|---|---|
| Builtins.Lookup | shell.c:110-116 | -1 for a NULL name; otherwise the least table index whose name equals the argument, or -1 when no entry matches; the result lies in [-1, 5) |
| Builtins.LookupFindsEachEntry | shell.c:58-64 | the five names are distinct, so looking up any entry's own name returns that entry's index |
| Builtins.Cd | shell.c:75-84 | status 1 exactly when fewer than two tokens were given, else 0; the directory requested is token 1 |
| Builtins.CdIgnoresChdir | shell.c:82-83 | the status of `cd` is the same whether the directory change succeeds or fails |
| Builtins.Help | shell.c:86-91 | prints one "name - doc" line per table entry in table order and returns 1 |
| Builtins.Pwd | shell.c:66-73 | status 1 with no output when the directory cannot be queried, otherwise prints the directory and returns 0 |
| Scanner.Consume | shell.c:198-215 | one loop iteration: a pending output operand is taken first, then a pending input operand, whatever the token is; otherwise `<` or `>` marks that redirection pending and `&` sets the background flag, each changing nothing else; argv grows, by exactly that token, iff the token is in neither operand nor operator position; only an operator-position `&` stops the scan |
| Scanner.Run | shell.c:196-216 | the state after the loop has examined a prefix; the argument cursor never exceeds the number of tokens examined |
| Scanner.Scan | shell.c:188-236 | the command built from a whole line: at most one argument per token, and a background job only when some token is `&` |
| Scanner.ScanTokens | shell.c:188-217 | the loop with its argv array of numargs+1 slots builds the same command as the fold; every write, the NULL terminator included, stays within the allocation (j <= numargs) |
| Scanner.RunAgrees | shell.c:196-216 | before the first background marker, the loop's argv and out/in counters are exactly those of the declarative reading of the prefix, and, where a counter is 2 (taken), so is its target |
| Scanner.RunAfterMarker | shell.c:208-211 | after the first `&` in operator position the state is the one just before it, with bg set |
| Scanner.ScanMatchesReference | shell.c:196-236 | argv is the in-order list of tokens that are neither operators nor operands, up to the first `&` in operator position; each redirection target is the operand of the last operator of its kind, and none if that operator has no operand; bg is set iff such an `&` exists |
| Scanner.MarkerEndsScan | shell.c:208-211 | once `&` has stopped the scan, appending any tokens, redirections included, leaves the command unchanged |
| Scanner.RedirectTakesNextToken | shell.c:198-207 | the token after `<` or `>` becomes that redirection's target whatever it is, even `<`, `>` or `&`, and replaces any earlier target of that kind |
| Scanner.TrailingRedirectCancels | shell.c:198-236 | a final `<` or `>` with no operand leaves that counter at 1, so no redirection of that kind is applied even if an earlier one was complete |
| Scanner.ArgvHasNoOperators | shell.c:204-215 | argv never contains `<`, `>` or `&` |
| Scanner.ProgramHeadsArgv | shell.c:188-215 | when token 0 is not an operator it is also argv[0] |
| Scanner.OperandBeforeMarker | shell.c:198-211 | `prog > &` sends output to a file named `&` and runs in the foreground |
| ExecPath.NextToken | shell.c:238-244 | one `strtok(.., ":")` call yields NULL exactly when only colons are left, and otherwise a non-empty, colon-free token, with the string left to scan shorter |
| ExecPath.NextTokenPosition | shell.c:238-244 | the token starts right after the leading colons and runs to the next colon or the end, and scanning resumes just past that colon |
| ExecPath.Strtok | shell.c:238-250 | every token successive `strtok` calls return is non-empty and colon-free |
| ExecPath.JoinFields | shell.c:238-244 | cutting PATH at every colon loses nothing: joining the fields with colons gives PATH back |
| ExecPath.StrtokIsNonEmptyFields | shell.c:238-250 | the directories `strtok` yields are exactly the non-empty colon-separated fields of PATH, in order |
| ExecPath.Candidates | shell.c:237-251 | the paths tried are the literal program name, then field + "/" + prog for each non-empty PATH field in order, each once |
| ExecPath.ExecAttempts | shell.c:237-251 | the search loop as written, with the first candidate built before the loop and the break on a NULL token, tries exactly those candidates |
| ExecPath.FirstRunnable | shell.c:237-251 | finds the first candidate `execve` accepts, with no accepted candidate before it, or reports that none is accepted |
| ExecPath.ChildResult | shell.c:237-253 | the child runs the first candidate `execve` accepts, with no accepted candidate before it, or exits with status 0 exactly when no candidate is accepted |
| Jobs.RecordChildAsWritten | shell.c:219-271 | any non-zero fork result reaches the parent branch; foreground sets fgpid to it, background pushes it on the head of bglist (for -1, only if the second free of argv at line 256 returns) |
| Jobs.ForkFailureIsRecorded | shell.c:219-225 | if the second free of argv returns, a failed fork (-1) is recorded: SIGINT is then aimed at group -1, or -1 heads the background list |
| Jobs.RecordChild | shell.c:255-271 | a foreground child occupies fgpid and leaves the list alone; a background child is pushed on the head of the list and leaves fgpid alone; as the corrected bookkeeping of the finding below (the code as written records -1 too, see Jobs.RecordChildAsWritten), a failed fork records nothing; recorded pids stay positive |
| Jobs.Interrupt | shell.c:144-149 | the handler does nothing while fgpid is 0 and otherwise targets process group fgpid |
| Jobs.CmdWait | shell.c:98-108 | `wait` waits for every pid on the list exactly once, from the head, and returns 0 |
| Jobs.ReplayState | shell.c:259-271 | after any history of launches, fgpid is the most recent foreground child and the list holds every background child, newest first |
| Jobs.WaitOrder | shell.c:98-106 | `wait` visits every background child exactly once: the pids it waits for are, as a multiset, the pids of the background launches |
| Jobs.InterruptTarget | shell.c:144-149 | SIGINT goes to the group of the last foreground launch, even after that job has ended, and to nobody when only background jobs were launched |
| Dispatch.RunBuiltin | shell.c:181-182 | a built-in runs in the shell with the whole token list: `exit` ends the shell with 0; `?`, `cd` and `pwd` give the status and output of their handlers (`cd` prints nothing); only `wait` waits for anything; `wait` prints nothing and returns 0 after waiting for the list's pids from the head; none changes the job state |
| Dispatch.ProcessLine | shell.c:174-273 | `exit` ends the shell; a line whose token 0 is in the table runs that built-in; any other line is scanned, and every non-zero fork answer, -1 included, is recorded as written, as foreground or background; the child is reported spawned iff the fork succeeded; positive pids keep the state valid |
| Dispatch.ProcessLineIntended | shell.c:219-224 | the same line with a failed fork abandoned: identical to the line as written for a built-in line and whenever the fork succeeds, a line outside the table whose fork fails is reported as a failed fork of the scanned command with nothing recorded, and recorded pids always stay positive |
| Dispatch.SessionIsReplay | shell.c:174-273 | over any session of lines whose forks succeed, the job state the loop keeps is exactly the replay of its external commands' launches; built-ins contribute nothing |
| Dispatch.SessionState | shell.c:259-271 | after such a session fgpid is the pid of the last foreground command, and the list holds every background command's pid, newest first |
| Dispatch.ChildSteps | shell.c:225-253 | the child restores SIGINT, takes its own process group, applies exactly the complete redirections (output before input), tries the candidates in order and exits with 0 |
| Dispatch.GroupBeforeIo | shell.c:226-243 | the child is in its own process group before it opens any redirection file or tries any program, and every redirection precedes every exec attempt |
| Dispatch.BackgroundThenWait | shell.c:264-271 | `prog &` returns without touching fgpid, and a following `wait` waits for the new child first and then for the older ones |
| Dispatch.ForegroundSlotPersists | shell.c:259-263 | after a foreground launch SIGINT targets that child's group, and a following built-in line leaves the target in place |
| Dispatch.EmptyLineForks | shell.c:179-190 | an empty line is not a built-in: the shell forks for it a child whose program name is NULL |

## Left out

- `fork`, `execve`, `waitpid`, `killpg`, `setpgrp`, `setpgid` and asynchronous signal delivery: their results are parameters (`Env.forkResult`, the `runnable` set). The race between parent, child and handler is not expressed.
- Terminal set-up in `init_shell` (`isatty`, `tcgetpgrp`, `tcsetpgrp`, `tcgetattr`, the SIGTTIN loop): terminal I/O.
- The effects of redirection (`freopen`, `open`, `dup2`), of `chdir` and `getcwd`, and all printing, the numbered prompt included: only the chosen targets, the requested directory and the output lines are modelled.
- Line reading and the tokenizer, which is not part of this model: the tokens are a given `seq<string>`.
- The fixed 4096-byte buffers and the overflow of `strcpy`/`strcat` into them: strings are unbounded.
- The double free of `argv` after a failed fork: the model records the failed fork as if that free returned.
- `malloc`/`free` and the dangling `bglist` after `wait`: the list is a datatype value that stays as it was. A second `wait` would read freed nodes in the shell itself.
- `exit` ending the process: modelled as the `ShellExit(0)` outcome.
- The empty environment `{"", NULL}` passed to every `execve`: the environment given to children is not modelled.
- ExecPath.Candidates: requires PATH to yield at least one directory. The shell copies the first `strtok` result without a NULL check, and `getenv("PATH")` may itself be NULL. Both are undefined behaviour once the literal name fails.
- Dispatch.ChildSteps: requires a program name. For an empty line the child passes NULL to `execve` and `strcat`, and its behaviour is undefined.
- Jobs.CmdWait: only the order of the `waitpid` calls is modelled, not the blocking or the exit statuses, which the shell ignores.

## Findings

| source | as written | input that shows it | evidently intended | confidence | as-written member | corrected member |
|---|---|---|---|---|---|---|
| shell.c:219-225 | `if (cur < 0) {...}` is followed by a separate `if (cur == 0) {...} else {...}`, so a failed fork also runs the parent branch | `fork` answers -1 for `sleep 9`: the parent branch first frees `argv` a second time (line 256), which is undefined behaviour and may abort the shell; if that free returns, `fgpid` becomes -1 and SIGINT is then aimed at group -1; for `sleep 9 &`, -1 heads `bglist`, and `wait` calls `waitpid(-1, ...)`, which reaps any child (Jobs.ForkFailureIsRecorded) | `else if (cur == 0)`: a failed fork records nothing | high that the parent branch runs, not executed | Jobs.RecordChildAsWritten | Jobs.RecordChild |
