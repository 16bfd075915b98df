/**
 * The parent's job bookkeeping: the foreground slot `fgpid` read by the SIGINT
 * handler, and the singly linked list `bglist` of background children, newest
 * first, walked by the `wait` built-in.  Process creation, waiting and signal
 * delivery are left to the operating system; pids are plain integers here.
 */
module Jobs {
  import opened Wrappers

  /** The background list, node for node: `bgp` and `next` of the shell's `struct bgelem`. */
  datatype BgList = Nil | Node(bgp: int, next: BgList)

  /** `fgpid` is 0 (NULL) until the first foreground launch. */
  datatype JobState = JobState(fgpid: int, bglist: BgList)

  const Initial := JobState(0, Nil)

  /** The pids on the list, head first. */
  function Elements(l: BgList): seq<int> {
    match l
    case Nil => []
    case Node(p, rest) => [p] + Elements(rest)
  }

  /** Every pid the shell recorded came from a successful fork. */
  ghost predicate Valid(j: JobState) {
    j.fgpid >= 0 && forall p :: p in Elements(j.bglist) ==> p > 0
  }

  // ---------------------------------------------------------------------------
  // Parent side of a launch

  /** What the parent records after `fork` returned `cur`, as the code is written:
      any non-zero `cur` reaches the parent branch, so a failed fork (-1) is
      recorded as if it were a child.  For -1 that branch first frees `argv` a
      second time; the recording is what happens if that free returns. */
  function RecordChildAsWritten(j: JobState, cur: int, background: bool): (r: JobState)
    requires cur != 0
    ensures background ==> r.fgpid == j.fgpid && Elements(r.bglist) == [cur] + Elements(j.bglist)
    ensures !background ==> r.fgpid == cur && r.bglist == j.bglist
  {
    if !background then j.(fgpid := cur)
    else j.(bglist := Node(cur, j.bglist))
  }

  /** A failed fork reaches the bookkeeping, provided the second free of `argv`
      that precedes it returns: in the foreground it puts -1 in the slot, so a
      later SIGINT is aimed at process group -1; in the background it puts -1 on
      the list, so a later `wait` waits for -1, that is any child. */
  lemma ForkFailureIsRecorded(j: JobState)
    ensures RecordChildAsWritten(j, -1, false).fgpid == -1
    ensures Interrupt(RecordChildAsWritten(j, -1, false)) == Some(-1)
    ensures Elements(RecordChildAsWritten(j, -1, true).bglist)[0] == -1
    ensures !Valid(RecordChildAsWritten(j, -1, false)) && !Valid(RecordChildAsWritten(j, -1, true))
  {
    assert -1 in Elements(RecordChildAsWritten(j, -1, true).bglist);
  }

  /** The bookkeeping with the failed fork kept out of it: a negative `cur` means
      no child exists and nothing is recorded.  A foreground child occupies the
      slot; a background child is pushed on the head of the list. */
  function RecordChild(j: JobState, cur: int, background: bool): (r: JobState)
    requires cur != 0
    ensures cur < 0 ==> r == j
    ensures cur > 0 && background ==> r.fgpid == j.fgpid && Elements(r.bglist) == [cur] + Elements(j.bglist)
    ensures cur > 0 && !background ==> r.fgpid == cur && r.bglist == j.bglist
    ensures Valid(j) ==> Valid(r)
  {
    if cur < 0 then j else RecordChildAsWritten(j, cur, background)
  }

  // ---------------------------------------------------------------------------
  // The SIGINT handler and `wait`

  /** The process group the SIGINT handler signals, if any: none while the slot is
      empty, otherwise the group named by the slot. */
  function Interrupt(j: JobState): (target: Option<int>)
    ensures target.None? <==> j.fgpid == 0
    ensures target.Some? ==> target.value == j.fgpid
  {
    if j.fgpid == 0 then None else Some(j.fgpid)
  }

  /** The walk of `wait`: `waitpid` on each node from the head, one node at a time.
      It returns the pids in the order waited for.  The list head is not reset
      afterwards, so the shell's state is unchanged. */
  method CmdWait(j: JobState) returns (reaped: seq<int>, status: int)
    ensures reaped == Elements(j.bglist)
    ensures status == 0
  {
    reaped := [];
    var cur := j.bglist;
    while cur != Nil
      invariant reaped + Elements(cur) == Elements(j.bglist)
      decreases cur
    {
      reaped := reaped + [cur.bgp];
      cur := cur.next;
    }
    status := 0;
  }

  // ---------------------------------------------------------------------------
  // Launch histories

  /** A launch the parent recorded: the child's pid and whether it ran in the background. */
  datatype Launch = Launch(pid: int, background: bool)

  /** The state after recording `h` in order, starting from the initial state. */
  function Replay(h: seq<Launch>): JobState
    requires forall i :: 0 <= i < |h| ==> h[i].pid > 0
  {
    if |h| == 0 then Initial
    else RecordChild(Replay(h[..|h| - 1]), h[|h| - 1].pid, h[|h| - 1].background)
  }

  /** The pid of the most recent foreground launch, or 0 when there was none. */
  function LastForeground(h: seq<Launch>): (p: int)
    ensures p == 0 || exists i :: 0 <= i < |h| && !h[i].background && h[i].pid == p
  {
    if |h| == 0 then 0
    else if !h[|h| - 1].background then h[|h| - 1].pid
    else LastForeground(h[..|h| - 1])
  }

  /** The pids of the background launches, in launch order. */
  function BackgroundPids(h: seq<Launch>): seq<int> {
    if |h| == 0 then []
    else BackgroundPids(h[..|h| - 1]) + (if h[|h| - 1].background then [h[|h| - 1].pid] else [])
  }

  function Reverse(s: seq<int>): (r: seq<int>)
    ensures |r| == |s|
    ensures forall i :: 0 <= i < |s| ==> r[i] == s[|s| - 1 - i]
  {
    if |s| == 0 then [] else Reverse(s[1..]) + [s[0]]
  }

  lemma ReverseAppend(s: seq<int>, x: int)
    ensures Reverse(s + [x]) == [x] + Reverse(s)
  {
    var a, b := Reverse(s + [x]), [x] + Reverse(s);
    assert |a| == |b|;
    forall i | 0 <= i < |a| ensures a[i] == b[i] {
      if i > 0 {
        assert (s + [x])[|s| - i] == s[|s| - 1 - (i - 1)];
      }
    }
  }

  /** After any history of successful launches, the foreground slot holds the most
      recent foreground child (background launches never touch it), and the list
      holds every background child, newest first. */
  lemma {:induction false} ReplayState(h: seq<Launch>)
    requires forall i :: 0 <= i < |h| ==> h[i].pid > 0
    ensures Replay(h).fgpid == LastForeground(h)
    ensures Elements(Replay(h).bglist) == Reverse(BackgroundPids(h))
  {
    if |h| > 0 {
      var last := h[|h| - 1];
      ReplayState(h[..|h| - 1]);
      if last.background {
        ReverseAppend(BackgroundPids(h[..|h| - 1]), last.pid);
      }
    }
  }

  /** `wait` waits for every background child exactly once, most recently launched
      first. */
  lemma {:induction false} WaitOrder(h: seq<Launch>)
    requires forall i :: 0 <= i < |h| ==> h[i].pid > 0
    ensures multiset(Elements(Replay(h).bglist)) == multiset(BackgroundPids(h))
  {
    ReplayState(h);
    ReverseSameElements(BackgroundPids(h));
  }

  lemma {:induction false} ReverseSameElements(s: seq<int>)
    ensures multiset(Reverse(s)) == multiset(s)
  {
    if |s| > 0 {
      ReverseSameElements(s[1..]);
      assert s == [s[0]] + s[1..];
    }
  }

  /** SIGINT is forwarded to the group of the last foreground job, even after that
      job has ended (the slot is never cleared), and to nobody before the first
      foreground launch. */
  lemma {:induction false} InterruptTarget(h: seq<Launch>)
    requires forall i :: 0 <= i < |h| ==> h[i].pid > 0
    ensures Interrupt(Replay(h)) == if LastForeground(h) == 0 then None else Some(LastForeground(h))
    ensures (forall i :: 0 <= i < |h| ==> h[i].background) ==> Interrupt(Replay(h)).None?
  {
    ReplayState(h);
    if forall i :: 0 <= i < |h| ==> h[i].background {
      NoForegroundLaunch(h);
    }
  }

  lemma {:induction false} NoForegroundLaunch(h: seq<Launch>)
    requires forall i :: 0 <= i < |h| ==> h[i].background
    ensures LastForeground(h) == 0
  {
    if |h| > 0 {
      NoForegroundLaunch(h[..|h| - 1]);
    }
  }
}
