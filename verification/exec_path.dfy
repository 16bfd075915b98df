/**
 * The child's search for an executable: first the program name as given, then
 * `dir/prog` for each directory that `strtok(PATH, ":")` yields, in order.
 * Only the list of paths the child tries is modelled; whether `execve` accepts
 * one of them is a parameter.
 */
module ExecPath {
  import opened Wrappers

  const Separator: char := ':'

  // ---------------------------------------------------------------------------
  // strtok over PATH

  /** The length of the run of non-separator characters at the start of `s`. */
  function FieldEnd(s: string): (k: nat)
    ensures k <= |s|
    ensures forall i :: 0 <= i < k ==> s[i] != Separator
    ensures k < |s| ==> s[k] == Separator
  {
    if |s| == 0 || s[0] == Separator then 0 else 1 + FieldEnd(s[1..])
  }

  /** `s` holds nothing but separators (the empty string included). */
  predicate OnlySeparators(s: string) {
    |s| == 0 || (s[0] == Separator && OnlySeparators(s[1..]))
  }

  /** The number of separators `strtok` skips before a token starts. */
  function LeadingSeparators(s: string): (k: nat)
    ensures k <= |s|
    ensures forall i :: 0 <= i < k ==> s[i] == Separator
    ensures k < |s| ==> s[k] != Separator
  {
    if |s| == 0 || s[0] != Separator then 0 else 1 + LeadingSeparators(s[1..])
  }

  /** One call of `strtok(.., ":")`: skip leading separators; at the end of the
      string there is no token (NULL); otherwise the token runs to the next
      separator, which is consumed, and scanning resumes after it. */
  function NextToken(s: string): (r: Option<(string, string)>)
    ensures r.None? <==> OnlySeparators(s)
    ensures r.Some? ==> |r.value.0| > 0 && Separator !in r.value.0
    ensures r.Some? ==> |r.value.1| < |s|
  {
    if |s| == 0 then None
    else if s[0] == Separator then NextToken(s[1..])
    else
      var k := FieldEnd(s);
      Some((s[..k], if k < |s| then s[k + 1..] else []))
  }

  /** `t` starts at index `k` of `s` and runs to the next separator or the end;
      `rest` is what follows that separator. */
  ghost predicate TokenAt(s: string, k: nat, t: string, rest: string) {
    var e := k + |t|;
    && e <= |s| && s[k..e] == t
    && (e == |s| ==> rest == [])
    && (e < |s| ==> s[e] == Separator && rest == s[e + 1..])
  }

  lemma TokenAtShift(s: string, k: nat, t: string, rest: string)
    requires |s| > 0 && TokenAt(s[1..], k, t, rest)
    ensures TokenAt(s, k + 1, t, rest)
  {
    assert s[1..][k..k + |t|] == s[k + 1..k + 1 + |t|];
    if k + 1 + |t| < |s| {
      assert s[1..][k + |t| + 1..] == s[k + 1 + |t| + 1..];
    }
  }

  /** Where the token of one `strtok` call sits: right after the leading
      separators, running to the next separator or the end, and scanning resumes
      just past that separator. */
  lemma {:induction false} NextTokenPosition(s: string)
    requires NextToken(s).Some?
    ensures TokenAt(s, LeadingSeparators(s), NextToken(s).value.0, NextToken(s).value.1)
    decreases |s|
  {
    if s[0] == Separator {
      NextTokenPosition(s[1..]);
      TokenAtShift(s, LeadingSeparators(s[1..]), NextToken(s).value.0, NextToken(s).value.1);
    } else {
      assert s[0..FieldEnd(s)] == s[..FieldEnd(s)];
    }
  }

  /** Every token successive `strtok` calls return, until the first NULL. */
  function Strtok(s: string): (r: seq<string>)
    ensures forall i :: 0 <= i < |r| ==> |r[i]| > 0 && Separator !in r[i]
    decreases |s|
  {
    match NextToken(s)
    case None => []
    case Some((t, rest)) => [t] + Strtok(rest)
  }

  // ---------------------------------------------------------------------------
  // The colon-separated fields of PATH, empty ones included

  /** `s` cut at every separator. */
  function Fields(s: string): (r: seq<string>)
    ensures |r| >= 1
    ensures forall i :: 0 <= i < |r| ==> Separator !in r[i]
  {
    if |s| == 0 then [""]
    else
      var rest := Fields(s[1..]);
      if s[0] == Separator then [""] + rest
      else [[s[0]] + rest[0]] + rest[1..]
  }

  /** Fields glued back together with separators. */
  function Join(fs: seq<string>): string
    requires |fs| >= 1
  {
    if |fs| == 1 then fs[0] else fs[0] + [Separator] + Join(fs[1..])
  }

  function NonEmpty(fs: seq<string>): (r: seq<string>)
    ensures forall i :: 0 <= i < |r| ==> |r[i]| > 0
  {
    if |fs| == 0 then []
    else (if fs[0] == "" then [] else [fs[0]]) + NonEmpty(fs[1..])
  }

  /** Cutting at separators loses nothing: joining the fields gives `s` back. */
  lemma {:induction false} JoinFields(s: string)
    ensures Join(Fields(s)) == s
    decreases |s|
  {
    if |s| > 0 {
      var rest := Fields(s[1..]);
      JoinFields(s[1..]);
      if s[0] == Separator {
        assert ([""] + rest)[1..] == rest;
        assert s == [s[0]] + s[1..];
      } else {
        var fs := [[s[0]] + rest[0]] + rest[1..];
        if |rest| == 1 {
          assert s == [s[0]] + s[1..];
        } else {
          assert fs[1..] == rest[1..];
          assert s == [s[0]] + s[1..];
        }
      }
    }
  }

  /** Fields of a separator-free word followed by more text. */
  lemma {:induction false} FieldsAfterWord(w: string, rest: string)
    requires Separator !in w
    ensures var f := Fields(rest); Fields(w + rest) == [w + f[0]] + f[1..]
    decreases |w|
  {
    if |w| > 0 {
      var f := Fields(rest);
      FieldsAfterWord(w[1..], rest);
      assert (w + rest)[1..] == w[1..] + rest;
      var g := Fields(w[1..] + rest);
      assert g == [w[1..] + f[0]] + f[1..];
      assert [w[0]] + g[0] == w + f[0];
      assert g[1..] == f[1..];
    } else {
      var f := Fields(rest);
      assert w + rest == rest;
      assert w + f[0] == f[0];
      assert f == [f[0]] + f[1..];
    }
  }

  /** `strtok` yields exactly the non-empty fields, in order: empty fields (from
      adjacent, leading or trailing separators) are skipped. */
  lemma {:induction false} StrtokIsNonEmptyFields(s: string)
    ensures Strtok(s) == NonEmpty(Fields(s))
    decreases |s|
  {
    if |s| == 0 {
    } else if s[0] == Separator {
      StrtokIsNonEmptyFields(s[1..]);
      assert Strtok(s) == Strtok(s[1..]);
      assert ([""] + Fields(s[1..]))[1..] == Fields(s[1..]);
    } else {
      var k := FieldEnd(s);
      var w, tail := s[..k], s[k..];
      assert s == w + tail;
      assert Separator !in w;
      FieldsAfterWord(w, tail);
      var f := Fields(tail);
      if k < |s| {
        var after := s[k + 1..];
        assert tail == [Separator] + after;
        assert tail[1..] == after;
        assert f == [""] + Fields(after);
        assert w + f[0] == w;
        assert f[1..] == Fields(after);
        StrtokIsNonEmptyFields(after);
        assert Fields(s) == [w] + Fields(after);
        assert NonEmpty([w] + Fields(after)) == [w] + NonEmpty(Fields(after)) by {
          assert ([w] + Fields(after))[1..] == Fields(after);
        }
      } else {
        assert tail == [];
        assert f == [""];
        assert w + f[0] == w;
        assert Fields(s) == [w];
      }
    }
  }

  // ---------------------------------------------------------------------------
  // The candidates the child tries

  /** PATH yields at least one directory; the child copies the first `strtok`
      result without checking it for NULL. */
  predicate HasSearchDir(path: string) {
    |Strtok(path)| > 0
  }

  function Prefixed(dirs: seq<string>, prog: string): (r: seq<string>)
    ensures |r| == |dirs|
    ensures forall i :: 0 <= i < |dirs| ==> r[i] == dirs[i] + "/" + prog
  {
    if |dirs| == 0 then [] else [dirs[0] + "/" + prog] + Prefixed(dirs[1..], prog)
  }

  /** The paths handed to `execve`, in order, if every attempt fails: the literal
      name, then `dir + "/" + prog` for each non-empty PATH field, each once. */
  function Candidates(prog: string, path: string): (r: seq<string>)
    requires HasSearchDir(path)
    ensures |r| == 1 + |NonEmpty(Fields(path))|
    ensures r[0] == prog
    ensures forall i :: 0 <= i < |NonEmpty(Fields(path))| ==>
      r[i + 1] == NonEmpty(Fields(path))[i] + "/" + prog
  {
    StrtokIsNonEmptyFields(path);
    [prog] + Prefixed(Strtok(path), prog)
  }

  /** The search loop as written: one `execve` on the literal name, then the first
      candidate built before the loop, and inside the loop an `execve` followed by
      the next `strtok`, breaking when it returns NULL.  `tried` lists the paths
      passed to `execve`, every attempt failing. */
  method ExecAttempts(prog: string, path: string) returns (tried: seq<string>)
    requires HasSearchDir(path)
    ensures tried == Candidates(prog, path)
  {
    ghost var all := Prefixed(Strtok(path), prog);
    tried := [prog];
    var pathappend := NextToken(path);
    PrefixedStrtokStep(path, prog);
    var result := pathappend.value.0 + "/" + prog;
    var rest := pathappend.value.1;
    while true
      invariant [prog] + all == tried + [result] + Prefixed(Strtok(rest), prog)
      decreases |rest|
    {
      tried := tried + [result];
      pathappend := NextToken(rest);
      if pathappend.None? {
        assert Strtok(rest) == [];
        break;
      }
      PrefixedStrtokStep(rest, prog);
      result := pathappend.value.0 + "/" + prog;
      rest := pathappend.value.1;
    }
    assert tried == [prog] + all;
  }

  /** One `strtok` call peels the first candidate off the rest of the search. */
  lemma PrefixedStrtokStep(rest: string, prog: string)
    requires NextToken(rest).Some?
    ensures var (t, after) := NextToken(rest).value;
      Prefixed(Strtok(rest), prog) == [t + "/" + prog] + Prefixed(Strtok(after), prog)
  {
    var (t, after) := NextToken(rest).value;
    assert Strtok(rest) == [t] + Strtok(after);
    assert ([t] + Strtok(after))[1..] == Strtok(after);
  }

  /** How the child ends: running some image, or exiting. */
  datatype ChildEnd = Executed(image: string) | Exited(status: int)

  /** The position of the first candidate from `i` on that `execve` accepts. */
  function FirstRunnable(candidates: seq<string>, runnable: set<string>, i: nat): (r: Option<nat>)
    requires i <= |candidates|
    ensures r.Some? ==> i <= r.value < |candidates| && candidates[r.value] in runnable
    ensures r.Some? ==> forall k :: i <= k < r.value ==> candidates[k] !in runnable
    ensures r.None? <==> forall k :: i <= k < |candidates| ==> candidates[k] !in runnable
    decreases |candidates| - i
  {
    if i == |candidates| then None
    else if candidates[i] in runnable then Some(i)
    else FirstRunnable(candidates, runnable, i + 1)
  }

  /** The first candidate `execve` accepts runs; when none is accepted the child
      reports the error and exits with status 0. */
  function ChildResult(candidates: seq<string>, runnable: set<string>): (r: ChildEnd)
    ensures r.Executed? ==>
      (exists k :: 0 <= k < |candidates| && r.image == candidates[k] && candidates[k] in runnable &&
         forall i :: 0 <= i < k ==> candidates[i] !in runnable)
    ensures r.Exited? <==> forall k :: 0 <= k < |candidates| ==> candidates[k] !in runnable
    ensures r.Exited? ==> r.status == 0
  {
    match FirstRunnable(candidates, runnable, 0)
    case None => Exited(0)
    case Some(k) => Executed(candidates[k])
  }
}
