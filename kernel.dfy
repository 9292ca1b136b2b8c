/**
 * The privileged calls the launcher makes, as values. A call is never carried out
 * here: it is appended to a trace, and whether it succeeds is decided by an oracle
 * that maps the call's position in the trace to an optional errno.
 */
module Kernel {
  import opened Wrappers
  import opened Errors

  type Path = string

  /** Rust's `u64`; the model takes `usize` to be 64 bits wide as well. */
  type U64 = x: int | 0 <= x < 0x1_0000_0000_0000_0000
  type U8 = x: int | 0 <= x < 0x100

  const U64Max: U64 := 0xFFFF_FFFF_FFFF_FFFF

  /** The `MsFlags` bits the launcher uses: MS_BIND, MS_PRIVATE, MS_REC and MS_SLAVE. */
  datatype MsFlag = MsBind | MsPrivate | MsRec | MsSlave

  /** The `MntFlags` bit the launcher uses: MNT_DETACH. */
  datatype MntFlag = MntDetach

  /** The file type handed to mknod; the launcher only creates character devices (S_IFCHR). */
  datatype FileType = CharacterDevice

  /** The device number `makedev(major, minor)`; libc's bit encoding of it is not modelled. */
  datatype DeviceId = MakeDev(major: U64, minor: U64)

  const BindPrivate: set<MsFlag> := {MsBind, MsPrivate}

  /** One privileged call with the arguments it is given. */
  datatype Op =
    | MountOp(source: Option<Path>, target: Path, fstype: Option<string>, flags: set<MsFlag>, data: Option<string>)
    | Mknod(path: Path, kind: FileType, mode: nat, dev: DeviceId)
    | Symlink(linkTarget: Path, linkPath: Path)
    | PivotRoot(newRoot: Path, putOld: Path)
    | Umount(target: Path, umountFlags: set<MntFlag>)

  /** For the call at position `i` of the trace: None if it succeeds, Some(errno) if it fails. */
  type Oracle = nat -> Option<Errno>

  /** What `?` makes of one call's outcome. */
  function StepResult(outcome: Option<Errno>): (r: Result<(), CartonError>)
    ensures r.Ok? <==> outcome.None?
    ensures outcome.Some? ==> r == Err(SysCallFailed(outcome.value))
  {
    match outcome
    case None => Ok(())
    case Some(e) => Err(SysCallFailed(e))
  }

  /** The calls that were issued and the result the sequence returned. */
  datatype Execution = Execution(executed: seq<Op>, result: Result<(), CartonError>)

  /**
   * The meaning of a run of calls joined by `?`: issue them in order, the first of
   * them at position `at` of the trace, and stop at the first one that fails,
   * returning its error.
   */
  function Execute(ops: seq<Op>, outcome: Oracle, at: nat): Execution
    decreases |ops|
  {
    if ops == [] then Execution([], Ok(()))
    else match outcome(at)
      case Some(e) => Execution([ops[0]], Err(SysCallFailed(e)))
      case None =>
        var rest := Execute(ops[1..], outcome, at + 1);
        Execution([ops[0]] + rest.executed, rest.result)
  }

  /** Whatever happens, the calls issued are the plan's first calls, in the plan's order. */
  lemma {:induction false} ExecuteIsPrefix(ops: seq<Op>, outcome: Oracle, at: nat)
    ensures |Execute(ops, outcome, at).executed| <= |ops|
    ensures Execute(ops, outcome, at).executed == ops[..|Execute(ops, outcome, at).executed|]
    decreases |ops|
  {
    if ops != [] && outcome(at).None? {
      ExecuteIsPrefix(ops[1..], outcome, at + 1);
      var rest := Execute(ops[1..], outcome, at + 1).executed;
      assert [ops[0]] + ops[1..][..|rest|] == ops[..|rest| + 1];
    }
  }

  /** A run succeeds exactly when every one of its calls succeeds, and then all of them were issued. */
  lemma {:induction false} ExecuteSucceeds(ops: seq<Op>, outcome: Oracle, at: nat)
    ensures Execute(ops, outcome, at).result.Ok? <==> forall i :: at <= i < at + |ops| ==> outcome(i).None?
    ensures Execute(ops, outcome, at).result.Ok? ==> Execute(ops, outcome, at).executed == ops
    decreases |ops|
  {
    if ops != [] {
      ExecuteSucceeds(ops[1..], outcome, at + 1);
      if outcome(at).None? {
        assert [ops[0]] + ops[1..] == ops;
      }
    }
  }

  /**
   * A run that fails stops at its first failing call: every call before it
   * succeeded, nothing after it was issued, and its errno is the error returned.
   */
  lemma {:induction false} ExecuteStopsAtFirstFailure(ops: seq<Op>, outcome: Oracle, at: nat)
    requires Execute(ops, outcome, at).result.Err?
    ensures var n := |Execute(ops, outcome, at).executed|;
      1 <= n <= |ops|
      && Execute(ops, outcome, at).executed == ops[..n]
      && (forall i :: at <= i < at + n - 1 ==> outcome(i).None?)
      && outcome(at + n - 1).Some?
      && Execute(ops, outcome, at).result == Err(SysCallFailed(outcome(at + n - 1).value))
    decreases |ops|
  {
    ExecuteIsPrefix(ops, outcome, at);
    if outcome(at).None? {
      ExecuteStopsAtFirstFailure(ops[1..], outcome, at + 1);
    }
  }

  /** Joining two runs with `?`: the second runs only if the first succeeded. */
  lemma {:induction false} ExecuteAppend(a: seq<Op>, b: seq<Op>, outcome: Oracle, at: nat)
    ensures Execute(a + b, outcome, at) ==
      if Execute(a, outcome, at).result.Err? then Execute(a, outcome, at)
      else Execution(a + Execute(b, outcome, at + |a|).executed, Execute(b, outcome, at + |a|).result)
    decreases |a|
  {
    if a == [] {
      assert a + b == b;
    } else {
      assert (a + b)[1..] == a[1..] + b;
      if outcome(at).None? {
        ExecuteAppend(a[1..], b, outcome, at + 1);
        assert [a[0]] + a[1..] == a;
      }
    }
  }

  lemma AppendAssociative(a: seq<Op>, b: seq<Op>, c: seq<Op>)
    ensures a + (b + c) == a + b + c
  {
  }

  /** Cutting a plan around its call `i`. */
  lemma SplitAround(s: seq<Op>, i: nat)
    requires i < |s|
    ensures s[..i] + [s[i]] + s[i + 1..] == s
    ensures s[..i + 1] == s[..i] + [s[i]]
  {
  }

  /** Two runs joined by `?` where the first succeeded: the trace holds both, in order. */
  lemma ThenRun(before: seq<Op>, a: seq<Op>, b: seq<Op>, outcome: Oracle, mid: seq<Op>, after: seq<Op>, r: Result<(), CartonError>)
    requires mid == before + Execute(a, outcome, |before|).executed
    requires Execute(a, outcome, |before|).result.Ok?
    requires after == mid + Execute(b, outcome, |mid|).executed && r == Execute(b, outcome, |mid|).result
    ensures after == before + Execute(a + b, outcome, |before|).executed
    ensures r == Execute(a + b, outcome, |before|).result
  {
    ExecuteSucceeds(a, outcome, |before|);
    ExecuteAppend(a, b, outcome, |before|);
    AppendAssociative(before, a, Execute(b, outcome, |mid|).executed);
  }

  /** A run that failed makes every longer plan it begins fail the same way, with nothing more issued. */
  lemma AbortRun(before: seq<Op>, a: seq<Op>, b: seq<Op>, outcome: Oracle, after: seq<Op>, r: Result<(), CartonError>)
    requires after == before + Execute(a, outcome, |before|).executed
    requires r == Execute(a, outcome, |before|).result && r.Err?
    ensures after == before + Execute(a + b, outcome, |before|).executed
    ensures r == Execute(a + b, outcome, |before|).result
  {
    ExecuteAppend(a, b, outcome, |before|);
  }

  /**
   * One more part `step` of a plan `done + step + rest`, after a successful run of
   * `done`: the trace is the run of `done + step`, and if the step failed, it is
   * also the run of the whole plan, which stops there.
   */
  lemma ContinueRun(before: seq<Op>, done: seq<Op>, step: seq<Op>, rest: seq<Op>, outcome: Oracle,
                    mid: seq<Op>, after: seq<Op>, r: Result<(), CartonError>)
    requires mid == before + Execute(done, outcome, |before|).executed
    requires Execute(done, outcome, |before|).result.Ok?
    requires after == mid + Execute(step, outcome, |mid|).executed && r == Execute(step, outcome, |mid|).result
    ensures after == before + Execute(done + step, outcome, |before|).executed
    ensures r == Execute(done + step, outcome, |before|).result
    ensures r.Err? ==> after == before + Execute(done + step + rest, outcome, |before|).executed
    ensures r.Err? ==> r == Execute(done + step + rest, outcome, |before|).result
  {
    ThenRun(before, done, step, outcome, mid, after, r);
    if r.Err? {
      AbortRun(before, done + step, rest, outcome, after, r);
    }
  }

  /**
   * The host's mount table and filesystem, seen through the calls made on it.
   * `trace` holds every call issued, in order; `outcome` decides each one's result.
   */
  class Host {
    var trace: seq<Op>
    const outcome: Oracle

    constructor (outcome: Oracle)
      ensures trace == [] && this.outcome == outcome
    {
      trace := [];
      this.outcome := outcome;
    }

    /** Since the trace was `before`, exactly the run of `ops` has happened and returned `r`. */
    ghost predicate Performed(before: seq<Op>, ops: seq<Op>, r: Result<(), CartonError>)
      reads this
    {
      trace == before + Execute(ops, outcome, |before|).executed
      && r == Execute(ops, outcome, |before|).result
    }

    /** Issues one call; nix's error, if any, becomes `SysCallFailed`. */
    method Syscall(op: Op) returns (r: Result<(), CartonError>)
      modifies this`trace
      ensures trace == old(trace) + [op]
      ensures r == StepResult(outcome(|old(trace)|))
      ensures Performed(old(trace), [op], r)
    {
      r := StepResult(outcome(|trace|));
      trace := trace + [op];
    }

    /**
     * Issues `op` as the next call of the plan `done + [op] + rest`, of which `done`
     * has run successfully since the trace was `before`. If the call fails, the
     * plan is over.
     */
    method SyscallInPlan(op: Op, ghost before: seq<Op>, ghost done: seq<Op>, ghost rest: seq<Op>)
      returns (r: Result<(), CartonError>)
      requires Performed(before, done, Ok(()))
      modifies this`trace
      ensures r.Ok? ==> r == Ok(())
      ensures Performed(before, done + [op], r)
      ensures r.Err? ==> Performed(before, done + [op] + rest, r)
    {
      ghost var mid := trace;
      r := Syscall(op);
      assert Execute([op], outcome, |mid|).executed == [op];
      ContinueRun(before, done, [op], rest, outcome, mid, trace, r);
    }
  }
}
