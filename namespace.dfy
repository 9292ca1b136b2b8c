/**
 * The setup the child runs inside its new namespaces before it executes the
 * command (crates/libcarton/src/namespace.rs): a fixed sequence of mounts, device
 * nodes, symlinks and the pivot into the new root, each step stopping the whole
 * setup when it fails.
 *
 * This file is written against its own configuration types: a mount specification
 * with a plain source and destination, and a rootfs given by such a specification.
 * They are not the `Mount` record of the container module.
 */
module Namespace {
  import opened Wrappers
  import opened Errors
  import opened Kernel
  import Containers

  /** A bind of a host directory `source` at `destination` inside the rootfs; for the rootfs only `source` is used. */
  datatype MountSpecification = MountSpecification(source: Path, destination: Path)

  datatype NamespaceConfiguration = NamespaceConfiguration(
    rootfs: MountSpecification,
    mounts: seq<MountSpecification>,
    devices: seq<Containers.DeviceNode>)

  /** `Path::join`, left abstract. */
  type Join = (Path, Path) -> Path

  /** Permissions of every device node created: octal 0666. */
  const DevicePermissions: nat := 0x1B6

  /** The recursive, private remount of "/" that confines every later mount to this namespace. */
  const RemountRootPrivate: Op := MountOp(None, "/", None, {MsRec, MsPrivate}, None)

  /** After the pivot, "/" is remounted as a recursive slave, so no unmount propagates out. */
  const RemountRootSlave: Op := MountOp(None, "/", None, {MsSlave, MsRec}, None)

  /** The lazy unmount that drops the old root sitting on top of "/" after the pivot. */
  const DetachOldRoot: Op := Umount("/", {MntDetach})

  function DevPath(root: MountSpecification, join: Join): Path {
    join(root.source, "dev")
  }

  /** `prepare_rootfs`: remount "/" private, then bind the rootfs onto itself. */
  function PreparePlan(root: MountSpecification): seq<Op> {
    [RemountRootPrivate, MountOp(Some(root.source), root.source, None, BindPrivate, None)]
  }

  /** `mount_procfs`. */
  function ProcfsPlan(root: MountSpecification, join: Join): seq<Op> {
    [MountOp(None, join(root.source, "proc"), Some("proc"), {}, None)]
  }

  /** `mount_tmp`. */
  function TmpPlan(root: MountSpecification, join: Join): seq<Op> {
    [MountOp(None, join(root.source, "tmp"), Some("tmpfs"), {}, None)]
  }

  function BindOp(root: MountSpecification, spec: MountSpecification, join: Join): Op {
    MountOp(Some(spec.source), join(root.source, spec.destination), None, BindPrivate, None)
  }

  /** `mount_additional_binds`: one bind per configured mount, in order. */
  function BindsPlan(root: MountSpecification, mounts: seq<MountSpecification>, join: Join): seq<Op> {
    seq(|mounts|, i requires 0 <= i < |mounts| => BindOp(root, mounts[i], join))
  }

  /** `mount_dev`. */
  function DevPlan(root: MountSpecification, join: Join): seq<Op> {
    [MountOp(None, DevPath(root, join), Some("tmpfs"), {}, None)]
  }

  function MknodOp(root: MountSpecification, node: Containers.DeviceNode, join: Join): Op {
    Mknod(join(DevPath(root, join), node.path), CharacterDevice, DevicePermissions, MakeDev(node.major, node.minor))
  }

  /** The symlinks into the process's own file descriptors, made after the device nodes. */
  function SymlinksPlan(root: MountSpecification, join: Join): seq<Op> {
    var dev := DevPath(root, join);
    [ Symlink("/proc/self/fd", join(dev, "fd")),
      Symlink("/proc/self/fd/0", join(dev, "stdin")),
      Symlink("/proc/self/fd/1", join(dev, "stdout")),
      Symlink("/proc/self/fd/2", join(dev, "stderr")) ]
  }

  /** `create_device_nodes`: one mknod per configured device, in order, then the symlinks. */
  function DeviceNodesPlan(root: MountSpecification, devices: seq<Containers.DeviceNode>, join: Join): seq<Op> {
    seq(|devices|, i requires 0 <= i < |devices| => MknodOp(root, devices[i], join)) + SymlinksPlan(root, join)
  }

  /** `mount_rootfs`: pivot into the rootfs, remount "/" as a slave, detach the old root. */
  function PivotPlan(root: MountSpecification): seq<Op> {
    [PivotRoot(root.source, root.source), RemountRootSlave, DetachOldRoot]
  }

  /** Step `k` of `setup_namespaces`, counting from 0. */
  function SetupStep(config: NamespaceConfiguration, join: Join, k: nat): seq<Op>
    requires k < 7
  {
    var root := config.rootfs;
    match k
    case 0 => PreparePlan(root)
    case 1 => ProcfsPlan(root, join)
    case 2 => TmpPlan(root, join)
    case 3 => BindsPlan(root, config.mounts, join)
    case 4 => DevPlan(root, join)
    case 5 => DeviceNodesPlan(root, config.devices, join)
    case 6 => PivotPlan(root)
  }

  /** The calls of the first `n` steps, step after step. */
  function SetupPrefix(config: NamespaceConfiguration, join: Join, n: nat): seq<Op>
    requires n <= 7
  {
    if n == 0 then [] else SetupPrefix(config, join, n - 1) + SetupStep(config, join, n - 1)
  }

  /** `setup_namespaces`: the whole plan, all seven steps. */
  function SetupPlan(config: NamespaceConfiguration, join: Join): seq<Op> {
    SetupPrefix(config, join, 7)
  }

  /** Once a step has failed, the whole plan has failed the same way: no later step runs. */
  lemma {:induction false} AbortSetup(config: NamespaceConfiguration, join: Join, n: nat, outcome: Oracle,
                                      before: seq<Op>, after: seq<Op>, r: Result<(), CartonError>)
    requires n <= 7
    requires after == before + Execute(SetupPrefix(config, join, n), outcome, |before|).executed
    requires r == Execute(SetupPrefix(config, join, n), outcome, |before|).result && r.Err?
    ensures after == before + Execute(SetupPlan(config, join), outcome, |before|).executed
    ensures r == Execute(SetupPlan(config, join), outcome, |before|).result
    decreases 7 - n
  {
    if n < 7 {
      AbortRun(before, SetupPrefix(config, join, n), SetupStep(config, join, n), outcome, after, r);
      AbortSetup(config, join, n + 1, outcome, before, after, r);
    }
  }

  /**
   * Step `k`, run after the steps before it succeeded: the trace is the run of the
   * first `k + 1` steps.
   */
  lemma SetupStepRun(config: NamespaceConfiguration, join: Join, k: nat, outcome: Oracle,
                     before: seq<Op>, mid: seq<Op>, after: seq<Op>, r: Result<(), CartonError>)
    requires k < 7
    requires mid == before + Execute(SetupPrefix(config, join, k), outcome, |before|).executed
    requires Execute(SetupPrefix(config, join, k), outcome, |before|).result.Ok?
    requires after == mid + Execute(SetupStep(config, join, k), outcome, |mid|).executed
    requires r == Execute(SetupStep(config, join, k), outcome, |mid|).result
    ensures after == before + Execute(SetupPrefix(config, join, k + 1), outcome, |before|).executed
    ensures r == Execute(SetupPrefix(config, join, k + 1), outcome, |before|).result
  {
    ThenRun(before, SetupPrefix(config, join, k), SetupStep(config, join, k), outcome, mid, after, r);
  }

  method PrepareRootfs(host: Host, rootSpec: MountSpecification) returns (r: Result<(), CartonError>)
    modifies host
    ensures host.Performed(old(host.trace), PreparePlan(rootSpec), r)
  {
    ghost var t0 := host.trace;
    ghost var plan := PreparePlan(rootSpec);
    // Remount "/" private and recursive, so that nothing done from here on reaches the host.
    SplitAround(plan, 0);
    r := host.SyscallInPlan(MountOp(None, "/", None, {MsRec, MsPrivate}, None), t0, plan[..0], plan[1..]);
    if r.Err? {
      return;
    }
    // Bind the rootfs onto itself, so that it becomes a mount point.
    SplitAround(plan, 1);
    r := host.SyscallInPlan(MountOp(Some(rootSpec.source), rootSpec.source, None, BindPrivate, None), t0, plan[..1], plan[2..]);
    assert plan[..2] == plan;
  }

  method MountProcfs(host: Host, rootMount: MountSpecification, join: Join) returns (r: Result<(), CartonError>)
    modifies host
    ensures host.Performed(old(host.trace), ProcfsPlan(rootMount, join), r)
  {
    var procMount := join(rootMount.source, "proc");
    r := host.Syscall(MountOp(None, procMount, Some("proc"), {}, None));
  }

  method MountTmp(host: Host, rootMount: MountSpecification, join: Join) returns (r: Result<(), CartonError>)
    modifies host
    ensures host.Performed(old(host.trace), TmpPlan(rootMount, join), r)
  {
    var tmpMount := join(rootMount.source, "tmp");
    r := host.Syscall(MountOp(None, tmpMount, Some("tmpfs"), {}, None));
  }

  method MountAdditionalBinds(host: Host, rootMount: MountSpecification, mounts: seq<MountSpecification>, join: Join)
    returns (r: Result<(), CartonError>)
    modifies host
    ensures host.Performed(old(host.trace), BindsPlan(rootMount, mounts, join), r)
  {
    ghost var t0 := host.trace;
    ghost var plan := BindsPlan(rootMount, mounts, join);
    var i := 0;
    while i < |mounts|
      invariant 0 <= i <= |mounts|
      invariant host.Performed(t0, plan[..i], Ok(()))
    {
      var spec := mounts[i];
      SplitAround(plan, i);
      r := host.SyscallInPlan(MountOp(Some(spec.source), join(rootMount.source, spec.destination), None, BindPrivate, None),
                              t0, plan[..i], plan[i + 1..]);
      if r.Err? {
        return;
      }
      i := i + 1;
    }
    assert plan[..i] == plan;
    r := Ok(());
  }

  method MountDev(host: Host, rootSpec: MountSpecification, join: Join) returns (r: Result<(), CartonError>)
    modifies host
    ensures host.Performed(old(host.trace), DevPlan(rootSpec, join), r)
  {
    var devPath := join(rootSpec.source, "dev");
    r := host.Syscall(MountOp(None, devPath, Some("tmpfs"), {}, None));
  }

  method CreateDeviceNodes(host: Host, rootSpec: MountSpecification, devices: seq<Containers.DeviceNode>, join: Join)
    returns (r: Result<(), CartonError>)
    modifies host
    ensures host.Performed(old(host.trace), DeviceNodesPlan(rootSpec, devices, join), r)
  {
    ghost var t0 := host.trace;
    ghost var plan := DeviceNodesPlan(rootSpec, devices, join);
    var devPath := join(rootSpec.source, "dev");
    var i := 0;
    while i < |devices|
      invariant 0 <= i <= |devices|
      invariant host.Performed(t0, plan[..i], Ok(()))
    {
      var node := devices[i];
      SplitAround(plan, i);
      r := host.SyscallInPlan(Mknod(join(devPath, node.path), CharacterDevice, DevicePermissions, MakeDev(node.major, node.minor)),
                              t0, plan[..i], plan[i + 1..]);
      if r.Err? {
        return;
      }
      i := i + 1;
    }
    ghost var n := |devices|;
    assert plan[n..] == SymlinksPlan(rootSpec, join);
    // Symlinks to the process's descriptors, as /proc shows them.
    SplitAround(plan, n);
    r := host.SyscallInPlan(Symlink("/proc/self/fd", join(devPath, "fd")), t0, plan[..n], plan[n + 1..]);
    if r.Err? {
      return;
    }
    SplitAround(plan, n + 1);
    r := host.SyscallInPlan(Symlink("/proc/self/fd/0", join(devPath, "stdin")), t0, plan[..n + 1], plan[n + 2..]);
    if r.Err? {
      return;
    }
    SplitAround(plan, n + 2);
    r := host.SyscallInPlan(Symlink("/proc/self/fd/1", join(devPath, "stdout")), t0, plan[..n + 2], plan[n + 3..]);
    if r.Err? {
      return;
    }
    SplitAround(plan, n + 3);
    r := host.SyscallInPlan(Symlink("/proc/self/fd/2", join(devPath, "stderr")), t0, plan[..n + 3], plan[n + 4..]);
    assert plan[..n + 4] == plan;
  }

  method MountRootfs(host: Host, rootSpec: MountSpecification) returns (r: Result<(), CartonError>)
    modifies host
    ensures host.Performed(old(host.trace), PivotPlan(rootSpec), r)
  {
    ghost var t0 := host.trace;
    ghost var plan := PivotPlan(rootSpec);
    // The rootfs becomes "/", with the old root stacked on top of it at "/".
    SplitAround(plan, 0);
    r := host.SyscallInPlan(PivotRoot(rootSpec.source, rootSpec.source), t0, plan[..0], plan[1..]);
    if r.Err? {
      return;
    }
    SplitAround(plan, 1);
    r := host.SyscallInPlan(MountOp(None, "/", None, {MsSlave, MsRec}, None), t0, plan[..1], plan[2..]);
    if r.Err? {
      return;
    }
    SplitAround(plan, 2);
    r := host.SyscallInPlan(Umount("/", {MntDetach}), t0, plan[..2], plan[3..]);
    assert plan[..3] == plan;
  }

  /**
   * `setup_namespaces`: runs the steps in their fixed order, each only if every
   * earlier one succeeded, and returns the first error.
   */
  method SetupNamespaces(host: Host, config: NamespaceConfiguration, join: Join) returns (r: Result<(), CartonError>)
    modifies host
    ensures host.Performed(old(host.trace), SetupPlan(config, join), r)
  {
    ghost var t0 := host.trace;
    ghost var t1 := host.trace;

    r := PrepareRootfs(host, config.rootfs);
    SetupStepRun(config, join, 0, host.outcome, t0, t1, host.trace, r);
    if r.Err? {
      AbortSetup(config, join, 1, host.outcome, t0, host.trace, r);
      return;
    }
    t1 := host.trace;

    r := MountProcfs(host, config.rootfs, join);
    SetupStepRun(config, join, 1, host.outcome, t0, t1, host.trace, r);
    if r.Err? {
      AbortSetup(config, join, 2, host.outcome, t0, host.trace, r);
      return;
    }
    t1 := host.trace;

    r := MountTmp(host, config.rootfs, join);
    SetupStepRun(config, join, 2, host.outcome, t0, t1, host.trace, r);
    if r.Err? {
      AbortSetup(config, join, 3, host.outcome, t0, host.trace, r);
      return;
    }
    t1 := host.trace;

    r := MountAdditionalBinds(host, config.rootfs, config.mounts, join);
    SetupStepRun(config, join, 3, host.outcome, t0, t1, host.trace, r);
    if r.Err? {
      AbortSetup(config, join, 4, host.outcome, t0, host.trace, r);
      return;
    }
    t1 := host.trace;

    r := MountDev(host, config.rootfs, join);
    SetupStepRun(config, join, 4, host.outcome, t0, t1, host.trace, r);
    if r.Err? {
      AbortSetup(config, join, 5, host.outcome, t0, host.trace, r);
      return;
    }
    t1 := host.trace;

    r := CreateDeviceNodes(host, config.rootfs, config.devices, join);
    SetupStepRun(config, join, 5, host.outcome, t0, t1, host.trace, r);
    if r.Err? {
      AbortSetup(config, join, 6, host.outcome, t0, host.trace, r);
      return;
    }
    t1 := host.trace;

    r := MountRootfs(host, config.rootfs);
    SetupStepRun(config, join, 6, host.outcome, t0, t1, host.trace, r);
  }

  /** The plan is its seven steps laid end to end. */
  lemma {:induction false} SetupPlanParts(config: NamespaceConfiguration, join: Join)
    ensures var root := config.rootfs;
      SetupPlan(config, join) ==
        PreparePlan(root) + ProcfsPlan(root, join) + TmpPlan(root, join) + BindsPlan(root, config.mounts, join)
        + DevPlan(root, join) + DeviceNodesPlan(root, config.devices, join) + PivotPlan(root)
  {
    var root := config.rootfs;
    assert SetupPrefix(config, join, 1) == PreparePlan(root);
    assert SetupPrefix(config, join, 2) == SetupPrefix(config, join, 1) + ProcfsPlan(root, join);
    assert SetupPrefix(config, join, 3) == SetupPrefix(config, join, 2) + TmpPlan(root, join);
    assert SetupPrefix(config, join, 4) == SetupPrefix(config, join, 3) + BindsPlan(root, config.mounts, join);
    assert SetupPrefix(config, join, 5) == SetupPrefix(config, join, 4) + DevPlan(root, join);
    assert SetupPrefix(config, join, 6) == SetupPrefix(config, join, 5) + DeviceNodesPlan(root, config.devices, join);
  }

  /** The plan cut into the calls before the configured binds, the binds, and the calls after them. */
  lemma SetupPlanSplit(config: NamespaceConfiguration, join: Join)
    ensures var root := config.rootfs;
      SetupPlan(config, join) ==
        (PreparePlan(root) + ProcfsPlan(root, join) + TmpPlan(root, join))
        + BindsPlan(root, config.mounts, join)
        + (DevPlan(root, join) + DeviceNodesPlan(root, config.devices, join) + PivotPlan(root))
  {
    SetupPlanParts(config, join);
    var root := config.rootfs;
    var head := PreparePlan(root) + ProcfsPlan(root, join) + TmpPlan(root, join);
    var binds := BindsPlan(root, config.mounts, join);
    var dev := DevPlan(root, join);
    var nodes := DeviceNodesPlan(root, config.devices, join);
    var pivot := PivotPlan(root);
    AppendAssociative(head + binds, dev, nodes);
    AppendAssociative(head + binds, dev + nodes, pivot);
  }

  /**
   * The plan begins with the private remount of "/", binds the rootfs onto itself,
   * then mounts proc and tmp at their joined paths; it holds twelve calls besides
   * one per configured mount and one per configured device.
   */
  lemma SetupPlanBeginning(config: NamespaceConfiguration, join: Join)
    ensures var plan := SetupPlan(config, join);
      var root := config.rootfs;
      && |plan| == 12 + |config.mounts| + |config.devices|
      && plan[0] == RemountRootPrivate
      && plan[1] == MountOp(Some(root.source), root.source, None, BindPrivate, None)
      && plan[2] == MountOp(None, join(root.source, "proc"), Some("proc"), {}, None)
      && plan[3] == MountOp(None, join(root.source, "tmp"), Some("tmpfs"), {}, None)
  {
    SetupPlanSplit(config, join);
  }

  /** After proc and tmp come the configured binds, in order, and then the tmpfs on dev. */
  lemma SetupPlanBinds(config: NamespaceConfiguration, join: Join)
    ensures var plan := SetupPlan(config, join);
      var root := config.rootfs;
      var m := |config.mounts|;
      && |plan| == 12 + m + |config.devices|
      && (forall i :: 0 <= i < m ==> plan[4 + i] == BindOp(root, config.mounts[i], join))
      && plan[4 + m] == MountOp(None, DevPath(root, join), Some("tmpfs"), {}, None)
  {
    SetupPlanBeginning(config, join);
    SetupPlanSplit(config, join);
    var root := config.rootfs;
    var binds := BindsPlan(root, config.mounts, join);
    var plan := SetupPlan(config, join);
    forall i | 0 <= i < |config.mounts|
      ensures plan[4 + i] == BindOp(root, config.mounts[i], join)
    {
      assert plan[4 + i] == binds[i];
    }
  }

  /**
   * The plan ends with one mknod per configured device, in order, with mode 0666 and
   * the device's numbers, the four descriptor symlinks, then the pivot into the
   * rootfs, the slave remount of "/" and the detach of the old root.
   */
  lemma SetupPlanEnd(config: NamespaceConfiguration, join: Join)
    ensures var plan := SetupPlan(config, join);
      var root := config.rootfs;
      var m := |config.mounts|;
      var d := |config.devices|;
      var dev := DevPath(root, join);
      && |plan| == 12 + m + d
      && (forall j :: 0 <= j < d ==> plan[5 + m + j] == Mknod(join(dev, config.devices[j].path), CharacterDevice, DevicePermissions,
                                                             MakeDev(config.devices[j].major, config.devices[j].minor)))
      && plan[5 + m + d] == Symlink("/proc/self/fd", join(dev, "fd"))
      && plan[6 + m + d] == Symlink("/proc/self/fd/0", join(dev, "stdin"))
      && plan[7 + m + d] == Symlink("/proc/self/fd/1", join(dev, "stdout"))
      && plan[8 + m + d] == Symlink("/proc/self/fd/2", join(dev, "stderr"))
      && plan[9 + m + d] == PivotRoot(root.source, root.source)
      && plan[10 + m + d] == RemountRootSlave
      && plan[11 + m + d] == DetachOldRoot
  {
    SetupPlanBeginning(config, join);
    SetupPlanSplit(config, join);
    var root := config.rootfs;
    var m := |config.mounts|;
    var plan := SetupPlan(config, join);
    var tail := DevPlan(root, join) + DeviceNodesPlan(root, config.devices, join) + PivotPlan(root);
    assert plan[4 + m..] == tail;
    forall j | 0 <= j < |config.devices|
      ensures plan[5 + m + j] == MknodOp(root, config.devices[j], join)
    {
      assert plan[5 + m + j] == tail[1 + j];
    }
  }

  /**
   * The pivot is the third call from the end and the only one of its kind; every
   * mount, device node and symlink of the plan comes before it, except the slave
   * remount of "/" that follows it.
   */
  lemma PivotComesLast(config: NamespaceConfiguration, join: Join)
    ensures var plan := SetupPlan(config, join);
      forall i :: 0 <= i < |plan| && plan[i].PivotRoot? ==> i == |plan| - 3
    ensures var plan := SetupPlan(config, join);
      forall i :: 0 <= i < |plan| && (plan[i].Mknod? || plan[i].Symlink?) ==> i < |plan| - 3
    ensures var plan := SetupPlan(config, join);
      forall i :: 0 <= i < |plan| && plan[i].MountOp? && i != |plan| - 2 ==> i < |plan| - 3
  {
    SetupPlanBeginning(config, join);
    SetupPlanBinds(config, join);
    SetupPlanEnd(config, join);
    var plan := SetupPlan(config, join);
    var m := |config.mounts|;
    var d := |config.devices|;
    forall i | 0 <= i < |plan|
      ensures plan[i].PivotRoot? ==> i == |plan| - 3
      ensures plan[i].Mknod? || plan[i].Symlink? ==> i < |plan| - 3
      ensures plan[i].MountOp? && i != |plan| - 2 ==> i < |plan| - 3
    {
      if 4 <= i < 4 + m {
        assert plan[4 + (i - 4)] == BindOp(config.rootfs, config.mounts[i - 4], join);
      } else if 5 + m <= i < 5 + m + d {
        var j := i - 5 - m;
        assert plan[5 + m + j] == MknodOp(config.rootfs, config.devices[j], join);
      }
    }
  }

  /**
   * In every run of the plan, whatever the kernel answers: a pivot that was issued is
   * the plan's own, and it comes only after every mount, device node and symlink
   * before it was issued and succeeded.
   */
  lemma PivotOnlyAfterSetup(config: NamespaceConfiguration, join: Join, outcome: Oracle, at: nat)
    ensures var plan := SetupPlan(config, join);
      var run := Execute(plan, outcome, at).executed;
      forall k :: 0 <= k < |run| && run[k].PivotRoot? ==>
        k == |plan| - 3 && run[..k] == plan[..k]
    ensures var plan := SetupPlan(config, join);
      var run := Execute(plan, outcome, at).executed;
      PivotRoot(config.rootfs.source, config.rootfs.source) in run ==>
        |run| >= |plan| - 2 && forall i :: at <= i < at + |plan| - 3 ==> outcome(i).None?
  {
    var plan := SetupPlan(config, join);
    var run := Execute(plan, outcome, at).executed;
    ExecuteIsPrefix(plan, outcome, at);
    PivotComesLast(config, join);
    forall k | 0 <= k < |run| && run[k].PivotRoot?
      ensures k == |plan| - 3 && run[..k] == plan[..k]
    {
      assert run[k] == plan[k];
    }
    if PivotRoot(config.rootfs.source, config.rootfs.source) in run {
      var k :| 0 <= k < |run| && run[k] == PivotRoot(config.rootfs.source, config.rootfs.source);
      assert run[k] == plan[k];
      if Execute(plan, outcome, at).result.Err? {
        ExecuteStopsAtFirstFailure(plan, outcome, at);
      } else {
        ExecuteSucceeds(plan, outcome, at);
      }
    }
  }
}
