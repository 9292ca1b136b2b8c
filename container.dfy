/**
 * The container itself (crates/libcarton/src/container.rs): its configuration, the
 * mount records, device nodes, the validation of a configuration, the lifecycle of
 * the container's process and the argument vector handed to execv.
 */
module Containers {
  import opened Wrappers
  import opened Errors
  import opened Kernel

  datatype ContainerState = NotCreated | Running | Exited

  /** A process id in the host's pid namespace. */
  type Pid = int

  /** One mount: `relativeTarget` is taken relative to the rootfs it is mounted under. */
  datatype Mount = Mount(
    source: Option<Path>,
    relativeTarget: Path,
    fstype: Option<string>,
    flags: set<MsFlag>,
    data: Option<string>)

  /** A device node to create under the container's /dev; `path` excludes the "/dev/" prefix. */
  datatype DeviceNode = DeviceNode(path: Path, major: U64, minor: U64)

  datatype ContainerConfiguration = ContainerConfiguration(
    rootfs: Option<Mount>,
    command: Option<Path>,
    arguments: seq<string>,
    mounts: seq<Mount>,
    devices: seq<DeviceNode>)

  /** `ContainerConfiguration::default()`: nothing set, no arguments, mounts or devices. */
  const DefaultConfiguration := ContainerConfiguration(None, None, [], [], [])

  /**
   * Validation unwraps the rootfs's source path and panics when it is absent; a
   * configuration whose rootfs has a source is one validation can be run on.
   */
  predicate RootfsHasSource(config: ContainerConfiguration) {
    config.rootfs.Some? ==> config.rootfs.value.source.Some?
  }

  /**
   * `ContainerConfiguration::validate`: checks, in this order, that a rootfs is set,
   * that its source is a directory (`isDir` stands for `Path::is_dir`) and that a
   * command is set, and reports the first check that fails.
   */
  function Validate(config: ContainerConfiguration, isDir: Path -> bool): (r: Result<(), CartonError>)
    requires RootfsHasSource(config)
    ensures r.Ok? <==>
      config.rootfs.Some? && isDir(config.rootfs.value.source.value) && config.command.Some?
    ensures config.rootfs.None? ==> r == Err(MissingRequiredConfiguration("rootfs"))
    ensures config.rootfs.Some? && !isDir(config.rootfs.value.source.value) ==>
      r == Err(InvalidConfiguration(config.rootfs.value.source.value))
    ensures config.rootfs.Some? && isDir(config.rootfs.value.source.value) && config.command.None? ==>
      r == Err(MissingRequiredConfiguration("command"))
  {
    match config.rootfs
    case None => Err(MissingRequiredConfiguration("rootfs"))
    case Some(rootSpec) =>
      if !isDir(rootSpec.source.value) then Err(InvalidConfiguration(rootSpec.source.value))
      else if config.command.None? then Err(MissingRequiredConfiguration("command"))
      else Ok(())
  }

  /** A bind mount: it shares an existing directory, so it has a source and no filesystem type. */
  predicate IsBindMount(m: Mount) {
    m.source.Some? && m.fstype.None?
  }

  /** A fresh kernel filesystem of type `fstype`: no source, no flags, no data. */
  predicate IsPseudoFilesystem(m: Mount, fstype: string) {
    m.source.None? && m.fstype == Some(fstype) && m.flags == {} && m.data.None?
  }

  /** `Mount::bind`: flags default to MS_BIND | MS_PRIVATE when none are given. */
  function Bind(source: Path, relativeTarget: Path, flags: Option<set<MsFlag>>, data: Option<string>): (m: Mount)
    ensures IsBindMount(m) && m.source == Some(source)
    ensures m.relativeTarget == relativeTarget && m.data == data
    ensures flags.None? ==> m.flags == BindPrivate
    ensures flags.Some? ==> m.flags == flags.value
  {
    Mount(Some(source), relativeTarget, None, if flags.Some? then flags.value else BindPrivate, data)
  }

  /** `Mount::procfs`: a proc filesystem at `relativeTarget`. */
  function Procfs(relativeTarget: Path): (m: Mount)
    ensures IsPseudoFilesystem(m, "proc") && m.relativeTarget == relativeTarget
  {
    Mount(None, relativeTarget, Some("proc"), {}, None)
  }

  /** `Mount::rootfs`: the rootfs is bound onto itself, so its relative target is empty. */
  function Rootfs(source: Path): (m: Mount)
    ensures IsBindMount(m) && m.source == Some(source)
    ensures m.relativeTarget == "" && m.flags == BindPrivate && m.data.None?
  {
    Mount(Some(source), "", None, BindPrivate, None)
  }

  /** `Mount::tmpfs`: a tmpfs filesystem at `relativeTarget`. */
  function Tmpfs(relativeTarget: Path): (m: Mount)
    ensures IsPseudoFilesystem(m, "tmpfs") && m.relativeTarget == relativeTarget
  {
    Mount(None, relativeTarget, Some("tmpfs"), {}, None)
  }

  /**
   * `Mount::mount`: mounts `m` at `rootfsPath` joined with its relative target
   * (`join` stands for `Path::join`) and returns that path.
   */
  method MountAt(m: Mount, host: Host, rootfsPath: Path, join: (Path, Path) -> Path)
    returns (r: Result<Path, CartonError>)
    modifies host
    ensures host.trace == old(host.trace) + [MountOp(m.source, join(rootfsPath, m.relativeTarget), m.fstype, m.flags, m.data)]
    ensures r.Ok? <==> host.outcome(|old(host.trace)|).None?
    ensures r.Ok? ==> r.value == join(rootfsPath, m.relativeTarget)
    ensures r.Err? ==> r.error == SysCallFailed(host.outcome(|old(host.trace)|).value)
  {
    var mountPath := join(rootfsPath, m.relativeTarget);
    var res := host.Syscall(MountOp(m.source, mountPath, m.fstype, m.flags, m.data));
    if res.Err? {
      return Err(res.error);
    }
    r := Ok(mountPath);
  }

  /** The namespaces the container's process is cloned into. */
  datatype CloneFlag = CloneNewUts | CloneNewNs | CloneNewPid

  /** The signal the kernel sends the parent when the child exits. */
  datatype Signal = SigChld

  datatype CloneRequest = CloneRequest(flags: set<CloneFlag>, exitSignal: Signal)

  /** What `Container::run` asks `clone` for: new UTS, mount and pid namespaces, SIGCHLD on exit. */
  const ContainerClone := CloneRequest({CloneNewUts, CloneNewNs, CloneNewPid}, SigChld)

  /** What `waitpid` may report. */
  datatype WaitOutcome = ExitedWith(pid: Pid, code: int) | OtherStatus | WaitFailed(errno: Errno)

  class Container {
    var state: ContainerState
    var pid: Option<Pid>
    var config: ContainerConfiguration
    /** The memory the child process runs its stack in. */
    var stack: seq<U8>

    /** The container has a process exactly while it is running. */
    ghost predicate Valid()
      reads this
    {
      (state == Running) <==> pid.Some?
    }

    /** `Container { config, buffer, ..Default::default() }`: not created yet, no process. */
    constructor (config: ContainerConfiguration, stack: seq<U8>)
      ensures Valid()
      ensures state == NotCreated && pid == None
      ensures this.config == config && this.stack == stack
    {
      state := NotCreated;
      pid := None;
      this.config := config;
      this.stack := stack;
    }

    /**
     * `Container::run`: refuses a running container, validates the configuration,
     * then clones the child (`clone` stands for the kernel's answer to the request)
     * and records its pid. Every failure leaves the state and the pid as they were.
     */
    method Run(isDir: Path -> bool, clone: CloneRequest -> Result<Pid, Errno>) returns (r: Result<(), CartonError>)
      requires Valid() && (state != Running ==> RootfsHasSource(config))
      modifies this`state, this`pid
      ensures Valid()
      ensures r.Err? ==> state == old(state) && pid == old(pid)
      ensures old(state) == Running ==> r == Err(AlreadyRunning)
      ensures old(state) != Running && Validate(config, isDir).Err? ==> r == Validate(config, isDir)
      ensures old(state) != Running && Validate(config, isDir).Ok? && clone(ContainerClone).Err? ==>
        r == Err(SysCallFailed(clone(ContainerClone).error))
      ensures r.Ok? <==> old(state) != Running && Validate(config, isDir).Ok? && clone(ContainerClone).Ok?
      ensures r.Ok? ==> state == Running && pid == Some(clone(ContainerClone).value)
    {
      if state == Running {
        return Err(AlreadyRunning);
      }
      var valid := Validate(config, isDir);
      if valid.Err? {
        return valid;
      }
      var child := clone(ContainerClone);
      if child.Err? {
        return Err(SysCallFailed(child.error));
      }
      pid := Some(child.value);
      state := Running;
      r := Ok(());
    }

    /**
     * `Container::wait_for_exit`: waits for the child, and whatever `waitpid`
     * reports, forgets the pid and marks the container exited.
     */
    method WaitForExit(reported: WaitOutcome)
      modifies this`state, this`pid
      ensures Valid()
      ensures state == Exited && pid == None
    {
      pid := None;
      state := Exited;
    }
  }

  /** A C string: `CString::new` refuses a string holding a NUL character. */
  type CString = s: string | '\0' !in s

  /** What `execute_command` ends in: a status returned to the caller, or a call to execv. */
  datatype CommandOutcome =
    | ReturnStatus(status: int)
    | Execv(program: CString, argv: seq<CString>)

  /**
   * `execute_command`: turns the command and each argument into C strings, puts
   * the command in front as argv[0] and replaces the process image with it.
   * A command that is not a C string makes it return 126 instead.
   */
  method ExecuteCommand(command: Path, arguments: seq<string>) returns (r: CommandOutcome)
    requires '\0' !in command ==> forall i :: 0 <= i < |arguments| ==> '\0' !in arguments[i]
    ensures r.ReturnStatus? <==> '\0' in command
    ensures r.ReturnStatus? ==> r.status == 126
    ensures r.Execv? ==> r.program == command && |r.argv| == |arguments| + 1 && r.argv[0] == command
    ensures r.Execv? ==> forall i :: 0 <= i < |arguments| ==> r.argv[i + 1] == arguments[i]
  {
    if '\0' in command {
      return ReturnStatus(126);
    }
    var cCmd: CString := command;
    var cArgs: seq<CString> := [];
    var i := 0;
    while i < |arguments|
      invariant 0 <= i <= |arguments|
      invariant |cArgs| == i
      invariant forall k :: 0 <= k < i ==> cArgs[k] == arguments[k]
    {
      var cArg: CString := arguments[i];
      cArgs := cArgs + [cArg];
      i := i + 1;
    }
    cArgs := [cCmd] + cArgs;
    r := Execv(cCmd, cArgs);
  }
}
