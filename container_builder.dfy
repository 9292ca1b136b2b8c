/**
 * The builder that accumulates a container's configuration
 * (crates/libcarton/src/container_builder.rs). The Rust builder consumes itself
 * and returns itself from each setter; here each setter updates the builder's
 * fields in place.
 */
module Builder {
  import opened Wrappers
  import opened Errors
  import opened Kernel
  import opened Containers

  /** The mounts `add_default_mounts` appends: /proc, then /tmp, then /dev. */
  const DefaultMounts: seq<Mount> := [Procfs("proc"), Tmpfs("tmp"), Tmpfs("dev")]

  /** The device nodes `add_default_devices` appends. */
  const DefaultDevices: seq<DeviceNode> := [
    DeviceNode("null", 1, 3),
    DeviceNode("zero", 1, 5),
    DeviceNode("full", 1, 7),
    DeviceNode("tty", 5, 0),
    DeviceNode("urandom", 1, 9),
    DeviceNode("random", 1, 8)
  ]

  /**
   * `determine_stack_size`: an explicit size, else the soft stack rlimit
   * (`rlimitSoft`, None when `getrlimit` failed), else the default; a chosen value
   * of `u64::MAX` (an unlimited rlimit) also gives the default.
   */
  function DetermineStackSize(stackSize: Option<U64>, rlimitSoft: Option<U64>, defaultSize: U64): (n: U64)
    ensures stackSize.Some? && stackSize.value != U64Max ==> n == stackSize.value
    ensures stackSize == Some(U64Max) ==> n == defaultSize
    ensures stackSize.None? && rlimitSoft.Some? && rlimitSoft.value != U64Max ==> n == rlimitSoft.value
    ensures stackSize.None? && rlimitSoft == Some(U64Max) ==> n == defaultSize
    ensures stackSize.None? && rlimitSoft.None? ==> n == defaultSize
  {
    var chosen := if stackSize.Some? then stackSize else rlimitSoft;
    match chosen
    case None => defaultSize
    case Some(size) => if size == U64Max then defaultSize else size
  }

  /** An explicit stack size wins over the rlimit: the rlimit is never consulted. */
  lemma ExplicitSizeIgnoresRlimit(size: U64, rlimit1: Option<U64>, rlimit2: Option<U64>, defaultSize: U64)
    ensures DetermineStackSize(Some(size), rlimit1, defaultSize) == DetermineStackSize(Some(size), rlimit2, defaultSize)
  {
  }

  /** The size is the default exactly when nothing usable was chosen, or the chosen size is the default itself. */
  lemma StackSizeIsDefaultExactlyWhen(stackSize: Option<U64>, rlimitSoft: Option<U64>, defaultSize: U64)
    ensures var chosen := if stackSize.Some? then stackSize else rlimitSoft;
      DetermineStackSize(stackSize, rlimitSoft, defaultSize) == defaultSize <==>
        chosen.None? || chosen.value == U64Max || chosen.value == defaultSize
  {
  }

  class ContainerBuilder {
    var stackSize: Option<U64>
    var config: ContainerConfiguration

    /** Every rootfs the builder sets has a source, so a built container can be validated. */
    ghost predicate Valid()
      reads this
    {
      RootfsHasSource(config)
    }

    /** `ContainerBuilder::new`: no stack size, the default configuration. */
    constructor ()
      ensures Valid()
      ensures stackSize == None && config == DefaultConfiguration
    {
      stackSize := None;
      config := DefaultConfiguration;
    }

    /** `rootfs`: replaces any earlier rootfs with a rootfs mount of `path`. */
    method SetRootfs(path: Path)
      requires Valid()
      modifies this`config
      ensures Valid()
      ensures config == old(config).(rootfs := Some(Rootfs(path)))
      ensures config.rootfs.value.source == Some(path)
    {
      config := config.(rootfs := Some(Rootfs(path)));
    }

    /** `command`: sets the command, and the arguments to `args` or to none at all. */
    method SetCommand(command: Path, args: Option<seq<string>>)
      requires Valid()
      modifies this`config
      ensures Valid()
      ensures config == old(config).(command := Some(command), arguments := if args.Some? then args.value else [])
    {
      config := config.(command := Some(command), arguments := if args.Some? then args.value else []);
    }

    /** `stack_size`: sets an explicit stack size. */
    method SetStackSize(size: U64)
      modifies this`stackSize
      ensures stackSize == Some(size)
    {
      stackSize := Some(size);
    }

    /** `add_default_mounts`: appends proc at "proc", tmpfs at "tmp" and tmpfs at "dev", in that order. */
    method AddDefaultMounts()
      requires Valid()
      modifies this`config
      ensures Valid()
      ensures config == old(config).(mounts := old(config).mounts + DefaultMounts)
      ensures |config.mounts| == |old(config).mounts| + 3
      ensures config.mounts[..|old(config).mounts|] == old(config).mounts
    {
      config := config.(mounts := config.mounts + DefaultMounts);
    }

    /** `add_mount`: appends one bind mount of `source` at `relativeTarget` with MS_BIND | MS_PRIVATE. */
    method AddMount(source: Path, relativeTarget: Path)
      requires Valid()
      modifies this`config
      ensures Valid()
      ensures config == old(config).(mounts := old(config).mounts + [Bind(source, relativeTarget, None, None)])
      ensures config.mounts[|config.mounts| - 1].flags == BindPrivate
    {
      config := config.(mounts := config.mounts + [Bind(source, relativeTarget, None, None)]);
    }

    /** `add_default_devices`: appends null, zero, full, tty, urandom and random, in that order. */
    method AddDefaultDevices()
      requires Valid()
      modifies this`config
      ensures Valid()
      ensures config == old(config).(devices := old(config).devices + DefaultDevices)
      ensures |config.devices| == |old(config).devices| + 6
    {
      config := config.(devices := config.devices + DefaultDevices);
    }

    /** `add_device`: appends one device node. */
    method AddDevice(path: Path, major: U64, minor: U64)
      requires Valid()
      modifies this`config
      ensures Valid()
      ensures config == old(config).(devices := old(config).devices + [DeviceNode(path, major, minor)])
    {
      config := config.(devices := config.devices + [DeviceNode(path, major, minor)]);
    }

    /**
     * `build`: always succeeds, with a container that has not been created yet,
     * owns the builder's configuration and a zero-filled stack of the determined size.
     */
    method Build(rlimitSoft: Option<U64>, defaultSize: U64) returns (r: Result<Container, CartonError>)
      requires Valid()
      ensures r.Ok? && fresh(r.value)
      ensures r.value.config == config && RootfsHasSource(r.value.config)
      ensures r.value.state == NotCreated && r.value.pid == None && r.value.Valid()
      ensures |r.value.stack| == DetermineStackSize(stackSize, rlimitSoft, defaultSize)
      ensures forall i :: 0 <= i < |r.value.stack| ==> r.value.stack[i] == 0
    {
      var size := DetermineStackSize(stackSize, rlimitSoft, defaultSize);
      var c := new Container(config, seq(size, _ => 0));
      r := Ok(c);
    }
  }
}
