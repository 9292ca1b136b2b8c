# carton: a Dafny model of the container launcher's core

carton starts a command inside new UTS, mount and pid namespaces with a chosen
root filesystem. This project models the three files of its library that do this:

- `container.rs`: the configuration of a container, its mount records and device nodes, the validation of a configuration, the
  `run` / `wait_for_exit` lifecycle of the container's process, and the argument vector handed to `execv`.
- `container_builder.rs`: the builder that assembles a configuration and sizes the child's stack.
- `namespace.rs`: the setup the child performs inside its namespaces before it executes the command. It remounts "/" private, binds
  the rootfs onto itself, mounts proc, tmp, the configured binds and dev, creates device nodes and descriptor symlinks, then pivots
  into the rootfs and detaches the old root.

Modules:

- `Wrappers`: `Option` and `Result`.
- `Errors`: the `CartonError` variants of `error.rs`.
- `Kernel`: the privileged calls as values (`Op`), and the meaning of a run of calls joined by `?` (`Execute`): issue them in order
  and stop at the first that fails. It also holds `Host`, a class whose `trace` records every call issued. The kernel's answer to the
  call at position `i` of the trace is an oracle `outcome(i)`: None for success, `Some(errno)` for failure.
- `Containers`: `container.rs`. `Container` is a class whose `state` and `pid` fields `Run` and `WaitForExit` update in place.
- `Builder`: `container_builder.rs`. `ContainerBuilder` is a class whose setters update its configuration in place.
- `Namespace`: `namespace.rs`.

Each step of `setup_namespaces` is a method that issues its calls on the `Host`. It is proved to perform exactly its plan, a
function listing the calls of that step. `SetupNamespaces` is proved to perform `SetupPlan`, the seven plans laid end to end. The
lemmas about `SetupPlan` and `Execute` state the order of the calls, where each one sits, and what a failure stops.

What the environment decides is a parameter:

- `Path::join` is `join`.
- `Path::is_dir` is `isDir`.
- The result of `clone` is `clone`, applied to the request (flags and exit signal) that `run` makes.
- The soft stack rlimit is `rlimitSoft`, None when `getrlimit` fails.
- `DEFAULT_CONTAINER_STACK_SIZE` is `defaultSize`; `consts.rs` is not part of this model.

Two points about the code that the model keeps as they are:

- `run` refuses only a running container (`container.rs` line 31), so an exited container can be run again, and the model
  allows this (`Container.Run`).
- `namespace.rs` reads a `MountSpecification` (a `source` and a `destination`) for the rootfs and for each mount. `container.rs`
  does not define this type: its configuration holds `Mount` records instead. The model gives `namespace.rs` its own
  `NamespaceConfiguration` of `MountSpecification`s and does not connect it to `ContainerConfiguration`.

## Model

| member | source | states |
|---|---|---|
| Kernel.StepResult | crates/libcarton/src/error.rs:29-33 | a nix call's `?` succeeds exactly when the call succeeded; a failure becomes `SysCallFailed` with its errno |
| Kernel.ExecuteIsPrefix | crates/libcarton/src/namespace.rs:15-28 | whatever the kernel answers, the calls issued are the plan's first calls, in the plan's order |
| Kernel.ExecuteSucceeds | crates/libcarton/src/namespace.rs:15-28 | a run of calls joined by `?` succeeds if and only if every call in it succeeds, and then every call was issued |
| Kernel.ExecuteStopsAtFirstFailure | crates/libcarton/src/namespace.rs:15-28 | a failed run stops at its first failing call: every earlier call succeeded, no later call was issued, and that call's errno is the error returned |
| Kernel.ExecuteAppend | crates/libcarton/src/namespace.rs:15-28 | joining two runs with `?`: the second starts only if the first succeeded, at the following trace position |
| Kernel.Host.Syscall | crates/libcarton/src/namespace.rs:38-44 | one nix call followed by `?`: the call is appended to the trace and its result is the kernel's answer for that position |
| Containers.Validate | crates/libcarton/src/container.rs:102-125 | the checks run in order: a missing rootfs gives MissingRequiredConfiguration("rootfs"), a rootfs source that is not a directory gives InvalidConfiguration for that path, a missing command gives MissingRequiredConfiguration("command"); Ok exactly when all three pass |
| Containers.Bind | crates/libcarton/src/container.rs:155-168 | a bind mount has the given source, target and data and no filesystem type; missing flags default to MS_BIND, MS_PRIVATE |
| Containers.Procfs | crates/libcarton/src/container.rs:172-180 | a proc filesystem at the target, with no source, no flags and no data |
| Containers.Rootfs | crates/libcarton/src/container.rs:182-190 | the rootfs binds its source with an empty relative target and MS_BIND, MS_PRIVATE |
| Containers.Tmpfs | crates/libcarton/src/container.rs:192-200 | a tmpfs filesystem at the target, with no source, no flags and no data |
| Containers.MountAt | crates/libcarton/src/container.rs:203-225 | issues one mount at the rootfs path joined with the relative target; it returns that path exactly when the mount succeeds, and it returns the mount's error otherwise |
| Containers.Container.constructor | crates/libcarton/src/container.rs:18-27 | a new container has not been created and has no pid |
| Containers.Container.Run | crates/libcarton/src/container.rs:30-68 | a running container gives AlreadyRunning; a validation error is returned as is; a failed clone gives SysCallFailed; every failure leaves state and pid unchanged; success exactly when none of these occur, and then the state is Running and the pid is the cloned child's |
| Containers.Container.WaitForExit | crates/libcarton/src/container.rs:70-84 | whatever `waitpid` reports, the container ends Exited with no pid |
| Containers.ExecuteCommand | crates/libcarton/src/container.rs:238-252 | a command holding a NUL returns 126; otherwise execv gets the command as the program and an argv one longer than the arguments, with the command first and the arguments after it in order |
| Builder.DetermineStackSize | crates/libcarton/src/container_builder.rs:117-135 | an explicit size wins over the rlimit, then the rlimit, then the default; a chosen u64::MAX gives the default |
| Builder.ExplicitSizeIgnoresRlimit | crates/libcarton/src/container_builder.rs:117-123 | with an explicit size the rlimit never changes the result |
| Builder.StackSizeIsDefaultExactlyWhen | crates/libcarton/src/container_builder.rs:117-135 | the size is the default exactly when nothing was chosen, u64::MAX was chosen, or the default itself was chosen |
| Builder.ContainerBuilder.constructor | crates/libcarton/src/container_builder.rs:19-21 | a new builder has no stack size and the default configuration |
| Builder.ContainerBuilder.SetRootfs | crates/libcarton/src/container_builder.rs:23-27 | replaces any earlier rootfs with a rootfs mount of the path; nothing else changes |
| Builder.ContainerBuilder.SetCommand | crates/libcarton/src/container_builder.rs:29-33 | sets the command, and the arguments to the given ones or to none; nothing else changes |
| Builder.ContainerBuilder.SetStackSize | crates/libcarton/src/container_builder.rs:35-38 | records the explicit stack size |
| Builder.ContainerBuilder.AddDefaultMounts | crates/libcarton/src/container_builder.rs:41-49 | appends proc at "proc", tmpfs at "tmp" and tmpfs at "dev", in that order, after the earlier mounts; nothing else changes |
| Builder.ContainerBuilder.AddMount | crates/libcarton/src/container_builder.rs:51-56 | appends one bind mount with MS_BIND, MS_PRIVATE; nothing else changes |
| Builder.ContainerBuilder.AddDefaultDevices | crates/libcarton/src/container_builder.rs:58-93 | appends null (1,3), zero (1,5), full (1,7), tty (5,0), urandom (1,9) and random (1,8), in that order; nothing else changes |
| Builder.ContainerBuilder.AddDevice | crates/libcarton/src/container_builder.rs:95-103 | appends one device node; nothing else changes |
| Builder.ContainerBuilder.Build | crates/libcarton/src/container_builder.rs:105-115 | always succeeds, with a new container that has not been created, has no pid, owns the builder's configuration and a zero-filled stack of the determined size |
| Namespace.PrepareRootfs | crates/libcarton/src/namespace.rs:35-56 | remounts "/" recursive and private, then (only if that succeeded) binds the rootfs source onto itself |
| Namespace.MountProcfs | crates/libcarton/src/namespace.rs:60-73 | mounts proc at the rootfs joined with "proc", with no flags |
| Namespace.MountTmp | crates/libcarton/src/namespace.rs:76-89 | mounts tmpfs at the rootfs joined with "tmp", with no flags |
| Namespace.MountAdditionalBinds | crates/libcarton/src/namespace.rs:91-106 | one private bind per configured mount, in order, each at the rootfs joined with its destination, stopping at the first failure |
| Namespace.MountDev | crates/libcarton/src/namespace.rs:109-122 | mounts tmpfs at the rootfs joined with "dev", with no flags |
| Namespace.CreateDeviceNodes | crates/libcarton/src/namespace.rs:124-147 | one character-device mknod per configured node, in order, with mode 0666 and the node's numbers, then the fd, stdin, stdout and stderr symlinks, stopping at the first failure |
| Namespace.MountRootfs | crates/libcarton/src/namespace.rs:152-179 | pivots into the rootfs with the old root put on the same path, remounts "/" as a recursive slave, then detaches "/" lazily, stopping at the first failure |
| Namespace.SetupNamespaces | crates/libcarton/src/namespace.rs:15-28 | performs the seven steps in their fixed order as one run: a step runs only if every earlier one succeeded, and the first error is returned |
| Namespace.AbortSetup | crates/libcarton/src/namespace.rs:15-28 | once a step has failed, the whole setup has failed with that error and no later step's call is issued |
| Namespace.SetupPlanParts | crates/libcarton/src/namespace.rs:15-28 | the setup is the prepare, proc, tmp, binds, dev, device-node and pivot steps, laid end to end in that order |
| Namespace.SetupPlanBeginning | crates/libcarton/src/namespace.rs:35-89 | the setup holds twelve calls besides one per mount and one per device; it begins with the private remount of "/", the rootfs bound onto itself, then proc and tmp at their joined paths |
| Namespace.SetupPlanBinds | crates/libcarton/src/namespace.rs:91-122 | after tmp come the configured binds, in order, then the tmpfs on dev |
| Namespace.SetupPlanEnd | crates/libcarton/src/namespace.rs:124-179 | after dev come the mknods in configuration order with mode 0666 and each node's numbers, then exactly four symlinks, then the pivot, the slave remount of "/" and the detach of the old root as the last three calls |
| Namespace.PivotComesLast | crates/libcarton/src/namespace.rs:15-28 | the pivot is the only pivot of the setup and is the third call from the end, followed only by the slave remount and the detach; every mknod, symlink and mount except the following slave remount comes before it |
| Namespace.PivotOnlyAfterSetup | crates/libcarton/src/namespace.rs:15-28 | whatever the kernel answers, a pivot that is issued is the setup's own; every call before it was issued and succeeded |

## Left out

- The calls themselves. Mount, mknod, symlinkat, pivot_root, umount2, clone, waitpid, getrlimit and execv are not carried out. A
  mount, mknod, symlink, pivot or umount is recorded in the host's trace, and the kernel's answer is an oracle.
- `Path::join` and `Path::is_dir` are abstract parameters. Path normalisation (for instance, joining an absolute destination) is
  not modelled.
- Containers.Bind: `Mount::bind` accepts any `MsFlags`, but the model's `MsFlag` can represent only the four flags the launcher
  passes (MS_BIND, MS_PRIVATE, MS_REC, MS_SLAVE), so a bind with any other flag cannot be expressed.
- The encoding of `makedev(major, minor)` is kept as the pair of numbers. The mode is the number 0666, not a `Mode` bit set.
- Errors: `SysCallFailed` carries the errno, not nix's formatted message, and `InvalidConfiguration` carries the rootfs path, not
  the formatted text. The `From<std::io::Error>` conversion is not modelled, because no core operation produces an I/O error.
- Logging (`info!`, `warn!`, `error!`) is not modelled; it has no effect on state.
- Containers.Container.Run: the child's side of `clone` is not modelled. In the child, `setup_namespaces`, `chdir("/")` and
  `execute_command` run; these are modelled separately as `SetupNamespaces` and `ExecuteCommand`, and `Run` is not connected to
  them. The stack buffer handed to `clone` and its sharing with the child are not modelled either.
- Containers.Validate requires a rootfs with a source, because validation panics through `expect` otherwise.
- Containers.Container.Run requires a rootfs with a source only when the container is not running, since a running
  container is refused before validation.
- Containers.ExecuteCommand requires arguments free of NUL when the command is free of NUL, because `CString::new(..).expect`
  panics on such an argument; a command holding a NUL returns 126 before any argument is looked at. It does
  not model `to_str().unwrap()` on a non-UTF-8 path, since paths here are strings. A failing execv panics through `unwrap` and is
  left out. A successful execv replaces the process image, and is not modelled beyond its arguments.
- Containers.Container.WaitForExit: the reported status is only logged by the source, so it takes the status and ignores it.
- Builder.ContainerBuilder.Build and Builder.DetermineStackSize: the model assumes a 64-bit `usize`, so the cast `size as usize`
  is the identity; on a 32-bit target that cast would truncate the size, which is not modelled. Running out of memory while allocating the stack is not modelled.
- Builder.ContainerBuilder setters: the source's setters take the builder by value and return it for chaining. Here they update
  the builder in place, which gives the same results.
- The command-line binary (`carton_bin`) and `consts.rs` are not part of this model.
