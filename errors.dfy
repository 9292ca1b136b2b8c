/**
 * The launcher's error type (crates/libcarton/src/error.rs). Only the variants
 * and the data each one is built from are kept; the formatted messages are not.
 */
module Errors {

  /** An errno value, as carried by a failed nix call. */
  type Errno = int

  datatype CartonError =
    /** A configuration value the container needs was never set; `name` says which. */
    | MissingRequiredConfiguration(name: string)
    /** The rootfs source is missing or not a directory; the message is built from that path. */
    | InvalidConfiguration(rootfsSource: string)
    | AlreadyRunning
    /** A nix call failed; every `?` on a nix result converts its error into this variant. */
    | SysCallFailed(errno: Errno)
    | NamespaceError(message: string)
    | IOError(message: string)
}
