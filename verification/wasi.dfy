/**
 * The slice of the WASI file interface the keep's synthetic directories use:
 * error codes, descriptor flags, open flags and file types.
 */
module Wasi {
  import opened Wrappers

  /**
   * Error codes returned to the workload. `Unclassified` stands for an error
   * raised through an error context without a WASI error code of its own.
   */
  datatype Errno = NotDir | Perm | Inval | Io | NotSupported | Exist | Unclassified

  /** Descriptor flags (`FdFlags`); a flag set is a `set<FdFlag>`. */
  datatype FdFlag = Append | Dsync | Nonblock | Rsync | Sync

  /** Open flags (`OFlags`); a flag set is a `set<OFlag>`. */
  datatype OFlag = OCreate | ODirectory | OExclusive | OTruncate

  datatype FileType = Directory | RegularFile | SocketStream

  /**
   * The blocking mode a socket open asks for: descriptor flags exactly
   * `NONBLOCK` select non-blocking mode, no flags select blocking mode, and
   * every other combination is refused.
   */
  function NonblockingFromFlags(flags: set<FdFlag>): (r: Option<bool>)
    ensures r == Some(true) <==> flags == {Nonblock}
    ensures r == Some(false) <==> flags == {}
    ensures r == None <==> flags != {} && flags != {Nonblock}
  {
    if flags == {Nonblock} then Some(true)
    else if flags == {} then Some(false)
    else None
  }
}
