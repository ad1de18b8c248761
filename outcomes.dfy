/** Optional values and the results of operations that may end in a Java exception. */
module Outcomes {

  /** A Java reference that may be null. */
  datatype Option<T> = None | Some(value: T)

  /** Why an operation of the controller ended in an exception instead of a reply. */
  datatype Fault =
    | FallbackInstallFailed      // the manual attach-and-load of the agent failed
    | StagingFailed              // the rule text could not be written to a temp file
    | ChannelFailed(reason: string)  // the agent's control channel raised an error

  /** A reply text, or the fault that surfaced instead of it. */
  datatype Result<T> = Ok(value: T) | Err(fault: Fault)
}
