/** Optional values and error-carrying results, used for the command's optional
    flags and for the error paths of every command. */
module Wrappers {

  /** A value that may be absent: an optional command-line flag. */
  datatype Option<+T> = None | Some(value: T)

  /** The outcome of a command that produces a value. */
  datatype Result<+T, +E> = Success(value: T) | Failure(error: E)

  /** The outcome of a command that produces no value. */
  datatype Outcome<+E> = Pass | Fail(error: E)
}
