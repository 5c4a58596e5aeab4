/** Option and Result, the two failure-carrying shapes the services return. */
module Wrappers {

  /** A value that may be absent: TypeScript's `T | undefined | null`. */
  datatype Option<+T> = None | Some(value: T) {
    /** The value, or `default` when absent: TypeScript's `??`. */
    function GetOr(default: T): T {
      match this
      case Some(v) => v
      case None => default
    }
  }

  /** Either a payload or the error an operation raises. */
  datatype Result<+T, +E> = Ok(value: T) | Err(error: E)
}
