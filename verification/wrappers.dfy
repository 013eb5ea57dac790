/** Optional values and success/error results shared by every module. */
module Wrappers {

  /** A value that may be absent (JavaScript `undefined`/`null` at a typed boundary). */
  datatype Option<+T> = None | Some(value: T) {
    function GetOr(default: T): T {
      match this
      case Some(v) => v
      case None => default
    }
  }

  /** The outcome of an operation that either produces a value or fails with an error. */
  datatype Result<+T, +E> = Ok(value: T) | Err(error: E)

  /** The outcome of a side effect that produces nothing (a store write). */
  datatype Outcome<+E> = Done | Failed(error: E)
}
