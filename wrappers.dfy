/** Failure-compatible wrappers shared by every module of the model. */
module Wrappers {

  /** A value that may be absent: a .NET `null` reference or an empty nullable. */
  datatype Option<+T> = None | Some(value: T) {

    /** The wrapped value, or `default` when absent (what `??` does). */
    function GetOr(default: T): T {
      match this
      case Some(v) => v
      case None => default
    }
  }

  /** The outcome of an operation that either returns a value or throws. */
  datatype Result<+R, +E> = Success(value: R) | Failure(error: E)
}
