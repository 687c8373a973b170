/** Failure-compatible wrappers shared by the model. */
module Wrappers {

  /** A value that may be absent (JavaScript `undefined`). */
  datatype Option<+T> = None | Some(value: T) {

    /** The wrapped value, or `default` when absent (JavaScript `??`). */
    function GetOr(default: T): T {
      match this
      case Some(v) => v
      case None => default
    }
  }

  /** The value an operation returns, or the error it throws. */
  datatype Result<+T, +E> = Ok(value: T) | Err(error: E)
}
