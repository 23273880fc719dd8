/** Option and Result, the failure-carrying wrappers used throughout the model. */
module Wrappers {

  /** A value that may be absent: JavaScript's `undefined` or a missing key. */
  datatype Option<+T> = None | Some(value: T) {
    function GetOr(default: T): T {
      match this
      case Some(v) => v
      case None => default
    }
  }

  /** The outcome of a handler: a value, or the error passed to `next(err)`. */
  datatype Result<+R, +E> = Success(value: R) | Failure(error: E)
}
