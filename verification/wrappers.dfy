/** Option and Result, the two failure-carrying datatypes the model uses in
    place of JavaScript's `undefined` and of thrown exceptions. */
module Wrappers {

  /** A value that may be absent (an `undefined` key, a missing field). */
  datatype Option<+T> = None | Some(value: T) {

    /** The value if present, otherwise `default`. */
    function GetOr(default: T): T
    {
      match this
      case Some(v) => v
      case None => default
    }
  }

  /** The outcome of a call that either returns a value or throws an error. */
  datatype Result<+R, +E> = Success(value: R) | Failure(error: E)
}
