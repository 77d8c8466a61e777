/** Option and Result, the shapes every fallible operation of the model returns. */
module Wrappers {

  /** A value that may be absent: a JavaScript `undefined`/`null` or a missing record. */
  datatype Option<+T> = None | Some(value: T) {

    /** Returns the value or the given default. */
    function GetOr(default: T): T {
      match this
      case Some(v) => v
      case None => default
    }
  }

  /** The outcome of a step that may throw: `Failure` stands for the exception. */
  datatype Result<+R, +E> = Success(value: R) | Failure(error: E)
}
