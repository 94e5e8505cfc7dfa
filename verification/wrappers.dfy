/** Option and Result datatypes shared by every module of the model. */
module Wrappers {

  /** An absent or present value: JavaScript's `undefined` versus a value. */
  datatype Option<+T> = None | Some(value: T) {

    /** The held value, or `default` when absent. */
    function GetOr(default: T): T {
      match this
      case Some(v) => v
      case None => default
    }
  }

  /** The outcome of an operation that can throw: a value or the thrown error. */
  datatype Result<+T, +E> = Success(value: T) | Failure(error: E)
}
