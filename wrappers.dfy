/** Small failure-compatible datatypes shared by the other modules. */
module Wrappers {

  /** An optional value: JavaScript's `undefined` / `null` against a present value. */
  datatype Option<+T> = None | Some(value: T) {
    function GetOr(default: T): T {
      match this
      case Some(v) => v
      case None => default
    }
  }

  /** The outcome of an awaited step that may reject with an error. */
  datatype Outcome<+E> = Pass | Fail(error: E)

  /** A value, or the error an awaited step rejected with. */
  datatype Result<+R, +E> = Success(value: R) | Failure(error: E)
}
