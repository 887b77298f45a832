/** Option and Result values used across the model in place of `null`,
    `undefined` and thrown errors. */
module Wrappers {

  datatype Option<+T> = None | Some(value: T) {
    /** The value, or `default` when there is none (JavaScript's `x || d` on a nullable). */
    function GetOr(default: T): T
    {
      match this
      case Some(v) => v
      case None => default
    }
  }

  datatype Result<+T, +E> = Success(value: T) | Failure(error: E) {
    predicate IsFailure() { Failure? }
  }

  /** Pass or Fail, for operations that resolve to nothing on success. */
  datatype Outcome<+E> = Pass | Fail(error: E)
}
