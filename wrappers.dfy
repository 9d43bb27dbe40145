/** The `Option`, `Outcome` and `Result` datatypes used across the model. */
module Wrappers {

  /**
   * A value that may be missing: an absent option, the `undefined` of a
   * missing table entry, or the `false` that `format` returns.
   */
  datatype Option<+T> = None | Some(value: T)

  /** A call that either completes or throws with a message. */
  datatype Outcome<+E> = Pass | Fail(error: E)

  /** A call that either produces a value or throws with a message. */
  datatype Result<+R, +E> = Success(value: R) | Failure(error: E)
}
