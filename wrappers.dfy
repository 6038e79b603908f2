/** Success/failure values used where the source throws or traps. */
module Wrappers {

  /** A value that may be absent. */
  datatype Option<+T> = None | Some(value: T)

  /** A value, or the reason there is none. */
  datatype Result<+T, +E> = Success(value: T) | Failure(error: E)

  /** Success without a value (a `Future<Void>` that completed), or the reason it failed. */
  datatype Outcome<+E> = Pass | Fail(error: E)
}
