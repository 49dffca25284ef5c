/** Java's `null` and thrown exceptions, as values. */
module Wrappers {

  /** A reference that may be `null` (`None`). */
  datatype Option<+T> = None | Some(value: T)

  /** A call that returns a value or throws an exception. */
  datatype Result<+R, +E> = Success(value: R) | Failure(error: E)

  /** A `void` call that returns normally or throws an exception. */
  datatype Outcome<+E> = Pass | Fail(error: E)
}
