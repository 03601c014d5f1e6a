/** Failure-carrying values used wherever the Python code returns `None` or swallows an exception. */
module Wrappers {

  /** `None` is Python's `None` (or an exception that was caught and dropped). */
  datatype Option<+T> = None | Some(value: T)

  /** A value or the reason there is none. */
  datatype Result<+R, +E> = Success(value: R) | Failure(error: E)
}
