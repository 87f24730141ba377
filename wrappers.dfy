/** Option/Result/Outcome values used in place of Python's None and exceptions. */
module Wrappers {

  datatype Option<+T> = None | Some(value: T)

  datatype Result<+R, +E> = Success(value: R) | Failure(error: E)

  /** The outcome of a check that returns nothing when it passes. */
  datatype Outcome<+E> = Pass | Fail(error: E)

  /** A field of an inbound JSON object: left out of the object, or given. */
  datatype Field<+T> = Absent | Present(value: T)
}
