/** Failure-carrying results shared by every module of the model. */
module Outcomes {

  /** A value that may be absent (Java's null, Scala's Option). */
  datatype Option<+T> = None | Some(value: T)

  /** The value of an operation, or the exception it raises. */
  datatype Result<+T, +E> = Ok(value: T) | Err(error: E)

  /** An operation that returns nothing but may raise an exception. */
  datatype Outcome<+E> = Pass | Fail(error: E)
}
