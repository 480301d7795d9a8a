/** Stand-ins for Java's nullable references and raised exceptions. */
module Wrappers {

  /** A Java reference that may be null. */
  datatype Option<+T> = None | Some(value: T)

  /** The result of an operation that either returns a value or raises. */
  datatype Result<+R, +E> = Success(value: R) | Failure(error: E)

  /** The result of a check that returns nothing or raises. */
  datatype Outcome<+E> = Pass | Fail(error: E)
}
