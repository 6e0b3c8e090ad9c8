/** Failure-compatible wrappers standing in for Java's null returns and exceptions. */
module Wrappers {

  /** A value or nothing: models a Java reference that may be null. */
  datatype Option<+T> = None | Some(value: T)

  /** A value or the message of the exception the source throws instead. */
  datatype Result<+T> = Success(value: T) | Failure(error: string)
}
