/** Failure-carrying wrappers used in place of Java's null and exceptions. */
module Wrappers {

  /** A value that may be absent (a Java reference that may be null, or java.util.Optional). */
  datatype Option<+T> = None | Some(value: T)

  /** A returned value, or the exception that was thrown instead. */
  datatype Result<+T, +E> = Success(value: T) | Failure(error: E)

  /** Normal completion of a void operation, or the exception that ended it. */
  datatype Outcome<+E> = Pass | Fail(error: E)
}
