/** Stand-ins for Java's nullable references and thrown exceptions. */
module Wrappers {

  /** A nullable value: `None` plays the part of Java's `null`. */
  datatype Option<+T> = None | Some(value: T)

  /** A value or the exception raised instead of producing it. */
  datatype Result<+R, +E> = Success(value: R) | Failure(error: E)

  /** Normal completion, or the exception that ended a `void` method. */
  datatype Outcome<+E> = Pass | Fail(error: E)
}
