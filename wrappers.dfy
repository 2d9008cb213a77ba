/** Option and Result, used for Java's nullable values and thrown exceptions. */
module Wrappers {

  /** A value that may be absent (a Java `null` or a missing entry). */
  datatype Option<+T> = None | Some(value: T)

  /** Either a value or the error that Java would have thrown instead. */
  datatype Result<+R, +E> = Success(value: R) | Failure(error: E)
}
