/** Option and Result, standing in for Java's nullable references and thrown exceptions. */
module Wrappers {

  /** A value that may be absent (a Java reference that may be null, or java.util.Optional). */
  datatype Option<+T> = None | Some(value: T)

  /** The outcome of an operation that may throw: its value, or the exception it raises. */
  datatype Result<+T, +E> = Success(value: T) | Failure(error: E)
}
