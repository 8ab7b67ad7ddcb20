/** Failure-carrying result types used in place of Java's null references and
    thrown exceptions. */
module Wrappers {

  /** A value that may be absent; `None` stands for a Java `null`. */
  datatype Option<+T> = None | Some(value: T)

  /** The outcome of an operation that may fail with an error of type `E`
      instead of throwing. */
  datatype Result<+R, +E> = Success(value: R) | Failure(error: E)
}
