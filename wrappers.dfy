/** Option and Result: Java's null references and thrown exceptions, made explicit. */
module Wrappers {

  /** A possibly-null reference: None stands for Java's null. */
  datatype Option<+T> = None | Some(value: T)

  /** The outcome of a call that either returns a value or raises an error. */
  datatype Result<+T, +E> = Success(value: T) | Failure(error: E)
}
