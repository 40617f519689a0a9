/** Option and Result, used for Java's null and for operations that fail. */
module Wrappers {

  /** `None` stands for Java's `null`. */
  datatype Option<+T> = None | Some(value: T)

  /** The value of an operation, or the error it raised. */
  datatype Result<+T, +E> = Success(value: T) | Failure(error: E)
}
