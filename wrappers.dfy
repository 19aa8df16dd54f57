/** Absence (PHP's null) and failure (a thrown exception) as values. */
module Wrappers {

  /** A value that may be absent; None stands for PHP's null. */
  datatype Option<+T> = None | Some(value: T)

  /** The outcome of an operation that may throw: Failure carries the exception. */
  datatype Result<+R, +E> = Success(value: R) | Failure(error: E)
}
