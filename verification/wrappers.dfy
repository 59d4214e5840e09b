/** Option and result types shared by the scanner model. */
module Wrappers {

  /** A value that may be absent; stands for a nullable value (`?T`). */
  datatype Option<+T> = None | Some(value: T)

  /** The outcome of a consumer: a value, or the fatal error that aborted the scan. */
  datatype Result<+T, +E> = Success(value: T) | Failure(error: E)
}
