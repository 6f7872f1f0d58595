/** Option and Result, the two failure-compatible wrappers the model uses. */
module Wrappers {

  /** A value that may be absent: a Java reference that may be null. */
  datatype Option<+T> = None | Some(value: T)

  /** Either a value or the reason an operation refused to produce one. */
  datatype Result<+R, +E> = Success(value: R) | Failure(error: E)
}
