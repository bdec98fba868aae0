/** Option and Result, used where the Java code returns null or throws. */
module Wrappers {

  /** A value that may be absent, standing for a nullable Java reference. */
  datatype Option<+T> = None | Some(value: T)

  /** The outcome of an operation that either returns a value or throws. */
  datatype Result<+T, +E> = Success(value: T) | Failure(error: E)
}
