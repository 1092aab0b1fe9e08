/** Option and Result, used where the Java code returns null or throws. */
module Wrappers {

  /** A value that may be missing: the model of a Java reference that may be null. */
  datatype Option<+T> = None | Some(value: T)

  /** Either a value or the error that the Java code would throw instead. */
  datatype Result<+R, +E> = Success(value: R) | Failure(error: E)
}
