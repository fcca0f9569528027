/** Failure-aware result types shared by the modules of this model. */
module Wrappers {

  /** A value that may be absent (an uninitialised field, a null pointer). */
  datatype Option<+T> = None | Some(value: T)

  /** The outcome of an operation that either produces a value or reports an error
      (the C++ code throws for the error case). */
  datatype Result<+R, +E> = Success(value: R) | Failure(error: E)
}
