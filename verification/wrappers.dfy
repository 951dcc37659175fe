/** Absent values and failing results shared by the other modules. */
module Wrappers {

  /** A value that may be missing, such as a projection that could not be built. */
  datatype Option<+T> = None | Some(value: T)

  /** The outcome of an operation that can fail with an error of type E. */
  datatype Result<+R, +E> = Success(value: R) | Failure(error: E)
}
