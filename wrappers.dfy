/** Option and Result: the nil slices and (value, error) pairs of the runner. */
module Wrappers {

  /** A value that may be missing, such as a command slice that is nil. */
  datatype Option<+T> = None | Some(value: T)

  /** The (result, error) pair of a Go function that can fail. */
  datatype Result<+R, +E> = Success(value: R) | Failure(error: E)
}
