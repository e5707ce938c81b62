/** Failure-compatible wrappers used throughout the model. */
module Wrappers {

  /** An optional value; `None` also stands for Go's nil slice. */
  datatype Option<+T> = None | Some(value: T)

  /** A value or the error that prevented computing it. */
  datatype Result<+T, +E> = Success(value: T) | Failure(error: E)
}
