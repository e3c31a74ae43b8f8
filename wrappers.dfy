/** Failure-compatible wrappers used across the model: `null`-able values and
    operations that either return a value or throw. */
module Wrappers {
  datatype Option<+T> = None | Some(value: T)

  datatype Result<+R, +E> = Success(value: R) | Failure(error: E)
}
