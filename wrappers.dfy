/** Success-or-failure values for the model's foreign calls and error returns. */
module Wrappers {

  /** Go's `error` return value: `None` stands for `nil`. */
  datatype Option<+T> = None | Some(value: T)

  /** A Go `(value, error)` pair in which exactly one side is meaningful. */
  datatype Result<+R, +E> = Success(value: R) | Failure(error: E)
}
