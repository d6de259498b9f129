/** Option and Result: Go's `nil`-or-value and `(value, error)` returns. */
module Wrappers {

  /** `None` stands for Go's `nil` error, `Some(e)` for a returned error `e`. */
  datatype Option<+T> = None | Some(value: T)

  /** A value together with the error that replaces it on failure. */
  datatype Result<+R, +E> = Success(value: R) | Failure(error: E)
}
