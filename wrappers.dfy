/** Option, Result and Outcome: the shapes of Go's `(value, error)` and `error` returns. */
module Wrappers {

  datatype Option<+T> = None | Some(value: T)

  /** A Go function returning `(T, error)`: either a value or an error. */
  datatype Result<+T, +E> = Success(value: T) | Failure(error: E)

  /** A Go function returning only `error`: nil (Pass) or an error (Fail). */
  datatype Outcome<+E> = Pass | Fail(error: E)
}
