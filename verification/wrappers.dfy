/** Failure-carrying values shared by the models: Go's `nil`-or-value pointers and
    `error` returns. */
module Wrappers {

  /** A Go pointer that may be `nil`. */
  datatype Option<+T> = None | Some(value: T)

  /** A Go `(value, error)` pair where exactly one side is meaningful. */
  datatype Result<+R, +E> = Success(value: R) | Failure(error: E)

  /** A Go `error` return: `Pass` is `nil`, `Fail(e)` is a non-nil error. */
  datatype Outcome<+E> = Pass | Fail(error: E)
}
