/**
 * Optional values (Go's nil pointers), error-or-value results (Go's `(T, error)`
 * pairs) and Go's bytes.
 */
module Wrappers {

  datatype Option<+T> = None | Some(value: T) {
    /** The value, or `default` when absent: go-github's nil-safe getters. */
    function GetOr(default: T): T {
      match this
      case Some(v) => v
      case None => default
    }
  }

  datatype Result<+T, +E> = Success(value: T) | Failure(error: E)

  type byte = b: int | 0 <= b < 256
}
