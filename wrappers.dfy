/** Optional values and results with an error, used for the nil/non-nil
    fields of the policy engine and for the error returns of the Go code. */
module Wrappers {

  /** A value that may be absent: Go's nil pointer, nil map or nil interface. */
  datatype Option<+T> = None | Some(value: T)

  /** A Go `(value, error)` pair where exactly one half is meaningful. */
  datatype Result<+T, +E> = Ok(value: T) | Err(error: E)
}
