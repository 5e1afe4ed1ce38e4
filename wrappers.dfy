/** Failure-carrying results, standing for Go's `(value, error)` return pairs. */
module Wrappers {

  datatype Option<+T> = None | Some(value: T)

  /** `Success(v)` is a Go call returning `(v, nil)`; `Failure(e)` one returning a non-nil error `e`. */
  datatype Result<+T, +E> = Success(value: T) | Failure(error: E)
}
