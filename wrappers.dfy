/** Failure-carrying values: a Go `(T, error)` pair becomes a Result, a nil-able
    pointer an Option. */
module Wrappers {

  datatype Option<+T> = None | Some(value: T)

  datatype Result<+T, +E> = Success(value: T) | Failure(error: E)
}
