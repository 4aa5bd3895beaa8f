/** Optional values and success/failure results, used in place of Go's nil
    pointers and `(value, error)` pairs. */
module Wrappers {

  /** A Go pointer or slice that may be nil: `None` is nil. */
  datatype Option<+T> = None | Some(value: T)

  /** The outcome of an operation that either produces a value or fails. */
  datatype Result<+T, +E> = Success(value: T) | Failure(error: E)
}
