/** Optional values (Go's nil pointers) and error-carrying results (Go's `(value, err)` pairs). */
module Wrappers {

  /** A Go pointer or interface value: `None` is nil. */
  datatype Option<+T> = None | Some(value: T)

  /** A Go `(value, err)` return where exactly one side is meaningful. */
  datatype Result<+T, +E> = Success(value: T) | Failure(error: E)
}
