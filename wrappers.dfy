/** Optional values and success-or-error results, used for Go's `(T, bool)` and `(T, error)` returns. */
module Wrappers {

  datatype Option<+T> = None | Some(value: T)

  datatype Result<+T, +E> = Success(value: T) | Failure(error: E)
}
