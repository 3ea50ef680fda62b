/** Optional values and success-or-failure values, used wherever the Go code has a pointer that
    may be nil or a call that may return an error. */
module Wrappers {

  datatype Option<+T> = None | Some(value: T)

  datatype Result<+T, +E> = Success(value: T) | Failure(error: E)
}
