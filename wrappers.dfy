/** Optional values and results with an error, standing in for Python's
    `None` returns and for exceptions caught by a `try`. */
module Wrappers {

  datatype Option<+T> = None | Some(value: T)

  datatype Result<+T, +E> = Success(value: T) | Failure(error: E)
}
