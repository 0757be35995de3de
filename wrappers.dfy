/** Optional values and results with an error, for the places where the
    deployment script either has no value or stops with an error. */
module Wrappers {

  datatype Option<+T> = None | Some(value: T)

  datatype Result<+R, +E> = Success(value: R) | Failure(error: E)
}
