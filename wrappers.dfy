/** Optional values and success/failure results, used for nullable columns,
    optional request fields and the not-found error path. */
module Wrappers {

  datatype Option<+T> = None | Some(value: T)

  datatype Result<+R, +E> = Success(value: R) | Failure(error: E)
}
