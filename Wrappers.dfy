/** Optional values and results with an error, used for TDLib's nullable fields and the service's replies. */
module Wrappers {

  datatype Option<+T> = None | Some(value: T)

  datatype Result<+T, +E> = Success(value: T) | Failure(error: E)
}
