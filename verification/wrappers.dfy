/** Option and Result, the two shapes in which the service reports an
    absent value (a cache miss) or a failure (a raised exception). */
module Wrappers {

  datatype Option<+T> = None | Some(value: T)

  datatype Result<+R, +E> = Success(value: R) | Failure(error: E)
}
