/** Optional values and results with an error, the two shapes the Python code
    expresses with `None` and with raised exceptions. */
module Wrappers {

  datatype Option<+T> = None | Some(value: T)

  datatype Result<+T, +E> = Success(value: T) | Failure(error: E)
}
