/** Optional values and results with an error, as the Python code expresses
    them with `None` and with exceptions. */
module Wrappers {

  datatype Option<+T> = None | Some(value: T)

  datatype Result<+R, +E> = Success(value: R) | Failure(error: E)
}
