/** Option and Result values used for Python's `None` and for the
    exception raised by rectangle validation. */
module Wrappers {

  datatype Option<+T> = None | Some(value: T)

  datatype Result<+R, +E> = Success(value: R) | Failure(error: E)
}
