/** Option and Result: stand-ins for Python's `None` and for raised exceptions. */
module Wrappers {

  datatype Option<+T> = None | Some(value: T)

  /** `Failure(error)` is an exception carrying its message. */
  datatype Result<+R, +E> = Success(value: R) | Failure(error: E)
}
