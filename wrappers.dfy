/** Optional values and error-or-value results shared by the other modules. */
module Wrappers {

  /** Python's `Optional[T]`: `None` or a value. */
  datatype Option<+T> = None | Some(value: T)

  /** The value of a Python call that either returns or raises. */
  datatype Result<+T, +E> = Success(value: T) | Failure(error: E)
}
