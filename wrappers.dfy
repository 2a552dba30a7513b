/** Optional values and results with an error, as the crawler's functions return them. */
module Wrappers {

  /** A value that may be absent (Python's `None`). */
  datatype Option<+T> = None | Some(value: T)

  /** A value, or the error a Python call would have raised instead. */
  datatype Result<+R, +E> = Success(value: R) | Failure(error: E)
}
