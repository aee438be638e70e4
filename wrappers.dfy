/** Optional values and results with an error, as used by the analyzer. */
module Wrappers {

  /** A value that may be absent: Python's `None`, or an empty mapping. */
  datatype Option<+T> = None | Some(value: T) {
    function GetOr(default: T): T {
      match this
      case Some(v) => v
      case None => default
    }
  }

  /** Either a computed value or the reason the computation was refused. */
  datatype Result<+T, +E> = Success(value: T) | Failure(error: E)
}
