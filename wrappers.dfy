/** Optional values stand for the source's nullable references; results for calls that may throw. */
module Wrappers {

  /** A reference that may be null. */
  datatype Option<+T> = None | Some(value: T) {

    /** The value, or `default` when the reference is null. */
    function GetOr(default: T): T {
      match this
      case Some(v) => v
      case None => default
    }
  }

  /** Either the value a call returns or the exception it throws. */
  datatype Result<+T, +E> = Success(value: T) | Failure(error: E)
}
