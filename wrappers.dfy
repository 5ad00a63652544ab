/** Optional values and results with an error channel, standing in for the
    source's nullable references and its exceptions. */
module Wrappers {

  /** A Java reference that may be null. */
  datatype Option<+T> = None | Some(value: T) {
    function GetOr(default: T): T {
      match this
      case Some(v) => v
      case None => default
    }
  }

  /** The value a Java call returns, or what it throws. */
  datatype Result<+T, +E> = Success(value: T) | Failure(error: E)
}
