/** Option and Result wrappers: Java's nullable references become Option, and its
    thrown exceptions become the Failure side of a Result. */
module Wrappers {

  datatype Option<+T> = None | Some(value: T) {
    /** The value, or `default` where Java would hold null. */
    function GetOr(default: T): T {
      match this
      case Some(v) => v
      case None => default
    }
  }

  datatype Result<+T, +E> = Success(value: T) | Failure(error: E)
}
