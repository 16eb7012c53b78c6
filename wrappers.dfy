/** Optional values and results with an error, as the functions return or throw them. */
module Wrappers {

  /** A value that may be absent (`undefined` in the source). */
  datatype Option<T> = None | Some(value: T) {

    /** The value, or `default` when absent (the `??` operator). */
    function GetOr(default: T): T {
      match this
      case Some(v) => v
      case None => default
    }
  }

  /** A call that returns a value or throws an error. */
  datatype Result<T, E> = Success(value: T) | Failure(error: E)
}
