/** The Some/None datatype that stands in for JavaScript's `null`/`undefined`,
    and the outcome of an operation that may throw. */
module Wrappers {

  datatype Option<+T> = None | Some(value: T) {

    /** `x ?? d`: the wrapped value, or the default when there is none. */
    function GetOr(default: T): T {
      match this
      case Some(v) => v
      case None => default
    }
  }

  /** A value, or the message of the error thrown instead. */
  datatype Result<+T> = Success(value: T) | Failure(error: string)
}
