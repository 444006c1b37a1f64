/** Optional values and the result of a call that may throw. */
module Wrappers {

  /** A value that may be absent: JavaScript's `null`/`undefined`. */
  datatype Option<T> = None | Some(value: T) {
    function GetOr(default: T): T {
      match this
      case Some(v) => v
      case None => default
    }
  }

  /** The result of an awaited call that either returns a value or throws
      an error carrying a message. */
  datatype Outcome<T> = Returned(value: T) | Threw(message: string)
}
