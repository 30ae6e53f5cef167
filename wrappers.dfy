/** The optional value used for Kotlin's nullable types and for operations that may fail. */
module Wrappers {
  datatype Option<+T> = None | Some(value: T) {
    /** Kotlin's `?:` with a default on the right. */
    function GetOr(default: T): T {
      match this
      case Some(v) => v
      case None => default
    }
  }
}
