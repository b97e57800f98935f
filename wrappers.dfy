/** Optional values (JavaScript's `undefined`) and success-or-error outcomes. */
module Wrappers {

  /** `None` stands for a property or argument that is `undefined`. */
  datatype Option<+T> = None | Some(value: T) {
    function GetOr(default: T): T {
      match this
      case Some(v) => v
      case None => default
    }
  }

  /** The outcome of a call that either returns a value or throws. */
  datatype Result<+R, +E> = Success(value: R) | Failure(error: E)
}
