/** Optional values: the model's reading of a JavaScript property or argument
    that may be `undefined` (or `null`, where the source compares against it). */
module Wrappers {

  datatype Option<+T> = None | Some(value: T) {

    /** The value, or `default` when absent: JavaScript's destructuring default
        `{ x = default } = obj`. */
    function GetOr(default: T): T {
      match this
      case Some(v) => v
      case None => default
    }
  }

  /** Success or failure of an operation the source lets throw. */
  datatype Result<+R, +E> = Success(value: R) | Failure(error: E)
}
