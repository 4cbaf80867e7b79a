/** Optional values and results with an error message, standing for the
    `undefined`/`null` and thrown-`Error` conventions of the editor code. */
module Wrappers {

  datatype Option<+T> = None | Some(value: T) {
    /** The value, or `default` when absent (the `??` operator). */
    function GetOr(default: T): T {
      match this
      case Some(v) => v
      case None => default
    }
  }

  /** A computation that either produced a value or rejected with a message. */
  datatype Result<+T> = Ok(value: T) | Err(message: string)
}
