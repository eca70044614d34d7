/** The optional value used throughout the model: JavaScript's `undefined` (and `null`) is `None`. */
module Wrappers {

  datatype Option<+T> = None | Some(value: T) {

    /** The value, or `default` when absent (the `??` operator). */
    function GetOr(default: T): T {
      match this
      case Some(v) => v
      case None => default
    }
  }

  /** The outcome of an operation that can throw: its value, or the error it raised. */
  datatype Result<+T> = Ok(value: T) | Err(error: string)
}
