/** Option and Result, used for JavaScript's `undefined`/`NaN` results and for thrown errors. */
module Wrappers {

  datatype Option<+T> = None | Some(value: T) {
    function GetOr(default: T): T {
      match this
      case Some(v) => v
      case None => default
    }
  }

  /** A computation that either produces a value or throws an error described by a message. */
  datatype Result<+T> = Ok(value: T) | Err(message: string)
}
