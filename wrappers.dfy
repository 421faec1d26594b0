/** Option and Result values used across the model in place of JavaScript's
    `null`/`undefined` and of thrown errors. */
module Wrappers {

  datatype Option<+T> = None | Some(value: T) {
    function GetOr(default: T): T {
      match this
      case Some(v) => v
      case None => default
    }
  }

  /** The outcome of an operation that the source lets throw: `Failure(message)`
      stands for the thrown `Error(message)`. */
  datatype Result<+T> = Success(value: T) | Failure(error: string)
}
