/** Failure-compatible wrappers shared by every module of the model. */
module Wrappers {

  /** An optional value: `undefined` (or an absent property) versus a present value. */
  datatype Option<+T> = None | Some(value: T) {
    function GetOr(default: T): T {
      match this
      case Some(v) => v
      case None => default
    }
  }

  /** The outcome of a call that either returns a value or throws / rejects with an error. */
  datatype Result<+T, +E> = Success(value: T) | Failure(error: E)
}
