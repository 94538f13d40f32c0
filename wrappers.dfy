/** Optional values and results shared by the modules of this model. */
module Wrappers {

  /** A JavaScript value that may be `undefined`: `None` stands for the missing value. */
  datatype Option<+T> = None | Some(value: T) {

    /** The `??` operator: the value when present, otherwise `default`. */
    function GetOr(default: T): T {
      match this
      case Some(v) => v
      case None => default
    }
  }

  /** The outcome of a call that either returns a value or throws an error. */
  datatype Result<+T, +E> = Success(value: T) | Failure(error: E)
}
