/** `Option` and `Result`, with `GetOr`, shared by every module of the model. */
module Wrappers {

  /** A value that may be absent: JavaScript's `undefined`/`null` next to a present value. */
  datatype Option<+T> = None | Some(value: T) {

    /** The present value, or `default` when absent (the `??` operator). */
    function GetOr(default: T): T {
      match this
      case Some(v) => v
      case None => default
    }
  }

  /** The settled state of a promise: fulfilled with a value or rejected with a thrown value. */
  datatype Result<+R, +E> = Ok(value: R) | Err(error: E)
}
