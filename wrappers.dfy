/** Option and Result, used for JavaScript's `undefined` and for failed database statements. */
module Wrappers {

  /** `None` stands for a JavaScript value that is `undefined` (a missing header, field or variable). */
  datatype Option<+T> = None | Some(value: T) {
    function GetOr(default: T): T {
      match this
      case Some(v) => v
      case None => default
    }
  }

  datatype Result<+R, +E> = Ok(value: R) | Err(error: E)
}
