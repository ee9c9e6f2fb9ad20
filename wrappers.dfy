/** Option and Result: the explicit forms of JavaScript's `null`/`undefined` and of a thrown error. */
module Wrappers {

  /** `None` stands for a JavaScript `null` or `undefined`. */
  datatype Option<+T> = None | Some(value: T) {
    function GetOr(default: T): T {
      match this
      case Some(v) => v
      case None => default
    }
  }

  /** `Err` stands for an exception the JavaScript code throws (its message). */
  datatype Result<+T> = Ok(value: T) | Err(message: string)
}
