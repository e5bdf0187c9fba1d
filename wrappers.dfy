/** The `Option` and `Result` datatypes shared by every module of the model. */
module Wrappers {

  /** A value that may be absent (Python's `Optional[...]`, `None`). */
  datatype Option<+T> = None | Some(value: T) {
    function GetOr(default: T): T {
      match this
      case Some(v) => v
      case None => default
    }
  }

  /** The outcome of a call that may raise: `Failure` carries the text of the exception (`str(e)`). */
  datatype Result<+R, +E> = Success(value: R) | Failure(error: E)
}
