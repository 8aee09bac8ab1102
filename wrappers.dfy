/** Wrappers used throughout the model: an optional value, a
    value-or-error result, and a pass-or-error outcome for operations that
    return nothing. The source's synchronous `throw`s become `Failure`/`Fail`. */
module Wrappers {

  datatype Option<+T> = None | Some(value: T) {
    function GetOr(default: T): T {
      match this
      case Some(v) => v
      case None => default
    }
  }

  datatype Result<+T, +E> = Success(value: T) | Failure(error: E)

  datatype Outcome<+E> = Pass | Fail(error: E)
}
