/** Failure-compatible wrappers used across the model: `Option` stands for a
    JavaScript value that may be `null` (or `NaN`, where noted), and `Result`
    for a computation that may throw. */
module Wrappers {

  datatype Option<+T> = None | Some(value: T) {
    function GetOr(default: T): T {
      match this
      case Some(v) => v
      case None => default
    }
  }

  datatype Result<+T> = Success(value: T) | Failure(error: string)
}
