/** Option and Result, the shapes every other module uses for an absent value
    (a `None` in Python, `null`/`undefined` in TypeScript) and for an error path. */
module Wrappers {

  datatype Option<+T> = None | Some(value: T) {
    function GetOr(default: T): T {
      match this
      case Some(v) => v
      case None => default
    }
  }

  datatype Result<+R, +E> = Success(value: R) | Failure(error: E)
}
