/** Option and Outcome: a value that may be absent, and a Go call that
    returns either a value or an `error` (modelled by its message text). */
module Wrappers {

  datatype Option<+T> = None | Some(value: T) {
    function GetOr(default: T): T {
      match this
      case Some(v) => v
      case None => default
    }
  }

  /** The `(T, error)` pair of a Go call: exactly one of the two is meaningful. */
  datatype Outcome<+T> = Success(value: T) | Failure(error: string)

  /** The bare `error` result of a Go call that returns nothing else. */
  datatype Status = Succeeded | Failed(cause: string)
}
