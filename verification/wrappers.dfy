/** Option, Result and Outcome: the failure-carrying values the Rust code
    expresses with `Option<T>`, `Result<T, E>` and `Result<(), E>`. */
module Wrappers {

  datatype Option<+T> = None | Some(value: T) {
    /** The wrapped value, or `default` when there is none. */
    function GetOr(default: T): T {
      match this
      case Some(v) => v
      case None => default
    }
  }

  datatype Result<+T, +E> = Success(value: T) | Failure(error: E)

  /** `Result<(), E>`: either nothing went wrong or an error. */
  datatype Outcome<+E> = Pass | Fail(error: E)
}
