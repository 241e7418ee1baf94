/** Option, Result and Outcome: `undefined` results and thrown errors of the source. */
module Wrappers {

  datatype Option<+T> = None | Some(value: T) {
    /** `value ?? default`, for fields whose absence means "keep the default". */
    function GetOr(default: T): T {
      match this
      case Some(v) => v
      case None => default
    }
  }

  datatype Result<+R, +E> = Success(value: R) | Failure(error: E)

  /** The completion of an `async` operation that returns nothing: it resolves or it throws. */
  datatype Outcome<+E> = Pass | Fail(error: E)
}
