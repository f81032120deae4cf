/** Failure-compatible result types shared by every module of the model. */
module Wrappers {

  /** A value that may be absent: a JavaScript `undefined`/`null` or a missing key. */
  datatype Option<+T> = None | Some(value: T) {
    function GetOr(default: T): T {
      match this
      case Some(v) => v
      case None => default
    }
  }

  /** The outcome of a computation that may throw: `Failure` carries the error's message. */
  datatype Result<+R> = Success(value: R) | Failure(error: string)

  /** The outcome of a computation that may throw and yields nothing. */
  datatype Outcome = Pass | Fail(error: string)
}
