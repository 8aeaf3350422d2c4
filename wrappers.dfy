/** Failure-carrying results shared by the whole model.  A thrown `Error` of
    the TypeScript source becomes `Err`/`Fail` carrying the error's message. */
module Wrappers {

  datatype Option<+T> = None | Some(value: T) {
    function GetOr(default: T): T {
      match this
      case Some(v) => v
      case None => default
    }
  }

  /** The value a call returns, or the message of the error it throws. */
  datatype Result<+T> = Ok(value: T) | Err(error: string)

  /** A call that returns nothing on success, or the message of the error it throws. */
  datatype Outcome = Pass | Fail(error: string)

  /** Wall-clock instants (a JavaScript `Date`), in milliseconds. */
  type Timestamp = int
}
