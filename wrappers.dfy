/** Failure-carrying values used wherever the application calls something that may fail. */
module Wrappers {

  /** A value that may be absent: `undefined`/`null`, or a call that threw. */
  datatype Option<+T> = None | Some(value: T)

  /** A value or the message of the error that prevented it. */
  datatype Result<+T> = Success(value: T) | Failure(message: string)
}
