/** Option, Result and Outcome values standing for Python's None, raised
    exceptions and statements that either complete or raise. */
module Wrappers {

  datatype Option<+T> = None | Some(value: T)

  /** A value, or the message of the exception that was raised instead. */
  datatype Result<+R> = Success(value: R) | Failure(error: string)

  /** A statement that completes normally or raises with a message. */
  datatype Outcome = Pass | Fail(error: string)
}
