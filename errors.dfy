/** Failure-carrying values standing for the exceptions the chart code throws. */
module Errors {

  /** The exceptions raised while a mapper or point list is built. */
  datatype Error =
    /** IndexOutOfBoundsException("Arrays should be same size") from a validator */
    | SizeMismatch
    /** the index error raised when a points list reads past the end of its y values */
    | IndexOutOfRange
    /** the NotImplementedError that a `TODO(...)` body raises */
    | NotImplemented

  datatype Option<+T> = None | Some(value: T)

  datatype Result<+T> = Ok(value: T) | Err(error: Error)

  /** The outcome of a throw-or-return validator such as `checkErrors`. */
  datatype Outcome = Pass | Fail(error: Error)
}
