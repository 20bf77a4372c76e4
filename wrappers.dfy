/** Option and Result, the shapes of Python's `None`-or-value returns and of
    exceptions that propagate to the caller. */
module Wrappers {

  datatype Option<+T> = None | Some(value: T)

  /** `Failure` carries the text of an exception that was raised and not caught. */
  datatype Result<+R> = Success(value: R) | Failure(error: string)
}
