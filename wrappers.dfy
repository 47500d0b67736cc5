/** Option, Result and Outcome: the values of Python's `None`, of a call that
    returns or raises, and of a call that only succeeds or raises. */
module Wrappers {

  datatype Option<+T> = None | Some(value: T)

  datatype Result<+T, +E> = Ok(value: T) | Err(error: E)

  datatype Outcome<+E> = Pass | Fail(error: E)
}
