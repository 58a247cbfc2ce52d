/** Wrappers shared by the model: an optional value, a value or an
    error, and a pass/fail outcome (Python's `None`, a raised exception, a `ValueError`). */
module Wrappers {

  datatype Option<+T> = None | Some(value: T)

  datatype Result<+T, +E> = Ok(value: T) | Err(error: E)

  datatype Outcome<+E> = Pass | Fail(error: E)
}
