/** Failure-carrying datatypes shared by the whole model. */
module Wrappers {

  /** A value that may be absent; `None` plays the part of Python's `None`. */
  datatype Option<T> = None | Some(value: T)

  /** The outcome of a call that can raise: a value, or the exception it raised. */
  datatype Result<T, E> = Ok(value: T) | Err(error: E)
}
