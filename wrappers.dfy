/** Success-or-exception values shared by the modules of this model. */
module Wrappers {

  /** The outcome of an operation that either returns `value` or raises `error`. */
  datatype Result<+T, +E> = Ok(value: T) | Err(error: E)

  datatype Option<+T> = None | Some(value: T)
}
