/** Option and Result values shared by the modules of this model. */
module Wrappers {

  datatype Option<+T> = None | Some(value: T)

  /** An operation's value, or the error (Python exception) it raises instead. */
  datatype Result<+T, +E> = Ok(value: T) | Err(error: E)
}
