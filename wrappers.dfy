/** Option and Result values for the lookups that may miss and the operations that may fail. */
module Wrappers {

  datatype Option<+T> = None | Some(value: T)

  /** `Ok` carries the value of a call that returned; `Err` the text of the exception it raised. */
  datatype Result<+T, +E> = Ok(value: T) | Err(error: E)
}
