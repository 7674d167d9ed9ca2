/** Success-or-failure values, standing in for the exceptions of the service. */
module Wrappers {

  /** `Ok(value)` for a normal return, `Err(error)` for a raised exception. */
  datatype Result<+T, +E> = Ok(value: T) | Err(error: E)
}
