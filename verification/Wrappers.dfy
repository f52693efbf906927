/** The two failure-compatible results used throughout the model. */
module Wrappers {
  datatype Option<+T> = None | Some(value: T)

  /** A Python exception becomes `Err` with the exception's short name. */
  datatype Result<+T> = Ok(value: T) | Err(error: string)
}
