/** Result types shared by every module of the model. */
module Prelude {

  /** A value that may be missing: Python's None, a missing Go map key. */
  datatype Option<+T> = None | Some(value: T)

  /** A returned value, or the exception or Go error that took its place. */
  datatype Result<+T, +E> = Ok(value: T) | Err(error: E)
}
