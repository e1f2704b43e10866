/** Success/failure types shared by every component of the model. */
module Wrappers {
  /** A value that may be absent (a NULL column, a property that is not set). */
  datatype Option<+T> = None | Some(value: T)

  /** The outcome of an operation that the source ends either normally or by raising. */
  datatype Result<+T, +E> = Ok(value: T) | Err(error: E)
}
