/** Option and Result: the stand-ins for Java's null and for a thrown exception. */
module Wrappers {

  datatype Option<+T> = None | Some(value: T)

  /** A computation that either returns a value or throws; `error` is what was thrown. */
  datatype Result<+T, +E> = Ok(value: T) | Err(error: E)
}
