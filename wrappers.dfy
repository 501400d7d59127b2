/** Option and Result values used for the "not found" and error paths of the backend. */
module Wrappers {

  /** Python's Optional[T]: None or a value. */
  datatype Option<+T> = None | Some(value: T)

  /** A value, or the error that the Python code raises instead of returning one. */
  datatype Result<+T, +E> = Ok(value: T) | Err(error: E)
}
