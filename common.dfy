/** Option and Result, shared by every module of the model. */
module Common {

  datatype Option<+T> = None | Some(value: T)

  /** A computation that either yields a value or fails with an error of type E. */
  datatype Result<+T, +E> = Ok(value: T) | Err(error: E)
}
