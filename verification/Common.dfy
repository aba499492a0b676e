/** The two wrapper types every component of the model shares. */
module Common {
  datatype Option<+T> = None | Some(value: T)

  /** A value, or the error the original throws. */
  datatype Result<+T, +E> = Ok(value: T) | Err(error: E)
}
