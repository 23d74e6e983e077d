/** The outcome types shared by every component of the model. */
module Results {

  datatype Option<+T> = None | Some(value: T)

  /** A computed value, or the exception that the original raises instead. */
  datatype Result<+T, +E> = Ok(value: T) | Err(error: E)
}
