/** Option and Result, the two wrappers the model uses for Python's `None` and raised exceptions. */
module Results {

  datatype Option<+T> = None | Some(value: T)

  /** `Err` stands for an exception that escapes the operation. */
  datatype Result<+T, +E> = Ok(value: T) | Err(error: E)
}
