/** Option and Result, the two failure-carrying wrappers the model returns instead of raising. */
module Results {
  datatype Option<+T> = None | Some(value: T)

  datatype Result<+T, +E> = Ok(value: T) | Err(error: E)
}
