/** Optional values and the error results of the store. */
module Results {
  datatype Option<+T> = None | Some(value: T)

  /** The error values a store operation may return. */
  datatype Error = NotFound | Forbidden | InvalidInput

  datatype Result<+T> = Ok(value: T) | Err(error: Error)
}
