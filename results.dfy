/** Optional values and results with an error value, used for the source's `None` and its exceptions. */
module Results {
  datatype Option<T> = None | Some(value: T)

  datatype Result<T, E> = Ok(value: T) | Err(error: E)
}
