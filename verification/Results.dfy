/** What a function that may throw delivers. */
module Results {
  datatype Result<+T, +E> = Ok(value: T) | Err(error: E)
}
