/** Outcome of an operation that the source lets fail by raising an exception. */
module Results {

  /** Either the value the Python code returns, or the exception it raises. */
  datatype Result<+T, +E> = Ok(value: T) | Err(error: E)

  /** The value an optional lookup yields (a fetch-by-id that may find nothing). */
  datatype Option<+T> = None | Some(value: T)
}
