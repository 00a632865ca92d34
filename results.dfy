/** Option and Result: the values a JavaScript promise settles with, and absent values. */
module Results {

  datatype Option<+T> = None | Some(value: T)

  /** A settled promise: resolved with a value, or rejected with an error. */
  datatype Result<+T, +E> = Ok(value: T) | Err(error: E)
}
