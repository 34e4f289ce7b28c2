/** Failure-carrying wrappers shared by the model: Java's null and its exceptions. */
module Results {

  /** A value that may be absent, as a Java reference that may be null. */
  datatype Option<+T> = None | Some(value: T)

  /** The outcome of an operation that either returns a value or throws. */
  datatype Result<+T, +E> = Ok(value: T) | Err(error: E)
}
