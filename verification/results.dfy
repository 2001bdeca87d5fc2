/** Failure-carrying wrappers shared by the rest of the model. */
module Results {

  /** A value that may be absent (JavaScript `undefined`/`null` results). */
  datatype Option<+T> = None | Some(value: T)

  /** The settled outcome of an operation: a value, or the error it rejects with. */
  datatype Result<+T, +E> = Ok(value: T) | Err(error: E)

  /** The outcome of an operation that yields nothing but may fail. */
  datatype Outcome<+E> = Pass | Fail(error: E)
}
