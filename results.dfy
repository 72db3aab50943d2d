/** Failure-carrying values shared by the driver models. */
module Results {

  datatype Option<T> = None | Some(value: T)

  /** The value of an operation that either succeeds or reports an error code. */
  datatype Result<T, E> = Ok(value: T) | Err(error: E)
}
