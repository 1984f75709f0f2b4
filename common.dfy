/** Failure-carrying result types shared by the modules of this model. */
module Common {

  /** A value that may be absent: a request-body field that was left out or
      could not be read as the expected type, or the result of a lookup. */
  datatype Option<T> = None | Some(value: T)

  /** Either a value or the reasons it could not be produced. */
  datatype Result<T, E> = Ok(value: T) | Err(error: E)
}
