/** The Python values the client returns besides strings: `Optional`
    results and the exception a caller can see. */
module PyTypes {
  /** `Optional[T]`: a value or Python's `None`. */
  datatype Option<T> = None | Some(value: T)

  /** The Python exceptions the client can raise. */
  datatype Exception = IndexError

  /** A returned value, or an exception propagated to the caller. */
  datatype Result<T> = Ok(value: T) | Raised(error: Exception)
}
