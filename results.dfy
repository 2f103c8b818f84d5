/** Failure-carrying wrappers shared by the modules of this model: the Python
    source signals absence with None and failure with a raised exception. */
module Results {

  datatype Option<+T> = None | Some(value: T)

  /** A computation that yields a value or fails with an error. */
  datatype Result<+R, +E> = Success(value: R) | Failure(error: E)

  /** A computation that yields nothing but may fail (a Python call returning None or raising). */
  datatype Outcome<+E> = Pass | Fail(error: E)
}
