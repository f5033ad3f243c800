/** Option, Result and Outcome: the nullable references and the exceptions of the
    Java code become values. */
module Wrappers {

  /** A Java reference that may be null. */
  datatype Option<+T> = None | Some(value: T)

  /** A computation that either returns a value or throws. */
  datatype Result<+T, +E> = Ok(value: T) | Err(error: E)

  /** A check that either passes (returns normally) or throws. */
  datatype Outcome<+E> = Pass | Fail(error: E)
}
