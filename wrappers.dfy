/** Failure-carrying values shared by the models of the endpoint and the form. */
module Wrappers {

  /** A value that may be missing: a JSON key that was absent from the body. */
  datatype Option<+T> = None | Some(value: T)

  /** The outcome of a validation: a value, or the reason it was refused. */
  datatype Result<+T, +E> = Ok(value: T) | Err(error: E)
}
