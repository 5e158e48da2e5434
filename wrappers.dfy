/** Failure-compatible wrappers shared by the modules of this model. */
module Wrappers {

  /** A value that may be absent, as `undefined` is in the source. */
  datatype Option<T> = None | Some(value: T)

  /** The outcome of an operation that throws on failure. */
  datatype Result<T, E> = Ok(value: T) | Err(error: E)
}
