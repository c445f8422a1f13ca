/** Option and Result, the failure-carrying values used throughout the model. */
module Wrappers {

  /** A value that may be missing: an absent query parameter, a `null` column, a lookup that found nothing. */
  datatype Option<+T> = None | Some(value: T)

  /** The outcome of a call that either produces a value or throws. */
  datatype Result<+T, +E> = Ok(value: T) | Err(error: E)
}
