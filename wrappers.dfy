/** Optional values, used for the generator's fatal "unsupported type" outcomes. */
module Wrappers {

  datatype Option<+T> = None | Some(value: T)

  /** An outcome that either carries a value or names what went wrong. */
  datatype Result<+T, +E> = Ok(value: T) | Err(error: E)
}
