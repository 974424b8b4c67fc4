/** Optional values and fallible results, as the Rust services use them. */
module Wrappers {

  datatype Option<+T> = None | Some(value: T)

  /** A result whose error text carries no information for the protocol. */
  datatype Result<+T> = Ok(value: T) | Err
}
