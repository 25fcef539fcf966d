/** Optional values and error-carrying results, shared by the RPC client and the simulator. */
module Wrappers {

  datatype Option<+T> = None | Some(value: T)

  /** A Go `(value, error)` pair or a Rust `Result`: exactly one of the two is present. */
  datatype Result<+T, +E> = Ok(value: T) | Err(error: E)
}
