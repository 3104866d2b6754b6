/** The two result shapes every module shares. */
module Wrappers {
  datatype Option<+T> = None | Some(value: T)

  /** A refusal carries the reason the source throws or returns. */
  datatype Result<+T, +E> = Ok(value: T) | Err(error: E)
}
