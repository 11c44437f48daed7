/** Python's `None`-or-value and raise-or-return, as values. */
module Wrappers {

  datatype Option<+T> = None | Some(value: T)

  /** `Err` stands for an exception the source raises; `Ok` for a normal return. */
  datatype Result<+T, +E> = Ok(value: T) | Err(error: E)
}
