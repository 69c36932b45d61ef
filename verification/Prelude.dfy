/** Shared value types. */
module Prelude {

  datatype Option<+T> = None | Some(value: T)

  datatype Result<+T, +E> = Ok(value: T) | Err(error: E)

  /** UUIDs are only ever compared, hashed and used as keys. */
  type Uuid = nat

  function Min(a: int, b: int): int {
    if a <= b then a else b
  }
}
