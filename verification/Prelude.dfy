/** Small vocabulary shared by every component of the model. */
module Prelude {

  datatype Option<+T> = None | Some(value: T)

  datatype Result<+T, +E> = Ok(value: T) | Err(error: E)

  /** The largest integer a JavaScript number represents safely, 2^53 - 1. */
  const MAX_SAFE_INTEGER: nat := 0x1F_FFFF_FFFF_FFFF

  function Max(a: int, b: int): int {
    if a < b then b else a
  }
}
