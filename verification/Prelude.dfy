/** Small vocabulary shared by every module of the model. */
module Prelude {

  /** Go's nil-able pointer to a value. */
  datatype Option<+T> = None | Some(value: T)

  /** The outcome of a Go call that returns a value and an error. */
  datatype Result<+T> = Ok(value: T) | Err

  function Max(a: int, b: int): int { if a < b then b else a }
}
