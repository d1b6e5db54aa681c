/** Result types shared by every module: a missing row, or a failed operation. */
module Prelude {

  datatype Option<+T> = None | Some(value: T)

  datatype Result<+T, +E> = Ok(value: T) | Err(error: E)

  /** An eight-bit value; byte strings are sequences of them. */
  type byte = x: int | 0 <= x < 256

  type Bytes = seq<byte>
}
