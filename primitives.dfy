/** Fixed-width numeric types of the Rust source, written out as ranges. */
module Primitives {
  newtype U8 = x: int | 0 <= x < 0x100
  newtype U16 = x: int | 0 <= x < 0x1_0000
  newtype U32 = x: int | 0 <= x < 0x1_0000_0000
  newtype I32 = x: int | -0x8000_0000 <= x < 0x8000_0000

  /** `usize` on the 64-bit targets this model assumes. */
  newtype USize = x: int | 0 <= x < 0x1_0000_0000_0000_0000

  /** An `f32`. Rounding, infinities and NaN are not modelled: a value is a real. */
  type F32 = real

  /** `f32` addition, taken as exact. */
  function F32Add(a: F32, b: F32): (sum: F32) { a + b }
}

module Wrappers {
  datatype Option<+T> = None | Some(value: T)

  datatype Result<+R, +E> = Success(value: R) | Failure(error: E)
}
