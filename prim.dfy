// Primitive C types, Rust's Option and the one error variant of the
// binding's error type that the core can produce.

module Prim {

  /** A C `int` (Rust `i32` / `c_int`). */
  type i32 = x: int | -0x8000_0000 <= x < 0x8000_0000

  /** Whether an integer fits a C `int`. */
  predicate InI32(v: int) { -0x8000_0000 <= v < 0x8000_0000 }

  /** A Rust `u16`. */
  type u16 = x: int | 0 <= x < 0x1_0000

  datatype Option<T> = None | Some(value: T)

  /** The error kinds of src/errors.rs that the modelled code can raise. */
  datatype Error =
    /** A channel count at or above the supported maximum (`supplied`, `max`). */
    | UnsupportedChannelCount(supplied: u16, max: u16)

  datatype Result<T> = Ok(value: T) | Err(error: Error)
}
