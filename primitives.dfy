/** Rust's fixed-width integers as the shop uses them, and an Option type. */
module Primitives {

  datatype Option<T> = None | Some(value: T)

  /** Rust `i32`: the type of an item's days remaining. */
  newtype i32 = x: int | -0x8000_0000 <= x <= 0x7FFF_FFFF

  /** Rust `u32`: the type of an item's quality. */
  newtype u32 = x: int | 0 <= x <= 0xFFFF_FFFF

  const I32_MIN: i32 := -0x8000_0000
  const U32_MAX: u32 := 0xFFFF_FFFF

  /** Rust `u32::saturating_sub`: the difference, clamped at zero instead of wrapping. */
  function SaturatingSub(a: u32, b: u32): u32
  {
    if a >= b then a - b else 0
  }

  function Min(a: u32, b: u32): u32
  {
    if a <= b then a else b
  }
}
