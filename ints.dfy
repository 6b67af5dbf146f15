/** Fixed-width unsigned integers of the program, and the two conversions on them it relies on. */
module Ints {

  /** Rust `u16`: the element type of the index buffer. */
  newtype u16 = x: int | 0 <= x < 0x1_0000

  /** Rust `u32`: surface dimensions, frame latency and the index count. */
  newtype u32 = x: int | 0 <= x < 0x1_0000_0000

  /** `x.max(1)` on a `u32`: the smallest value that is at least `x` and at least 1. */
  function Max1(x: u32): (r: u32)
    ensures r >= 1 && r >= x
    ensures r == x || r == 1
  {
    if x < 1 then 1 else x
  }

  /** `n as u16` on a `usize`: keeps the low 16 bits. */
  function TruncateU16(n: nat): (r: u16)
    ensures n < 0x1_0000 ==> r as int == n
    ensures r as int <= n
  {
    (n % 0x1_0000) as u16
  }

  /** `n as u32` on a `usize`: keeps the low 32 bits. */
  function TruncateU32(n: nat): (r: u32)
    ensures n < 0x1_0000_0000 ==> r as int == n
    ensures r as int <= n
  {
    (n % 0x1_0000_0000) as u32
  }
}

/** The optional value used for `Option<T>` in the program. */
module Options {

  datatype Option<+T> = None | Some(value: T)
}
