/** Option and Result, and the 64-bit integers Go's int and int64 denote. */
module Wrappers {

  datatype Option<+T> = None | Some(value: T)

  datatype Result<+T, +E> = Ok(value: T) | Err(error: E)

  const MAX_INT64: int := 0x7FFF_FFFF_FFFF_FFFF
  const MIN_INT64: int := -0x8000_0000_0000_0000

  newtype int64 = x: int | -0x8000_0000_0000_0000 <= x < 0x8000_0000_0000_0000

  /** Go's x++ on an int: two's complement wrap-around at the top. */
  function Increment(x: int64): int64 {
    if x as int == MAX_INT64 then MIN_INT64 as int64 else x + 1
  }
}
