/** Fixed-width unsigned integers of the Rust source and the failure-carrying
    datatypes used in place of its panics. */
module Widths {

  const U32_LIMIT: int := 0x1_0000_0000
  const U64_LIMIT: int := 0x1_0000_0000_0000_0000

  type u8 = x: int | 0 <= x < 256
  type u32 = x: int | 0 <= x < U32_LIMIT
  type u64 = x: int | 0 <= x < U64_LIMIT

  datatype Option<+T> = None | Some(value: T)

  /** The outcome of an operation that the source ends with a panic on failure. */
  datatype Result<+T, +E> = Ok(value: T) | Err(error: E)
}
