/** Fixed-width unsigned integers of the contract (Rust u64, u128, and usize on wasm32). */
module Uints {
  const U64_LIMIT: int := 0x1_0000_0000_0000_0000
  const U128_LIMIT: int := 0x1_0000_0000_0000_0000_0000_0000_0000_0000
  /** The contract is compiled to wasm32, where usize is 32 bits wide. */
  const USIZE_LIMIT: int := 0x1_0000_0000

  type U64 = x: int | 0 <= x < 0x1_0000_0000_0000_0000
  type U128 = x: int | 0 <= x < 0x1_0000_0000_0000_0000_0000_0000_0000_0000
}

module Options {
  datatype Option<+T> = None | Some(value: T)
}
