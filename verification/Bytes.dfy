/** Bytes as numbers. */
module Bytes {
  type u8 = x: int | 0 <= x < 0x100
}
