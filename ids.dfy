/** Client and transaction identifiers: unsigned 16-bit and 32-bit integers. */
module Ids {

  /** A client identifier, the range of a u16. */
  newtype ClientId = x: int | 0 <= x < 0x1_0000

  /** A transaction identifier, the range of a u32. */
  newtype TxId = x: int | 0 <= x < 0x1_0000_0000
}
