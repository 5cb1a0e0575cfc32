/** Types shared by every component: identifiers, prices, quantities and sides.
    The fixed-width aliases follow `common/src/types.rs`. */
module Types {
  datatype Option<+T> = None | Some(value: T)

  const WORD32: nat := 0x1_0000_0000
  const WORD64: nat := 0x1_0000_0000_0000_0000

  type u8 = x: int | 0 <= x < 0x100
  type u32 = x: int | 0 <= x < 0x1_0000_0000
  type u64 = x: int | 0 <= x < 0x1_0000_0000_0000_0000
  type i8 = x: int | -0x80 <= x < 0x80
  type i64 = x: int | -0x8000_0000_0000_0000 <= x < 0x8000_0000_0000_0000

  type OrderId = u64
  type TickerId = u32
  type ClientId = u32
  type Price = i64
  type Qty = u32
  type Priority = u64

  const INVALID_PRICE: Price := 0x7FFF_FFFF_FFFF_FFFF

  datatype Side = Buy | Sell

  /** The wire value of a side. */
  function SideCode(side: Side): i8 {
    if side.Buy? then 1 else -1
  }
}
