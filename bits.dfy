/**
 * Unsigned machine integers for register values that the drivers compute
 * with arithmetic (counters, prescalers, reload and compare values, baud
 * divisors), and the wrap-around of C's unsigned arithmetic and of a store
 * into a narrower register.
 */
module Bits {
  newtype u8 = x: int | 0 <= x < 0x100
  newtype u16 = x: int | 0 <= x < 0x1_0000
  newtype u32 = x: int | 0 <= x < 0x1_0000_0000

  /** The value a C expression takes in uint32_t arithmetic. */
  function Wrap32(x: int): (r: u32)
    ensures 0 <= x < 0x1_0000_0000 ==> r as int == x
    ensures (r as int - x) % 0x1_0000_0000 == 0
  {
    (x % 0x1_0000_0000) as u32
  }

  /** The value a C expression keeps when it is stored in a 16-bit register. */
  function Wrap16(x: int): (r: u16)
    ensures 0 <= x < 0x1_0000 ==> r as int == x
    ensures (r as int - x) % 0x1_0000 == 0
  {
    (x % 0x1_0000) as u16
  }

  /** The value a C expression keeps when it is stored in an 8-bit location. */
  function Wrap8(x: int): (r: u8)
    ensures 0 <= x < 0x100 ==> r as int == x
    ensures (r as int - x) % 0x100 == 0
  {
    (x % 0x100) as u8
  }
}
