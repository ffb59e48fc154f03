/** Fixed-width C integer types used by the three programs (RP2040, 32-bit ARM). */
module CTypes {

  /** uint8_t */
  newtype u8 = x: int | 0 <= x < 0x100

  /** uint32_t; also TickType_t, since the port uses 32-bit ticks */
  newtype u32 = x: int | 0 <= x < 0x1_0000_0000

  /** Limits of a 32-bit C `int` */
  const INT_MAX: int := 0x7fff_ffff
  const INT_MIN: int := -0x8000_0000
}
