/** The fixed-width unsigned integers the host code passes around. */
module Ints {
  /** An unsigned 16-bit value (`uint16_t`, `Uint16`). */
  type U16 = x: int | 0 <= x < 0x1_0000

  /** An unsigned 32-bit value (`Uint32`). */
  type U32 = x: int | 0 <= x < 0x1_0000_0000

  /** A UTF-16 code unit (`char16_t`). */
  type Char16 = U16
}
