/**
 * SDL3 keycode values (`SDL_Keycode`, from SDL3's SDL_keycode.h).
 *
 * Printable keys carry the unshifted ASCII code of their character; the
 * other keys carry their scancode with bit 30 set (`SDLK_SCANCODE_MASK`).
 */
module SdlKeys {

  /** Bit 30: keys without a character are their scancode OR'ed with this mask. */
  const ScancodeMask: int := 0x4000_0000

  /** The keycode of a letter key is the lower-case ASCII code of its letter. */
  function Letter(c: char): (k: int)
    requires 'a' <= c <= 'z'
    ensures 0x61 <= k <= 0x7A
  {
    c as int
  }

  /** The keycode of a main-row digit key is the ASCII code of its digit. */
  function Digit(d: int): (k: int)
    requires 0 <= d <= 9
    ensures 0x30 <= k <= 0x39
  {
    0x30 + d
  }

  /** `SDLK_KP_<d>`: keypad 1..9 are consecutive and keypad 0 follows keypad 9. */
  function KeypadDigit(d: int): (k: int)
    requires 0 <= d <= 9
    ensures ScancodeMask < k < ScancodeMask + 0x100
  {
    if d == 0 then ScancodeMask + 0x62 else ScancodeMask + 0x58 + d
  }

  /** `SDLK_F<n>`: F1..F12 and F13..F24 are two separate consecutive runs. */
  function FunctionKey(n: int): (k: int)
    requires 1 <= n <= 24
    ensures ScancodeMask < k < ScancodeMask + 0x100
  {
    if n <= 12 then ScancodeMask + 0x39 + n else ScancodeMask + 0x5B + n
  }

  // Letters
  const A: int := 0x61
  const B: int := 0x62
  const C: int := 0x63
  const D: int := 0x64
  const E: int := 0x65
  const F: int := 0x66
  const G: int := 0x67
  const H: int := 0x68
  const I: int := 0x69
  const J: int := 0x6A
  const K: int := 0x6B
  const L: int := 0x6C
  const M: int := 0x6D
  const N: int := 0x6E
  const O: int := 0x6F
  const P: int := 0x70
  const Q: int := 0x71
  const R: int := 0x72
  const S: int := 0x73
  const T: int := 0x74
  const U: int := 0x75
  const V: int := 0x76
  const W: int := 0x77
  const X: int := 0x78
  const Y: int := 0x79
  const Z: int := 0x7A

  // Main-row digits
  const Num0: int := 0x30
  const Num1: int := 0x31
  const Num2: int := 0x32
  const Num3: int := 0x33
  const Num4: int := 0x34
  const Num5: int := 0x35
  const Num6: int := 0x36
  const Num7: int := 0x37
  const Num8: int := 0x38
  const Num9: int := 0x39

  // Punctuation
  const Apostrophe: int := 0x27
  const Comma: int := 0x2C
  const Minus: int := 0x2D
  const Period: int := 0x2E
  const Slash: int := 0x2F
  const Semicolon: int := 0x3B
  const Equals: int := 0x3D
  const LeftBracket: int := 0x5B
  const Backslash: int := 0x5C
  const RightBracket: int := 0x5D
  const Grave: int := 0x60

  // Editing and whitespace
  const Backspace: int := 0x08
  const Tab: int := 0x09
  const Return: int := 0x0D
  const Escape: int := 0x1B
  const Space: int := 0x20
  /** `SDLK_DELETE`: the forward-delete key. */
  const Delete: int := 0x7F

  // Keys outside the printable range
  const CapsLock: int := 0x4000_0039
  const F1: int := 0x4000_003A
  const F2: int := 0x4000_003B
  const F3: int := 0x4000_003C
  const F4: int := 0x4000_003D
  const F5: int := 0x4000_003E
  const F6: int := 0x4000_003F
  const F7: int := 0x4000_0040
  const F8: int := 0x4000_0041
  const F9: int := 0x4000_0042
  const F10: int := 0x4000_0043
  const F11: int := 0x4000_0044
  const F12: int := 0x4000_0045
  const Insert: int := 0x4000_0049
  const Home: int := 0x4000_004A
  const PageUp: int := 0x4000_004B
  const End: int := 0x4000_004D
  const PageDown: int := 0x4000_004E
  const Right: int := 0x4000_004F
  const Left: int := 0x4000_0050
  const Down: int := 0x4000_0051
  const Up: int := 0x4000_0052
  const KpDivide: int := 0x4000_0054
  const KpMultiply: int := 0x4000_0055
  const KpMinus: int := 0x4000_0056
  const KpPlus: int := 0x4000_0057
  const KpEnter: int := 0x4000_0058
  const Kp1: int := 0x4000_0059
  const Kp2: int := 0x4000_005A
  const Kp3: int := 0x4000_005B
  const Kp4: int := 0x4000_005C
  const Kp5: int := 0x4000_005D
  const Kp6: int := 0x4000_005E
  const Kp7: int := 0x4000_005F
  const Kp8: int := 0x4000_0060
  const Kp9: int := 0x4000_0061
  const Kp0: int := 0x4000_0062
  const KpPeriod: int := 0x4000_0063
  const KpEquals: int := 0x4000_0067
  const F13: int := 0x4000_0068
  const F14: int := 0x4000_0069
  const F15: int := 0x4000_006A
  const F16: int := 0x4000_006B
  const F17: int := 0x4000_006C
  const F18: int := 0x4000_006D
  const F19: int := 0x4000_006E
  const F20: int := 0x4000_006F
  const F21: int := 0x4000_0070
  const F24: int := 0x4000_0073
  const Help: int := 0x4000_0075
  const Mute: int := 0x4000_007F
  const VolumeUp: int := 0x4000_0080
  const VolumeDown: int := 0x4000_0081
  const KpComma: int := 0x4000_0085
  const Kp00: int := 0x4000_00B0
  const KpClear: int := 0x4000_00D8
  const LCtrl: int := 0x4000_00E0
  const LShift: int := 0x4000_00E1
  const LAlt: int := 0x4000_00E2
  const LGui: int := 0x4000_00E3
  const RCtrl: int := 0x4000_00E4
  const RShift: int := 0x4000_00E5
  const RAlt: int := 0x4000_00E6
  const RGui: int := 0x4000_00E7

  /** `SDL_SCANCODE_HELP`: the scancode of the Help key (USB usage 0x75). */
  const HelpScancode: int := 0x75
}
