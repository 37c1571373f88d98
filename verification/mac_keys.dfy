/**
 * macOS virtual key codes (`kVK_*`, Carbon HIToolbox Events.h).
 *
 * These are positions on the ANSI keyboard, not characters: `kVK_ANSI_A`
 * is 0x00, and `kVK_Delete` (0x33) is the backspace key while
 * `kVK_ForwardDelete` (0x75) is the key that deletes forward.
 */
module MacKeys {

  // Letters
  const AnsiA: int := 0x00
  const AnsiS: int := 0x01
  const AnsiD: int := 0x02
  const AnsiF: int := 0x03
  const AnsiH: int := 0x04
  const AnsiG: int := 0x05
  const AnsiZ: int := 0x06
  const AnsiX: int := 0x07
  const AnsiC: int := 0x08
  const AnsiV: int := 0x09
  const AnsiB: int := 0x0B
  const AnsiQ: int := 0x0C
  const AnsiW: int := 0x0D
  const AnsiE: int := 0x0E
  const AnsiR: int := 0x0F
  const AnsiY: int := 0x10
  const AnsiT: int := 0x11
  const AnsiO: int := 0x1F
  const AnsiU: int := 0x20
  const AnsiI: int := 0x22
  const AnsiP: int := 0x23
  const AnsiL: int := 0x25
  const AnsiJ: int := 0x26
  const AnsiK: int := 0x28
  const AnsiN: int := 0x2D
  const AnsiM: int := 0x2E

  // Main-row digits
  const Ansi1: int := 0x12
  const Ansi2: int := 0x13
  const Ansi3: int := 0x14
  const Ansi4: int := 0x15
  const Ansi6: int := 0x16
  const Ansi5: int := 0x17
  const Ansi9: int := 0x19
  const Ansi7: int := 0x1A
  const Ansi8: int := 0x1C
  const Ansi0: int := 0x1D

  // Punctuation
  const AnsiEqual: int := 0x18
  const AnsiMinus: int := 0x1B
  const AnsiRightBracket: int := 0x1E
  const AnsiLeftBracket: int := 0x21
  const AnsiQuote: int := 0x27
  const AnsiSemicolon: int := 0x29
  const AnsiBackslash: int := 0x2A
  const AnsiComma: int := 0x2B
  const AnsiSlash: int := 0x2C
  const AnsiPeriod: int := 0x2F
  const AnsiGrave: int := 0x32

  // Keypad
  const AnsiKeypadDecimal: int := 0x41
  const AnsiKeypadMultiply: int := 0x43
  const AnsiKeypadPlus: int := 0x45
  const AnsiKeypadClear: int := 0x47
  const AnsiKeypadDivide: int := 0x4B
  const AnsiKeypadEnter: int := 0x4C
  const AnsiKeypadMinus: int := 0x4E
  const AnsiKeypadEquals: int := 0x51
  const AnsiKeypad0: int := 0x52
  const AnsiKeypad1: int := 0x53
  const AnsiKeypad2: int := 0x54
  const AnsiKeypad3: int := 0x55
  const AnsiKeypad4: int := 0x56
  const AnsiKeypad5: int := 0x57
  const AnsiKeypad6: int := 0x58
  const AnsiKeypad7: int := 0x59
  const AnsiKeypad8: int := 0x5B
  const AnsiKeypad9: int := 0x5C

  // Layout-independent keys
  const Return: int := 0x24
  const Tab: int := 0x30
  const Space: int := 0x31
  /** `kVK_Delete`: the backspace key. */
  const Delete: int := 0x33
  const Escape: int := 0x35
  const RightCommand: int := 0x36
  const Command: int := 0x37
  const Shift: int := 0x38
  const CapsLock: int := 0x39
  const Option: int := 0x3A
  const Control: int := 0x3B
  const RightShift: int := 0x3C
  const RightOption: int := 0x3D
  const RightControl: int := 0x3E
  const Function: int := 0x3F
  const F17: int := 0x40
  const VolumeUp: int := 0x48
  const VolumeDown: int := 0x49
  const Mute: int := 0x4A
  const F18: int := 0x4F
  const F19: int := 0x50
  const F20: int := 0x5A
  const F5: int := 0x60
  const F6: int := 0x61
  const F7: int := 0x62
  const F3: int := 0x63
  const F8: int := 0x64
  const F9: int := 0x65
  const F11: int := 0x67
  const F13: int := 0x69
  const F16: int := 0x6A
  const F14: int := 0x6B
  const F10: int := 0x6D
  const F12: int := 0x6F
  const F15: int := 0x71
  const Help: int := 0x72
  const Home: int := 0x73
  const PageUp: int := 0x74
  /** `kVK_ForwardDelete`: the key that deletes forward. */
  const ForwardDelete: int := 0x75
  const F4: int := 0x76
  const End: int := 0x77
  const F2: int := 0x78
  const PageDown: int := 0x79
  const F1: int := 0x7A
  const LeftArrow: int := 0x7B
  const RightArrow: int := 0x7C
  const DownArrow: int := 0x7D
  const UpArrow: int := 0x7E

  /** `kVK_ANSI_<c>` for a letter `c`. */
  function AnsiLetter(c: char): int
    requires 'a' <= c <= 'z'
  {
    match c
    case 'a' => AnsiA case 'b' => AnsiB case 'c' => AnsiC case 'd' => AnsiD
    case 'e' => AnsiE case 'f' => AnsiF case 'g' => AnsiG case 'h' => AnsiH
    case 'i' => AnsiI case 'j' => AnsiJ case 'k' => AnsiK case 'l' => AnsiL
    case 'm' => AnsiM case 'n' => AnsiN case 'o' => AnsiO case 'p' => AnsiP
    case 'q' => AnsiQ case 'r' => AnsiR case 's' => AnsiS case 't' => AnsiT
    case 'u' => AnsiU case 'v' => AnsiV case 'w' => AnsiW case 'x' => AnsiX
    case 'y' => AnsiY case _ => AnsiZ
  }

  /** `kVK_ANSI_<d>` for a main-row digit `d`. */
  function AnsiDigit(d: int): int
    requires 0 <= d <= 9
  {
    match d
    case 0 => Ansi0 case 1 => Ansi1 case 2 => Ansi2 case 3 => Ansi3 case 4 => Ansi4
    case 5 => Ansi5 case 6 => Ansi6 case 7 => Ansi7 case 8 => Ansi8 case _ => Ansi9
  }

  /** `kVK_ANSI_Keypad<d>` for a keypad digit `d`. */
  function KeypadDigit(d: int): int
    requires 0 <= d <= 9
  {
    match d
    case 0 => AnsiKeypad0 case 1 => AnsiKeypad1 case 2 => AnsiKeypad2
    case 3 => AnsiKeypad3 case 4 => AnsiKeypad4 case 5 => AnsiKeypad5
    case 6 => AnsiKeypad6 case 7 => AnsiKeypad7 case 8 => AnsiKeypad8
    case _ => AnsiKeypad9
  }

  /** `kVK_F<n>` for n in 1..20 (Events.h defines no F21 or above). */
  function FunctionKey(n: int): int
    requires 1 <= n <= 20
  {
    match n
    case 1 => F1 case 2 => F2 case 3 => F3 case 4 => F4 case 5 => F5
    case 6 => F6 case 7 => F7 case 8 => F8 case 9 => F9 case 10 => F10
    case 11 => F11 case 12 => F12 case 13 => F13 case 14 => F14 case 15 => F15
    case 16 => F16 case 17 => F17 case 18 => F18 case 19 => F19 case _ => F20
  }

  /** The keypad codes: the keys of the numeric keypad, whatever they print. */
  predicate IsKeypadCode(m: int) {
    m in {AnsiKeypadDecimal, AnsiKeypadMultiply, AnsiKeypadPlus, AnsiKeypadClear,
          AnsiKeypadDivide, AnsiKeypadEnter, AnsiKeypadMinus, AnsiKeypadEquals,
          AnsiKeypad0, AnsiKeypad1, AnsiKeypad2, AnsiKeypad3, AnsiKeypad4,
          AnsiKeypad5, AnsiKeypad6, AnsiKeypad7, AnsiKeypad8, AnsiKeypad9}
  }
}
