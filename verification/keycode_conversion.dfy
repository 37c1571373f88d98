/**
 * Host key translation (keycode_conversion.cpp).
 *
 * Two independent mappings out of SDL3 keyboard input:
 *  - `Convert`: an SDL keyboard event to the browser engine's
 *    (windows_key_code, native_key_code, character) triple, and
 *  - `SdlToMac`: an SDL keycode to a macOS virtual key code, a fixed switch
 *    table that answers 0 for every key it does not list.
 */
module KeycodeConversion {
  import opened Wrappers
  import opened Ints
  import Sdl = SdlKeys
  import Mac = MacKeys
  import Win = WinKeys

  /** An `SDL_KeyboardEvent`: every field the host hands over, used or not. */
  datatype KeyboardEvent = KeyboardEvent(
    eventType: U32,
    timestamp: nat,
    windowId: U32,
    which: U32,
    scancode: nat,
    key: U32,
    mod: U16,
    raw: U16,
    down: bool,
    repeat: bool)

  /** The `(windows_key_code, native_key_code, character)` triple. */
  datatype KeyTranslation = KeyTranslation(windowsKey: int, nativeKey: int, character: Char16)

  /** The conversion `int key_code = keyboard_event.key` of an unsigned 32-bit keycode to a signed int. */
  function ToInt32(k: U32): (r: int)
    ensures -0x8000_0000 <= r < 0x8000_0000
    ensures (r - k) % 0x1_0000_0000 == 0
  {
    if k < 0x8000_0000 then k else k - 0x1_0000_0000
  }

  /**
   * `keycode_conversion`: only the A key is translated (to `VK_A`, native
   * code 0 and character 'a'); every other key passes its keycode and its
   * scancode through with no character.
   */
  function Convert(e: KeyboardEvent): (t: KeyTranslation)
    ensures e.key == Sdl.A <==> t.character != 0
    ensures e.key == Sdl.A ==> t == KeyTranslation(Win.VkA, 0, 'a' as int)
    ensures e.key != Sdl.A ==> t.windowsKey == ToInt32(e.key) && t.nativeKey == e.scancode
  {
    var keyCode := ToInt32(e.key);
    var scanCode := e.scancode;
    var character: Char16 := 0;
    if keyCode == Sdl.A then KeyTranslation(Win.VkA, 0, 'a' as int)
    else KeyTranslation(keyCode, scanCode, character)
  }

  /** The result of `Convert` depends on the keycode and the scancode alone. */
  lemma ConvertReadsOnlyKeyAndScancode(e1: KeyboardEvent, e2: KeyboardEvent)
    requires e1.key == e2.key && e1.scancode == e2.scancode
    ensures Convert(e1) == Convert(e2)
  {
  }

  /** Every keycode SDL defines is below 2^31, so for those the pass-through keeps the keycode exactly. */
  lemma ConvertPassesSdlKeycodesThrough(e: KeyboardEvent)
    requires e.key != Sdl.A && e.key < 0x8000_0000
    ensures Convert(e) == KeyTranslation(e.key, e.scancode, 0)
  {
  }

  /**
   * The body of `sdl_keycode_2_mac_keycode`'s switch: the macOS code of every
   * listed key, in the source's order, and None for the `default` branch.
   */
  function MacLookup(k: int): (r: Option<U16>)
    ensures r.Some? ==> r.value < 0x80
  {
    if k == Sdl.A then Some(Mac.AnsiA)
    else if k == Sdl.S then Some(Mac.AnsiS)
    else if k == Sdl.D then Some(Mac.AnsiD)
    else if k == Sdl.F then Some(Mac.AnsiF)
    else if k == Sdl.H then Some(Mac.AnsiH)
    else if k == Sdl.G then Some(Mac.AnsiG)
    else if k == Sdl.Z then Some(Mac.AnsiZ)
    else if k == Sdl.X then Some(Mac.AnsiX)
    else if k == Sdl.C then Some(Mac.AnsiC)
    else if k == Sdl.V then Some(Mac.AnsiV)
    else if k == Sdl.B then Some(Mac.AnsiB)
    else if k == Sdl.Q then Some(Mac.AnsiQ)
    else if k == Sdl.W then Some(Mac.AnsiW)
    else if k == Sdl.E then Some(Mac.AnsiE)
    else if k == Sdl.R then Some(Mac.AnsiR)
    else if k == Sdl.Y then Some(Mac.AnsiY)
    else if k == Sdl.T then Some(Mac.AnsiT)
    else if k == Sdl.Num1 then Some(Mac.Ansi1)
    else if k == Sdl.Num2 then Some(Mac.Ansi2)
    else if k == Sdl.Num3 then Some(Mac.Ansi3)
    else if k == Sdl.Num4 then Some(Mac.Ansi4)
    else if k == Sdl.Num6 then Some(Mac.Ansi6)
    else if k == Sdl.Num5 then Some(Mac.Ansi5)
    else if k == Sdl.Equals then Some(Mac.AnsiEqual)
    else if k == Sdl.Num9 then Some(Mac.Ansi9)
    else if k == Sdl.Num7 then Some(Mac.Ansi7)
    else if k == Sdl.Minus then Some(Mac.AnsiMinus)
    else if k == Sdl.Num8 then Some(Mac.Ansi8)
    else if k == Sdl.Num0 then Some(Mac.Ansi0)
    else if k == Sdl.RightBracket then Some(Mac.AnsiRightBracket)
    else if k == Sdl.O then Some(Mac.AnsiO)
    else if k == Sdl.U then Some(Mac.AnsiU)
    else if k == Sdl.LeftBracket then Some(Mac.AnsiLeftBracket)
    else if k == Sdl.I then Some(Mac.AnsiI)
    else if k == Sdl.P then Some(Mac.AnsiP)
    else if k == Sdl.L then Some(Mac.AnsiL)
    else if k == Sdl.J then Some(Mac.AnsiJ)
    else if k == Sdl.Apostrophe then Some(Mac.AnsiQuote)
    else if k == Sdl.K then Some(Mac.AnsiK)
    else if k == Sdl.Semicolon then Some(Mac.AnsiSemicolon)
    else if k == Sdl.Backslash then Some(Mac.AnsiBackslash)
    else if k == Sdl.Comma then Some(Mac.AnsiComma)
    else if k == Sdl.Slash then Some(Mac.AnsiSlash)
    else if k == Sdl.N then Some(Mac.AnsiN)
    else if k == Sdl.M then Some(Mac.AnsiM)
    else if k == Sdl.Period then Some(Mac.AnsiPeriod)
    else if k == Sdl.Grave then Some(Mac.AnsiGrave)
    else if k == Sdl.KpPeriod then Some(Mac.AnsiKeypadDecimal)
    else if k == Sdl.KpMultiply then Some(Mac.AnsiKeypadMultiply)
    else if k == Sdl.KpPlus then Some(Mac.AnsiKeypadPlus)
    else if k == Sdl.KpClear then Some(Mac.AnsiKeypadClear)
    else if k == Sdl.KpDivide then Some(Mac.AnsiKeypadDivide)
    else if k == Sdl.KpEnter then Some(Mac.AnsiKeypadEnter)
    else if k == Sdl.KpMinus then Some(Mac.AnsiKeypadMinus)
    else if k == Sdl.KpEquals then Some(Mac.AnsiKeypadEquals)
    else if k == Sdl.Kp0 then Some(Mac.AnsiKeypad0)
    else if k == Sdl.Kp1 then Some(Mac.AnsiKeypad1)
    else if k == Sdl.Kp2 then Some(Mac.AnsiKeypad2)
    else if k == Sdl.Kp3 then Some(Mac.AnsiKeypad3)
    else if k == Sdl.Kp4 then Some(Mac.AnsiKeypad4)
    else if k == Sdl.Kp5 then Some(Mac.AnsiKeypad5)
    else if k == Sdl.Kp6 then Some(Mac.AnsiKeypad6)
    else if k == Sdl.Kp7 then Some(Mac.AnsiKeypad7)
    else if k == Sdl.Kp8 then Some(Mac.AnsiKeypad8)
    else if k == Sdl.Kp9 then Some(Mac.AnsiKeypad9)
    else if k == Sdl.Return then Some(Mac.Return)
    else if k == Sdl.Tab then Some(Mac.Tab)
    else if k == Sdl.Space then Some(Mac.Space)
    else if k == Sdl.Delete then Some(Mac.Delete)
    else if k == Sdl.Escape then Some(Mac.Escape)
    else if k == Sdl.LGui then Some(Mac.Command)
    else if k == Sdl.LShift then Some(Mac.Shift)
    else if k == Sdl.CapsLock then Some(Mac.CapsLock)
    else if k == Sdl.LAlt then Some(Mac.Option)
    else if k == Sdl.LCtrl then Some(Mac.Control)
    else if k == Sdl.RShift then Some(Mac.RightShift)
    else if k == Sdl.RAlt then Some(Mac.RightOption)
    else if k == Sdl.RCtrl then Some(Mac.RightControl)
    // the Fn key case is commented out in the source
    else if k == Sdl.F17 then Some(Mac.F17)
    else if k == Sdl.VolumeUp then Some(Mac.VolumeUp)
    else if k == Sdl.VolumeDown then Some(Mac.VolumeDown)
    else if k == Sdl.Mute then Some(Mac.Mute)
    else if k == Sdl.F18 then Some(Mac.F18)
    else if k == Sdl.F19 then Some(Mac.F19)
    else if k == Sdl.F20 then Some(Mac.F20)
    else if k == Sdl.F5 then Some(Mac.F5)
    else if k == Sdl.F6 then Some(Mac.F6)
    else if k == Sdl.F7 then Some(Mac.F7)
    else if k == Sdl.F3 then Some(Mac.F3)
    else if k == Sdl.F8 then Some(Mac.F8)
    else if k == Sdl.F9 then Some(Mac.F9)
    else if k == Sdl.F11 then Some(Mac.F11)
    else if k == Sdl.F13 then Some(Mac.F13)
    else if k == Sdl.F16 then Some(Mac.F16)
    else if k == Sdl.F14 then Some(Mac.F14)
    else if k == Sdl.F10 then Some(Mac.F10)
    else if k == Sdl.F12 then Some(Mac.F12)
    else if k == Sdl.F15 then Some(Mac.F15)
    else if k == Sdl.Help then Some(Mac.Help)
    else if k == Sdl.Home then Some(Mac.Home)
    else if k == Sdl.PageUp then Some(Mac.PageUp)
    // the forward-delete case is commented out in the source
    else if k == Sdl.F4 then Some(Mac.F4)
    else if k == Sdl.End then Some(Mac.End)
    else if k == Sdl.F2 then Some(Mac.F2)
    else if k == Sdl.PageDown then Some(Mac.PageDown)
    else if k == Sdl.F1 then Some(Mac.F1)
    else if k == Sdl.Left then Some(Mac.LeftArrow)
    else if k == Sdl.Right then Some(Mac.RightArrow)
    else if k == Sdl.Down then Some(Mac.DownArrow)
    else if k == Sdl.Up then Some(Mac.UpArrow)
    else None
  }

  /** The keys the switch lists. */
  predicate IsListed(k: int) {
    MacLookup(k).Some?
  }

  /** `sdl_keycode_2_mac_keycode`: total; a key the switch does not list yields 0. */
  function SdlToMac(k: int): (r: U16)
    ensures IsListed(k) ==> r == MacLookup(k).value
    ensures !IsListed(k) ==> r == 0
    ensures r < 0x80
  {
    MacLookup(k).GetOr(0)
  }
}
