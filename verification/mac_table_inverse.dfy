/**
 * The reverse direction of the SDL-to-macOS table, written independently in
 * ascending macOS code order, and the lemmas that tie the two directions
 * together: every listed key round-trips, so no two listed keys share a
 * macOS code.
 */
module MacTableInverse {
  import opened Wrappers
  import Sdl = SdlKeys
  import Mac = MacKeys
  import opened KeycodeConversion

  /** The SDL key whose macOS code is `m`, if the table lists one. */
  function MacToSdl(m: int): Option<int>
  {
    if m == Mac.AnsiA then Some(Sdl.A)
    else if m == Mac.AnsiS then Some(Sdl.S)
    else if m == Mac.AnsiD then Some(Sdl.D)
    else if m == Mac.AnsiF then Some(Sdl.F)
    else if m == Mac.AnsiH then Some(Sdl.H)
    else if m == Mac.AnsiG then Some(Sdl.G)
    else if m == Mac.AnsiZ then Some(Sdl.Z)
    else if m == Mac.AnsiX then Some(Sdl.X)
    else if m == Mac.AnsiC then Some(Sdl.C)
    else if m == Mac.AnsiV then Some(Sdl.V)
    else if m == Mac.AnsiB then Some(Sdl.B)
    else if m == Mac.AnsiQ then Some(Sdl.Q)
    else if m == Mac.AnsiW then Some(Sdl.W)
    else if m == Mac.AnsiE then Some(Sdl.E)
    else if m == Mac.AnsiR then Some(Sdl.R)
    else if m == Mac.AnsiY then Some(Sdl.Y)
    else if m == Mac.AnsiT then Some(Sdl.T)
    else if m == Mac.Ansi1 then Some(Sdl.Num1)
    else if m == Mac.Ansi2 then Some(Sdl.Num2)
    else if m == Mac.Ansi3 then Some(Sdl.Num3)
    else if m == Mac.Ansi4 then Some(Sdl.Num4)
    else if m == Mac.Ansi6 then Some(Sdl.Num6)
    else if m == Mac.Ansi5 then Some(Sdl.Num5)
    else if m == Mac.AnsiEqual then Some(Sdl.Equals)
    else if m == Mac.Ansi9 then Some(Sdl.Num9)
    else if m == Mac.Ansi7 then Some(Sdl.Num7)
    else if m == Mac.AnsiMinus then Some(Sdl.Minus)
    else if m == Mac.Ansi8 then Some(Sdl.Num8)
    else if m == Mac.Ansi0 then Some(Sdl.Num0)
    else if m == Mac.AnsiRightBracket then Some(Sdl.RightBracket)
    else if m == Mac.AnsiO then Some(Sdl.O)
    else if m == Mac.AnsiU then Some(Sdl.U)
    else if m == Mac.AnsiLeftBracket then Some(Sdl.LeftBracket)
    else if m == Mac.AnsiI then Some(Sdl.I)
    else if m == Mac.AnsiP then Some(Sdl.P)
    else if m == Mac.Return then Some(Sdl.Return)
    else if m == Mac.AnsiL then Some(Sdl.L)
    else if m == Mac.AnsiJ then Some(Sdl.J)
    else if m == Mac.AnsiQuote then Some(Sdl.Apostrophe)
    else if m == Mac.AnsiK then Some(Sdl.K)
    else if m == Mac.AnsiSemicolon then Some(Sdl.Semicolon)
    else if m == Mac.AnsiBackslash then Some(Sdl.Backslash)
    else if m == Mac.AnsiComma then Some(Sdl.Comma)
    else if m == Mac.AnsiSlash then Some(Sdl.Slash)
    else if m == Mac.AnsiN then Some(Sdl.N)
    else if m == Mac.AnsiM then Some(Sdl.M)
    else if m == Mac.AnsiPeriod then Some(Sdl.Period)
    else if m == Mac.Tab then Some(Sdl.Tab)
    else if m == Mac.Space then Some(Sdl.Space)
    else if m == Mac.AnsiGrave then Some(Sdl.Grave)
    else if m == Mac.Delete then Some(Sdl.Delete)
    else if m == Mac.Escape then Some(Sdl.Escape)
    else if m == Mac.Command then Some(Sdl.LGui)
    else if m == Mac.Shift then Some(Sdl.LShift)
    else if m == Mac.CapsLock then Some(Sdl.CapsLock)
    else if m == Mac.Option then Some(Sdl.LAlt)
    else if m == Mac.Control then Some(Sdl.LCtrl)
    else if m == Mac.RightShift then Some(Sdl.RShift)
    else if m == Mac.RightOption then Some(Sdl.RAlt)
    else if m == Mac.RightControl then Some(Sdl.RCtrl)
    else if m == Mac.F17 then Some(Sdl.F17)
    else if m == Mac.AnsiKeypadDecimal then Some(Sdl.KpPeriod)
    else if m == Mac.AnsiKeypadMultiply then Some(Sdl.KpMultiply)
    else if m == Mac.AnsiKeypadPlus then Some(Sdl.KpPlus)
    else if m == Mac.AnsiKeypadClear then Some(Sdl.KpClear)
    else if m == Mac.VolumeUp then Some(Sdl.VolumeUp)
    else if m == Mac.VolumeDown then Some(Sdl.VolumeDown)
    else if m == Mac.Mute then Some(Sdl.Mute)
    else if m == Mac.AnsiKeypadDivide then Some(Sdl.KpDivide)
    else if m == Mac.AnsiKeypadEnter then Some(Sdl.KpEnter)
    else if m == Mac.AnsiKeypadMinus then Some(Sdl.KpMinus)
    else if m == Mac.F18 then Some(Sdl.F18)
    else if m == Mac.F19 then Some(Sdl.F19)
    else if m == Mac.AnsiKeypadEquals then Some(Sdl.KpEquals)
    else if m == Mac.AnsiKeypad0 then Some(Sdl.Kp0)
    else if m == Mac.AnsiKeypad1 then Some(Sdl.Kp1)
    else if m == Mac.AnsiKeypad2 then Some(Sdl.Kp2)
    else if m == Mac.AnsiKeypad3 then Some(Sdl.Kp3)
    else if m == Mac.AnsiKeypad4 then Some(Sdl.Kp4)
    else if m == Mac.AnsiKeypad5 then Some(Sdl.Kp5)
    else if m == Mac.AnsiKeypad6 then Some(Sdl.Kp6)
    else if m == Mac.AnsiKeypad7 then Some(Sdl.Kp7)
    else if m == Mac.F20 then Some(Sdl.F20)
    else if m == Mac.AnsiKeypad8 then Some(Sdl.Kp8)
    else if m == Mac.AnsiKeypad9 then Some(Sdl.Kp9)
    else if m == Mac.F5 then Some(Sdl.F5)
    else if m == Mac.F6 then Some(Sdl.F6)
    else if m == Mac.F7 then Some(Sdl.F7)
    else if m == Mac.F3 then Some(Sdl.F3)
    else if m == Mac.F8 then Some(Sdl.F8)
    else if m == Mac.F9 then Some(Sdl.F9)
    else if m == Mac.F11 then Some(Sdl.F11)
    else if m == Mac.F13 then Some(Sdl.F13)
    else if m == Mac.F16 then Some(Sdl.F16)
    else if m == Mac.F14 then Some(Sdl.F14)
    else if m == Mac.F10 then Some(Sdl.F10)
    else if m == Mac.F12 then Some(Sdl.F12)
    else if m == Mac.F15 then Some(Sdl.F15)
    else if m == Mac.Help then Some(Sdl.Help)
    else if m == Mac.Home then Some(Sdl.Home)
    else if m == Mac.PageUp then Some(Sdl.PageUp)
    else if m == Mac.F4 then Some(Sdl.F4)
    else if m == Mac.End then Some(Sdl.End)
    else if m == Mac.F2 then Some(Sdl.F2)
    else if m == Mac.PageDown then Some(Sdl.PageDown)
    else if m == Mac.F1 then Some(Sdl.F1)
    else if m == Mac.LeftArrow then Some(Sdl.Left)
    else if m == Mac.RightArrow then Some(Sdl.Right)
    else if m == Mac.DownArrow then Some(Sdl.Down)
    else if m == Mac.UpArrow then Some(Sdl.Up)
    else None
  }

  /** Round trip for the listed keys below 0x30 (control characters, space, punctuation). */
  lemma RoundTripControl(k: int)
    requires IsListed(k) && k < 0x30
    ensures MacToSdl(SdlToMac(k)) == Some(k)
  {
  }

  /** Round trip for the listed keys in 0x30..0x5F (digits, punctuation). */
  lemma RoundTripDigits(k: int)
    requires IsListed(k) && 0x30 <= k < 0x60
    ensures MacToSdl(SdlToMac(k)) == Some(k)
  {
  }

  /** Round trip for the listed keys in 0x60..0x6D (grave, letters a..m). */
  lemma RoundTripLettersAtoM(k: int)
    requires IsListed(k) && 0x60 <= k < 0x6E
    ensures MacToSdl(SdlToMac(k)) == Some(k)
  {
  }

  /** Round trip for the listed keys in 0x6E..0x7F (letters n..z, forward delete). */
  lemma RoundTripLettersNtoZ(k: int)
    requires IsListed(k) && 0x6E <= k < 0x80
    ensures MacToSdl(SdlToMac(k)) == Some(k)
  {
  }

  /** Round trip for the listed keys from 0x80 up to the keypad (caps lock, F1..F12, navigation). */
  lemma RoundTripNavigation(k: int)
    requires IsListed(k) && 0x80 <= k < Sdl.ScancodeMask + 0x59
    ensures MacToSdl(SdlToMac(k)) == Some(k)
  {
  }

  /** Round trip for the listed keys of the keypad. */
  lemma RoundTripKeypad(k: int)
    requires IsListed(k) && Sdl.ScancodeMask + 0x59 <= k < Sdl.ScancodeMask + 0x68
    ensures MacToSdl(SdlToMac(k)) == Some(k)
  {
  }

  /** Round trip for F13..F20. */
  lemma RoundTripUpperFunctionKeys(k: int)
    requires IsListed(k) && Sdl.ScancodeMask + 0x68 <= k < Sdl.ScancodeMask + 0x70
    ensures MacToSdl(SdlToMac(k)) == Some(k)
  {
  }

  /** Round trip for the listed keys from F21 on (help, media keys, keypad clear, modifiers). */
  lemma RoundTripMediaAndModifiers(k: int)
    requires IsListed(k) && Sdl.ScancodeMask + 0x70 <= k
    ensures MacToSdl(SdlToMac(k)) == Some(k)
  {
  }

  /** Every listed key comes back from its macOS code. */
  lemma ListedKeysRoundTrip(k: int)
    requires IsListed(k)
    ensures MacToSdl(SdlToMac(k)) == Some(k)
  {
    if k < 0x30 {
      RoundTripControl(k);
    } else if k < 0x60 {
      RoundTripDigits(k);
    } else if k < 0x6E {
      RoundTripLettersAtoM(k);
    } else if k < 0x80 {
      RoundTripLettersNtoZ(k);
    } else if k < Sdl.ScancodeMask + 0x59 {
      RoundTripNavigation(k);
    } else if k < Sdl.ScancodeMask + 0x68 {
      RoundTripKeypad(k);
    } else if k < Sdl.ScancodeMask + 0x70 {
      RoundTripUpperFunctionKeys(k);
    } else {
      RoundTripMediaAndModifiers(k);
    }
  }

  /** Agreement of the reverse table on the macOS codes with m < 0x10. */
  lemma ReverseAgrees00(m: int)
    requires MacToSdl(m).Some? && m < 0x10
    ensures MacLookup(MacToSdl(m).value) == Some(m)
  {
  }

  /** Agreement of the reverse table on the macOS codes with 0x10 <= m < 0x20. */
  lemma ReverseAgrees10(m: int)
    requires MacToSdl(m).Some? && 0x10 <= m < 0x20
    ensures MacLookup(MacToSdl(m).value) == Some(m)
  {
  }

  /** Agreement of the reverse table on the macOS codes with 0x20 <= m < 0x30. */
  lemma ReverseAgrees20(m: int)
    requires MacToSdl(m).Some? && 0x20 <= m < 0x30
    ensures MacLookup(MacToSdl(m).value) == Some(m)
  {
  }

  /** Agreement of the reverse table on the macOS codes with 0x30 <= m < 0x38. */
  lemma ReverseAgrees30(m: int)
    requires MacToSdl(m).Some? && 0x30 <= m < 0x38
    ensures MacLookup(MacToSdl(m).value) == Some(m)
  {
  }

  /** Agreement of the reverse table on the macOS codes with 0x38 <= m < 0x40. */
  lemma ReverseAgrees38(m: int)
    requires MacToSdl(m).Some? && 0x38 <= m < 0x40
    ensures MacLookup(MacToSdl(m).value) == Some(m)
  {
  }

  /** Agreement of the reverse table on the macOS codes with 0x40 <= m < 0x48. */
  lemma ReverseAgrees40(m: int)
    requires MacToSdl(m).Some? && 0x40 <= m < 0x48
    ensures MacLookup(MacToSdl(m).value) == Some(m)
  {
  }

  /** Agreement of the reverse table on the macOS codes with 0x48 <= m < 0x50. */
  lemma ReverseAgrees48(m: int)
    requires MacToSdl(m).Some? && 0x48 <= m < 0x50
    ensures MacLookup(MacToSdl(m).value) == Some(m)
  {
  }

  /** Agreement of the reverse table on the macOS codes with 0x50 <= m < 0x58. */
  lemma ReverseAgrees50(m: int)
    requires MacToSdl(m).Some? && 0x50 <= m < 0x58
    ensures MacLookup(MacToSdl(m).value) == Some(m)
  {
  }

  /** Agreement of the reverse table on the macOS codes with 0x58 <= m < 0x60. */
  lemma ReverseAgrees58(m: int)
    requires MacToSdl(m).Some? && 0x58 <= m < 0x60
    ensures MacLookup(MacToSdl(m).value) == Some(m)
  {
  }

  /** Agreement of the reverse table on the macOS codes with 0x60 <= m < 0x68. */
  lemma ReverseAgrees60(m: int)
    requires MacToSdl(m).Some? && 0x60 <= m < 0x68
    ensures MacLookup(MacToSdl(m).value) == Some(m)
  {
  }

  /** Agreement of the reverse table on the macOS codes with 0x68 <= m < 0x70. */
  lemma ReverseAgrees68(m: int)
    requires MacToSdl(m).Some? && 0x68 <= m < 0x70
    ensures MacLookup(MacToSdl(m).value) == Some(m)
  {
  }

  /** Agreement of the reverse table on the macOS codes with 0x70 <= m < 0x78. */
  lemma ReverseAgrees70(m: int)
    requires MacToSdl(m).Some? && 0x70 <= m < 0x78
    ensures MacLookup(MacToSdl(m).value) == Some(m)
  {
  }

  /** Agreement of the reverse table on the macOS codes with 0x78 <= m. */
  lemma ReverseAgrees78(m: int)
    requires MacToSdl(m).Some? && 0x78 <= m
    ensures MacLookup(MacToSdl(m).value) == Some(m)
  {
  }

  /** Every macOS code the reverse table knows is produced by exactly the key it names. */
  lemma ReverseTableAgrees(m: int)
    requires MacToSdl(m).Some?
    ensures MacLookup(MacToSdl(m).value) == Some(m)
  {
    if m < 0x10 {
      ReverseAgrees00(m);
    } else if m < 0x20 {
      ReverseAgrees10(m);
    } else if m < 0x30 {
      ReverseAgrees20(m);
    } else if m < 0x38 {
      ReverseAgrees30(m);
    } else if m < 0x40 {
      ReverseAgrees38(m);
    } else if m < 0x48 {
      ReverseAgrees40(m);
    } else if m < 0x50 {
      ReverseAgrees48(m);
    } else if m < 0x58 {
      ReverseAgrees50(m);
    } else if m < 0x60 {
      ReverseAgrees58(m);
    } else if m < 0x68 {
      ReverseAgrees60(m);
    } else if m < 0x70 {
      ReverseAgrees68(m);
    } else if m < 0x78 {
      ReverseAgrees70(m);
    } else {
      ReverseAgrees78(m);
    }
  }

  /** No two listed keys share a macOS code. */
  lemma TableInjective(a: int, b: int)
    requires IsListed(a) && IsListed(b) && a != b
    ensures SdlToMac(a) != SdlToMac(b)
  {
    ListedKeysRoundTrip(a);
    ListedKeysRoundTrip(b);
  }
}
