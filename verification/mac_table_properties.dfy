/**
 * What the SDL-to-macOS switch table promises, key family by key family.
 */
module MacTableProperties {
  import opened Wrappers
  import Sdl = SdlKeys
  import Mac = MacKeys
  import opened KeycodeConversion

  /** The SDL keys of the numeric keypad that the table lists. */
  predicate IsSdlKeypadKey(k: int) {
    k in {Sdl.KpPeriod, Sdl.KpMultiply, Sdl.KpPlus, Sdl.KpClear, Sdl.KpDivide,
          Sdl.KpEnter, Sdl.KpMinus, Sdl.KpEquals, Sdl.Kp0, Sdl.Kp1, Sdl.Kp2,
          Sdl.Kp3, Sdl.Kp4, Sdl.Kp5, Sdl.Kp6, Sdl.Kp7, Sdl.Kp8, Sdl.Kp9}
  }

  /** A result of 0 means "the A key" or "not listed": the caller cannot tell which. */
  lemma ZeroIsAmbiguous(k: int)
    ensures SdlToMac(k) == 0 <==> k == Sdl.A || !IsListed(k)
    ensures IsListed(Sdl.A) && SdlToMac(Sdl.A) == Mac.AnsiA == 0
  {
  }

  /** The table never produces the forward-delete code, the right-command code or the Fn code. */
  lemma UnproducedCodes(k: int)
    ensures SdlToMac(k) != Mac.ForwardDelete
    ensures SdlToMac(k) != Mac.RightCommand
    ensures SdlToMac(k) != Mac.Function
  {
  }

  /** Every letter key maps to the ANSI code of the same letter. */
  lemma LettersMapToAnsiLetters(c: char)
    requires 'a' <= c <= 'z'
    ensures IsListed(Sdl.Letter(c))
    ensures SdlToMac(Sdl.Letter(c)) == Mac.AnsiLetter(c)
  {
  }

  /** Every main-row digit maps to its ANSI digit and every keypad digit to its keypad code, and the two differ. */
  lemma DigitsMapToAnsiAndKeypadDigits(d: int)
    requires 0 <= d <= 9
    ensures SdlToMac(Sdl.Digit(d)) == Mac.AnsiDigit(d)
    ensures SdlToMac(Sdl.KeypadDigit(d)) == Mac.KeypadDigit(d)
    ensures SdlToMac(Sdl.KeypadDigit(d)) != SdlToMac(Sdl.Digit(d))
  {
  }

  /** Every keypad key the table lists maps to a keypad code. */
  lemma KeypadKeysMapToKeypadCodes(k: int)
    requires IsSdlKeypadKey(k)
    ensures Mac.IsKeypadCode(SdlToMac(k))
  {
  }

  /**
   * Keypad keys the table does not list (keypad comma, keypad 00) fall to
   * the default 0, which is the A key's code and not a keypad code.
   */
  lemma UnlistedKeypadKeysCollideWithA()
    ensures !IsListed(Sdl.KpComma) && SdlToMac(Sdl.KpComma) == Mac.AnsiA
    ensures !IsListed(Sdl.Kp00) && SdlToMac(Sdl.Kp00) == Mac.AnsiA
    ensures !Mac.IsKeypadCode(Mac.AnsiA)
  {
  }

  /** Every listed printable key maps into the main block of codes, below 0x40. */
  lemma PrintableKeysMapBelow40(k: int)
    requires IsListed(k) && k < 0x80
    ensures SdlToMac(k) < 0x40
  {
  }

  /** No listed printable key maps to a keypad code. */
  lemma PrintableKeysAvoidKeypadCodes(k: int)
    requires IsListed(k) && k < 0x80
    ensures !Mac.IsKeypadCode(SdlToMac(k))
  {
    PrintableKeysMapBelow40(k);
  }

  /** No listed non-printable key outside the keypad maps to a keypad code. */
  lemma OtherKeysAvoidKeypadCodes(k: int)
    requires IsListed(k) && 0x80 <= k && !IsSdlKeypadKey(k)
    ensures !Mac.IsKeypadCode(SdlToMac(k))
  {
  }

  /** No listed key outside the keypad maps to a keypad code. */
  lemma MainKeysAvoidKeypadCodes(k: int)
    requires IsListed(k) && !IsSdlKeypadKey(k)
    ensures !Mac.IsKeypadCode(SdlToMac(k))
  {
    if k < 0x80 {
      PrintableKeysAvoidKeypadCodes(k);
    } else {
      OtherKeysAvoidKeypadCodes(k);
    }
  }

  /** A listed key maps to a keypad code exactly when it is a keypad key. */
  lemma KeypadSeparation(k: int)
    requires IsListed(k)
    ensures Mac.IsKeypadCode(SdlToMac(k)) <==> IsSdlKeypadKey(k)
  {
    if IsSdlKeypadKey(k) {
      KeypadKeysMapToKeypadCodes(k);
    } else {
      MainKeysAvoidKeypadCodes(k);
    }
  }

  /** F1..F20 map to the macOS function key with the same number; F21..F24 are not listed. */
  lemma FunctionKeysKeepTheirNumber(n: int)
    requires 1 <= n <= 24
    ensures n <= 20 ==> SdlToMac(Sdl.FunctionKey(n)) == Mac.FunctionKey(n)
    ensures n > 20 ==> !IsListed(Sdl.FunctionKey(n)) && SdlToMac(Sdl.FunctionKey(n)) == 0
  {
  }

  /** The left modifiers map to the plain modifier codes, the command key included. */
  lemma LeftModifiers(k: int)
    ensures k == Sdl.LShift ==> SdlToMac(k) == Mac.Shift
    ensures k == Sdl.LAlt ==> SdlToMac(k) == Mac.Option
    ensures k == Sdl.LCtrl ==> SdlToMac(k) == Mac.Control
    ensures k == Sdl.LGui ==> SdlToMac(k) == Mac.Command
  {
  }

  /** The right modifiers map to the right-hand codes, except the right command key, which is not listed. */
  lemma RightModifiers(k: int)
    ensures k == Sdl.RShift ==> SdlToMac(k) == Mac.RightShift
    ensures k == Sdl.RAlt ==> SdlToMac(k) == Mac.RightOption
    ensures k == Sdl.RCtrl ==> SdlToMac(k) == Mac.RightControl
    ensures k == Sdl.RGui ==> !IsListed(k) && SdlToMac(k) == 0
  {
  }

  /** Left and right shift, option and control map to distinct codes. */
  lemma ModifierSidesDiffer()
    ensures SdlToMac(Sdl.LShift) != SdlToMac(Sdl.RShift)
    ensures SdlToMac(Sdl.LAlt) != SdlToMac(Sdl.RAlt)
    ensures SdlToMac(Sdl.LCtrl) != SdlToMac(Sdl.RCtrl)
  {
    LeftModifiers(Sdl.LShift);
    LeftModifiers(Sdl.LAlt);
    LeftModifiers(Sdl.LCtrl);
    RightModifiers(Sdl.RShift);
    RightModifiers(Sdl.RAlt);
    RightModifiers(Sdl.RCtrl);
  }

  /** The four arrow keys map to the four arrow codes. */
  lemma ArrowKeys(k: int)
    ensures k == Sdl.Left ==> SdlToMac(k) == Mac.LeftArrow
    ensures k == Sdl.Right ==> SdlToMac(k) == Mac.RightArrow
    ensures k == Sdl.Up ==> SdlToMac(k) == Mac.UpArrow
    ensures k == Sdl.Down ==> SdlToMac(k) == Mac.DownArrow
  {
  }

  /** Backspace and Insert have no case; the forward-delete key maps to the backspace code. */
  lemma EditingKeys(k: int)
    ensures k == Sdl.Backspace ==> !IsListed(k) && SdlToMac(k) == 0
    ensures k == Sdl.Insert ==> !IsListed(k) && SdlToMac(k) == 0
    ensures k == Sdl.Delete ==> SdlToMac(k) == Mac.Delete
  {
  }
}
