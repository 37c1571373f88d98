/**
 * How the two key translations meet the pre-dispatch policy. The policy
 * treats native key code 0x75 (macOS forward delete) as Delete; which
 * codes can arrive there depends on how the caller fills
 * `native_key_code`.
 */
module InputPipeline {
  import opened Wrappers
  import opened CefTypes
  import Sdl = SdlKeys
  import Mac = MacKeys
  import opened KeycodeConversion
  import opened Shortcuts
  import MacTableProperties

  /**
   * Filled from the SDL-to-macOS table, the native code is never forward
   * delete: the table's ForwardDelete case is commented out and SDL's
   * Delete key maps to the backspace code. So no event from the table
   * reaches the Delete branch, and every event writes the shortcut flag.
   */
  lemma TableCodesNeverReachDelete(e: KeyEvent, k: int)
    requires e.nativeKeyCode == SdlToMac(k)
    ensures DecidePreKey(e).command != Some(Delete)
    ensures DecidePreKey(e).shortcutFlag.Some?
  {
    MacTableProperties.UnproducedCodes(k);
    assert e.nativeKeyCode != ForwardDeleteNativeCode;
  }

  /** SDL's Delete key, looked up in the table, gives the backspace code rather than forward delete. */
  lemma SdlDeleteIsBackspace()
    ensures SdlToMac(Sdl.Delete) == Mac.Delete
    ensures Mac.Delete != ForwardDeleteNativeCode
  {
    MacTableProperties.EditingKeys(Sdl.Delete);
  }

  /**
   * Filled from `Convert` instead, a non-A key passes its SDL scancode
   * through, and only scancode 0x75 (the Help key) lands on the Delete
   * branch: a key-down of it that is not a Cmd shortcut issues Delete and
   * leaves the flag unwritten.
   */
  lemma ConvertedScancodeReachesDelete(ev: KeyboardEvent, e: KeyEvent)
    requires e.nativeKeyCode == Convert(ev).nativeKey
    requires IsKeyDown(e)
    requires !IsShortcut(e)
    ensures (DecidePreKey(e).command == Some(Delete) && DecidePreKey(e).shortcutFlag.None?) <==>
              (ev.key != Sdl.A && ev.scancode == Sdl.HelpScancode)
  {
  }
}
