/**
 * The pre-dispatch keyboard policy (`MyClient::OnPreKeyEvent`): which key
 * events the client takes away from the engine, which edit command each
 * one issues, and what it reports through `is_keyboard_shortcut`.
 */
module Shortcuts {
  import opened Wrappers
  import opened Ints
  import opened CefTypes

  /** The native key code the policy treats as Delete: macOS forward delete. */
  const ForwardDeleteNativeCode: int := 0x75

  /**
   * The decision for one event: the command issued (if any), the return
   * value ("handled, block the engine's own processing"), and the value
   * written to `is_keyboard_shortcut` (None when it is left unwritten).
   */
  datatype PreKeyDecision = PreKeyDecision(command: Option<EditCommand>, handled: bool, shortcutFlag: Option<bool>)

  predicate IsKeyDown(e: KeyEvent) {
    e.eventType == KeyDown || e.eventType == RawKeyDown
  }

  predicate CommandHeld(e: KeyEvent) {
    e.modifiers & CommandDown != 0
  }

  predicate ShiftHeld(e: KeyEvent) {
    e.modifiers & ShiftDown != 0
  }

  /** ASCII upper case to lower case; every other code unit is left alone. */
  function FoldCase(c: Char16): (r: Char16)
    ensures 'A' as int <= c <= 'Z' as int ==> r == c + 0x20
    ensures !('A' as int <= c <= 'Z' as int) ==> r == c
  {
    if 'A' as int <= c <= 'Z' as int then c + 0x20 else c
  }

  /** The reference reading of the shortcut table: Cmd plus a letter, either case. */
  function ShortcutCommand(letter: Char16, shift: bool): Option<EditCommand> {
    var l := FoldCase(letter);
    if l == 'z' as int then Some(if shift then Redo else Undo)
    else if l == 'x' as int then Some(Cut)
    else if l == 'c' as int then Some(Copy)
    else if l == 'v' as int then Some(Paste)
    else if l == 'a' as int then Some(SelectAll)
    else None
  }

  /** Cmd held together with one of the shortcut letters. */
  predicate IsShortcut(e: KeyEvent) {
    CommandHeld(e) && ShortcutCommand(e.unmodifiedCharacter, ShiftHeld(e)).Some?
  }

  /** The fallback: nothing issued, not handled, and the flag cleared. */
  const PassThrough: PreKeyDecision := PreKeyDecision(None, false, Some(false))

  /**
   * `OnPreKeyEvent`'s decision. A key-down with Cmd held and one of
   * z/x/c/v/a (either case) is a shortcut; otherwise a key-down whose native
   * code is forward delete issues Delete without touching the flag; any
   * other key-down, and every event that is not a key-down, passes through:
   * not handled, no command, and the flag written false.
   */
  function DecidePreKey(e: KeyEvent): (d: PreKeyDecision)
    ensures d.handled <==> d.command.Some?
    // the three cases of a key-down, then every other event
    ensures IsKeyDown(e) && IsShortcut(e) ==>
              d == PreKeyDecision(ShortcutCommand(e.unmodifiedCharacter, ShiftHeld(e)), true, Some(true))
    ensures IsKeyDown(e) && !IsShortcut(e) && e.nativeKeyCode == ForwardDeleteNativeCode ==>
              d == PreKeyDecision(Some(Delete), true, None)
    ensures IsKeyDown(e) && !IsShortcut(e) && e.nativeKeyCode != ForwardDeleteNativeCode ==>
              d == PassThrough
    ensures !IsKeyDown(e) ==> d == PassThrough
    // consequences the caller relies on
    ensures d.shortcutFlag == Some(true) <==> IsKeyDown(e) && IsShortcut(e)
    ensures d.shortcutFlag.None? <==> IsKeyDown(e) && !IsShortcut(e) && e.nativeKeyCode == ForwardDeleteNativeCode
    ensures d.shortcutFlag.None? ==> d.command == Some(Delete)
  {
    if IsKeyDown(e) then
      var isCmd := CommandHeld(e);
      var ch := e.unmodifiedCharacter;
      if isCmd && (ch == 'z' as int || ch == 'Z' as int) then
        PreKeyDecision(Some(if ShiftHeld(e) then Redo else Undo), true, Some(true))
      else if isCmd && (ch == 'x' as int || ch == 'X' as int) then
        PreKeyDecision(Some(Cut), true, Some(true))
      else if isCmd && (ch == 'c' as int || ch == 'C' as int) then
        PreKeyDecision(Some(Copy), true, Some(true))
      else if isCmd && (ch == 'v' as int || ch == 'V' as int) then
        PreKeyDecision(Some(Paste), true, Some(true))
      else if isCmd && (ch == 'a' as int || ch == 'A' as int) then
        PreKeyDecision(Some(SelectAll), true, Some(true))
      else if e.nativeKeyCode == ForwardDeleteNativeCode then
        PreKeyDecision(Some(Delete), true, None)
      else
        PassThrough
    else
      PassThrough
  }

  /** The shortcut letters are matched without regard to case. */
  lemma ShortcutsIgnoreCase(e: KeyEvent)
    requires 'A' as int <= e.unmodifiedCharacter <= 'Z' as int
    ensures DecidePreKey(e) == DecidePreKey(e.(unmodifiedCharacter := e.unmodifiedCharacter + 0x20))
  {
  }

  /** Shift matters only for z, where it turns undo into redo. */
  lemma ShiftOnlyTogglesRedo(e: KeyEvent)
    requires FoldCase(e.unmodifiedCharacter) != 'z' as int
    ensures DecidePreKey(e) == DecidePreKey(e.(modifiers := e.modifiers ^ ShiftDown))
  {
  }

  /** Only the event type, the modifiers, the unmodified character and the native code are read. */
  lemma DecisionReadsFourFields(e1: KeyEvent, e2: KeyEvent)
    requires e1.eventType == e2.eventType && e1.modifiers == e2.modifiers
    requires e1.unmodifiedCharacter == e2.unmodifiedCharacter && e1.nativeKeyCode == e2.nativeKeyCode
    ensures DecidePreKey(e1) == DecidePreKey(e2)
  {
  }

  /** A shortcut wins over the Delete check: Cmd+X on the forward-delete key still cuts. */
  lemma ShortcutBeforeDelete(e: KeyEvent)
    requires IsKeyDown(e) && CommandHeld(e) && e.unmodifiedCharacter == 'x' as int
    requires e.nativeKeyCode == ForwardDeleteNativeCode
    ensures DecidePreKey(e).command == Some(Cut)
  {
  }
}
