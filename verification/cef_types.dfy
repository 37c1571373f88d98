/**
 * The browser engine's (CEF's) value types that cross the client boundary,
 * and the engine itself as the client sees it: an optional browser with a
 * validity flag, a windowless flag and a focused frame, plus the calls the
 * client makes into it.
 */
module CefTypes {
  import opened Ints

  /** `cef_key_event_type_t`. */
  datatype KeyEventType = RawKeyDown | KeyDown | KeyUp | Char

  /** `cef_event_flags_t` bits. */
  const ShiftDown: bv32 := 1 << 1
  const ControlDown: bv32 := 1 << 2
  const AltDown: bv32 := 1 << 3
  const CommandDown: bv32 := 1 << 7

  /** `CefKeyEvent`. */
  datatype KeyEvent = KeyEvent(
    eventType: KeyEventType,
    modifiers: bv32,
    windowsKeyCode: int,
    nativeKeyCode: int,
    isSystemKey: bool,
    character: Char16,
    unmodifiedCharacter: Char16,
    focusOnEditableField: bool)

  /** `CefMouseEvent`. */
  datatype MouseEvent = MouseEvent(x: int, y: int, modifiers: bv32)

  /** `CefBrowserHost::MouseButtonType`. */
  datatype MouseButton = LeftButton | MiddleButton | RightButton

  /** `CefRange`. */
  datatype Range = Range(from: int, to: int)

  /** `CefRect`. */
  datatype Rect = Rect(x: int, y: int, width: int, height: int)

  /** `CefCompositionUnderline`, carried through unread. */
  datatype CompositionUnderline = CompositionUnderline(range: Range, color: int, backgroundColor: int, thick: bool)

  /** The document editing commands a focused frame accepts. */
  datatype EditCommand = Undo | Redo | Cut | Copy | Paste | Delete | SelectAll

  /** One call from the client into the engine. */
  datatype EngineCall =
    | FrameCommand(command: EditCommand)
    | SendKeyEvent(keyEvent: KeyEvent)
    | SendMouseMoveEvent(mouseEvent: MouseEvent, mouseLeave: bool)
    | SetFocus(focus: bool)
    | SendMouseClickEvent(mouseEvent: MouseEvent, button: MouseButton, mouseUp: bool, clickCount: int)
    | SendMouseWheelEvent(mouseEvent: MouseEvent, deltaX: int, deltaY: int)
    | SendExternalBeginFrame
    | CloseBrowser(forceClose: bool)
    | ImeCommitText(text: string, replacementRange: Range, relativeCursorPos: int)
    | ImeSetComposition(text: string, underlines: seq<CompositionUnderline>, replacementRange: Range, selectionRange: Range)
    | ImeFinishComposingText(keepSelection: bool)
    | ImeCancelComposition

  /** What the client can observe of a live browser. */
  datatype Browser = Browser(valid: bool, windowRenderingDisabled: bool, hasFocusedFrame: bool)
}
