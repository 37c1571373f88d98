/**
 * The browser client (`MyClient`): the engine's callbacks into the host
 * (keyboard, context menu, focus, cursor, lifetime) and the host's calls
 * into the engine (edit commands and input injection).
 *
 * Every call into the engine is appended to `calls`, so "forwards exactly
 * one call" and "does nothing" are statements about that trace.
 */
module MyClient {
  import opened Wrappers
  import opened CefTypes
  import Cursor
  import opened ContextMenu
  import opened Shortcuts
  import MyRenderHandler

  datatype Client = Client(
    uiCursor: Cursor.UiCursor,
    closed: bool,
    hasFocus: bool,
    renderHandler: MyRenderHandler.RenderHandler,
    showContextMenu: bool,
    menuItems: seq<MenuItem>,
    menuX: real,
    menuY: real,
    browser: Option<Browser>,
    calls: seq<EngineCall>)

  /** A freshly constructed client: arrow cursor, no browser yet, nothing sent. */
  function NewClient(h: MyRenderHandler.RenderHandler): (c: Client)
    ensures c.uiCursor == Cursor.Arrow && !c.closed && !c.hasFocus && !c.showContextMenu
    ensures c.menuItems == [] && c.browser.None? && c.calls == []
    ensures c.renderHandler == h
  {
    Client(Cursor.Arrow, false, false, h, false, [], 0.0, 0.0, None, [])
  }

  /** `m_browser && m_browser->IsValid()`: the guard of every injection. */
  predicate HasLiveBrowser(c: Client) {
    c.browser.Some? && c.browser.value.valid
  }

  /** The guard of the edit commands: a live browser with a focused frame. */
  predicate CanEdit(c: Client) {
    HasLiveBrowser(c) && c.browser.value.hasFocusedFrame
  }

  /** `c'` is `c` with `sent` appended to the trace and nothing else changed. */
  predicate Sent(c: Client, c': Client, sent: seq<EngineCall>) {
    c' == c.(calls := c.calls + sent)
  }

  /**
   * `copy`, `cut`, `paste`, `undo`, `redo`, `delete_selection`,
   * `select_all`: one call on the focused frame when there is one, and
   * otherwise nothing at all.
   */
  function RunEditCommand(c: Client, cmd: EditCommand): (c': Client)
    ensures CanEdit(c) ==> Sent(c, c', [FrameCommand(cmd)])
    ensures !CanEdit(c) ==> c' == c
  {
    if CanEdit(c) then c.(calls := c.calls + [FrameCommand(cmd)]) else c
  }

  /** `inject_key_event`: the key event goes to a live browser, or nowhere. */
  function InjectKeyEvent(c: Client, e: KeyEvent): (c': Client)
    ensures HasLiveBrowser(c) ==> Sent(c, c', [SendKeyEvent(e)])
    ensures !HasLiveBrowser(c) ==> c' == c
  {
    if HasLiveBrowser(c) then c.(calls := c.calls + [SendKeyEvent(e)]) else c
  }

  /** `request_new_frame`: pumps one external begin-frame, only for a live windowless browser. */
  function RequestNewFrame(c: Client): (c': Client)
    ensures HasLiveBrowser(c) && c.browser.value.windowRenderingDisabled ==> Sent(c, c', [SendExternalBeginFrame])
    ensures !(HasLiveBrowser(c) && c.browser.value.windowRenderingDisabled) ==> c' == c
  {
    if HasLiveBrowser(c) && c.browser.value.windowRenderingDisabled then
      c.(calls := c.calls + [SendExternalBeginFrame])
    else
      c
  }

  /** `inject_mouse_motion`: a move event that never reports the mouse as leaving. */
  function InjectMouseMotion(c: Client, m: MouseEvent): (c': Client)
    ensures HasLiveBrowser(c) ==> Sent(c, c', [SendMouseMoveEvent(m, false)])
    ensures !HasLiveBrowser(c) ==> c' == c
  {
    if HasLiveBrowser(c) then c.(calls := c.calls + [SendMouseMoveEvent(m, false)]) else c
  }

  /** `inject_mouse_up_down`: a press first gives the browser focus; a release only clicks. */
  function InjectMouseUpDown(c: Client, m: MouseEvent, button: MouseButton, mouseUp: bool, clickCount: int): (c': Client)
    ensures HasLiveBrowser(c) && !mouseUp ==> Sent(c, c', [SetFocus(true), SendMouseClickEvent(m, button, false, clickCount)])
    ensures HasLiveBrowser(c) && mouseUp ==> Sent(c, c', [SendMouseClickEvent(m, button, true, clickCount)])
    ensures !HasLiveBrowser(c) ==> c' == c
  {
    if HasLiveBrowser(c) then
      var focused := if !mouseUp then [SetFocus(true)] else [];
      c.(calls := c.calls + focused + [SendMouseClickEvent(m, button, mouseUp, clickCount)])
    else
      c
  }

  /** `inject_mouse_wheel`: the wheel deltas go to a live browser, or nowhere. */
  function InjectMouseWheel(c: Client, m: MouseEvent, deltaX: int, deltaY: int): (c': Client)
    ensures HasLiveBrowser(c) ==> Sent(c, c', [SendMouseWheelEvent(m, deltaX, deltaY)])
    ensures !HasLiveBrowser(c) ==> c' == c
  {
    if HasLiveBrowser(c) then c.(calls := c.calls + [SendMouseWheelEvent(m, deltaX, deltaY)]) else c
  }

  /** `close_browser`: asks a live browser to close; teardown happens later, in `OnBeforeClose`. */
  function Close(c: Client, forceClose: bool): (c': Client)
    ensures HasLiveBrowser(c) ==> Sent(c, c', [EngineCall.CloseBrowser(forceClose)])
    ensures !HasLiveBrowser(c) ==> c' == c
    ensures c'.browser == c.browser && c'.closed == c.closed
  {
    if HasLiveBrowser(c) then c.(calls := c.calls + [EngineCall.CloseBrowser(forceClose)]) else c
  }

  /** `DoClose`: never vetoes the close. */
  function DoClose(c: Client): (allowVeto: bool)
    ensures !allowVeto
  {
    false
  }

  /** `OnBeforeClose`: the browser is gone and the client is marked closed. */
  function OnBeforeClose(c: Client): (c': Client)
    ensures c'.closed && c'.browser.None?
    ensures c'.(closed := c.closed, browser := c.browser) == c
  {
    c.(closed := true, browser := None)
  }

  /** `OnGotFocus`. */
  function OnGotFocus(c: Client): (c': Client)
    ensures c'.hasFocus
    ensures c'.(hasFocus := c.hasFocus) == c
  {
    c.(hasFocus := true)
  }

  /** `OnTakeFocus`: focus leaves the browser whichever direction it goes. */
  function OnTakeFocus(c: Client, next: bool): (c': Client)
    ensures !c'.hasFocus
    ensures c'.(hasFocus := c.hasFocus) == c
  {
    c.(hasFocus := false)
  }

  /** The outcome of `OnPreKeyEvent`: the client, the return value and the caller's flag afterwards. */
  datatype PreKeyResult = PreKeyResult(client: Client, handled: bool, isKeyboardShortcut: bool)

  /**
   * `OnPreKeyEvent`: applies the decision: the chosen command runs through
   * the same guarded dispatch as every other trigger, and the caller's flag
   * keeps its old value only when the decision leaves it unwritten.
   */
  function OnPreKeyEvent(c: Client, e: KeyEvent, isKeyboardShortcut: bool): (r: PreKeyResult)
    ensures r.handled == DecidePreKey(e).handled
    ensures r.isKeyboardShortcut == DecidePreKey(e).shortcutFlag.GetOr(isKeyboardShortcut)
    ensures DecidePreKey(e).command.None? ==> r.client == c
    ensures DecidePreKey(e).command.Some? ==> r.client == RunEditCommand(c, DecidePreKey(e).command.value)
  {
    var d := DecidePreKey(e);
    var c' := if d.command.Some? then RunEditCommand(c, d.command.value) else c;
    PreKeyResult(c', d.handled, d.shortcutFlag.GetOr(isKeyboardShortcut))
  }

  /** `OnKeyEvent`: always reports the event as handled, so the engine sends no native event back. */
  function OnKeyEvent(c: Client, e: KeyEvent): (handled: bool)
    ensures handled
  {
    true
  }

  /**
   * `OnBeforeContextMenu`: empties the engine's own menu, records the
   * position, replaces the host list with a fresh one for the current
   * selection, and raises the show flag.
   */
  function OnBeforeContextMenu(c: Client, engineMenu: seq<MenuItem>, x: real, y: real, selectionText: string): (r: (Client, seq<MenuItem>))
    ensures r.1 == []
    ensures r.0.showContextMenu && r.0.menuX == x && r.0.menuY == y
    ensures r.0.menuItems == BuildMenu(selectionText != "")
    ensures r.0.(showContextMenu := c.showContextMenu, menuItems := c.menuItems, menuX := c.menuX, menuY := c.menuY) == c
  {
    (c.(menuX := x, menuY := y, menuItems := BuildMenu(selectionText != ""), showContextMenu := true), [])
  }

  /** `OnContextMenuCommand`: a known id runs its command and reports success; any other id does nothing. */
  function OnContextMenuCommand(c: Client, commandId: int): (r: (Client, bool))
    ensures r.1 <==> CommandForId(commandId).Some?
    ensures r.1 ==> r.0 == RunEditCommand(c, CommandForId(commandId).value)
    ensures !r.1 ==> r.0 == c
  {
    match CommandForId(commandId)
    case Some(cmd) => (RunEditCommand(c, cmd), true)
    case None => (c, false)
  }

  /** `OnCursorChange`: remembers the translated cursor and always claims the change. */
  function OnCursorChange(c: Client, t: Cursor.CursorType): (r: (Client, bool))
    ensures r.1
    ensures r.0 == c.(uiCursor := Cursor.UiCursorFor(t))
  {
    (c.(uiCursor := Cursor.UiCursorFor(t)), true)
  }
}
