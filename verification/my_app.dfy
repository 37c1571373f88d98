/**
 * The application object (`MyApp`): the host's entry points. Each one
 * forwards to the client when there is one and otherwise does nothing or
 * reports a fixed default.
 */
module MyApp {
  import opened Wrappers
  import opened CefTypes
  import Cursor
  import opened MyClient

  datatype App = App(client: Option<Client>)

  /** The engine calls made so far through the app's client. */
  function Calls(a: App): seq<EngineCall> {
    if a.client.Some? then a.client.value.calls else []
  }

  /** The app with its client (if any) replaced by `f` of it. */
  function WithClient(a: App, f: Client -> Client): (a': App)
    ensures a.client.None? ==> a' == a
    ensures a.client.Some? ==> a' == App(Some(f(a.client.value)))
  {
    match a.client
    case None => a
    case Some(c) => App(Some(f(c)))
  }

  /** `has_focus`: false without a client. */
  function HasFocus(a: App): (r: bool)
    ensures r <==> a.client.Some? && a.client.value.hasFocus
  {
    if a.client.Some? then a.client.value.hasFocus else false
  }

  /** `is_browser_closed`: an app without a client counts as closed. */
  function IsBrowserClosed(a: App): (r: bool)
    ensures r <==> a.client.None? || a.client.value.closed
  {
    if a.client.Some? then a.client.value.closed else true
  }

  /** `get_browser`: no browser without a client. */
  function GetBrowser(a: App): (r: Option<Browser>)
    ensures r.Some? <==> a.client.Some? && a.client.value.browser.Some?
    ensures r.Some? ==> r == a.client.value.browser
  {
    if a.client.Some? then a.client.value.browser else None
  }

  /** `get_cursor_type`: the arrow without a client. */
  function GetCursorType(a: App): (r: Cursor.UiCursor)
    ensures a.client.None? ==> r == Cursor.Arrow
    ensures a.client.Some? ==> r == a.client.value.uiCursor
  {
    if a.client.Some? then a.client.value.uiCursor else Cursor.Arrow
  }

  /** `should_show_context_menu`. */
  function ShouldShowContextMenu(a: App): (r: bool)
    ensures r <==> a.client.Some? && a.client.value.showContextMenu
  {
    a.client.Some? && a.client.value.showContextMenu
  }

  /** `hide_context_menu`: lowers the show flag and keeps the entries. */
  function HideContextMenu(a: App): (a': App)
    ensures !ShouldShowContextMenu(a')
    ensures Calls(a') == Calls(a)
    ensures a.client.Some? ==> a'.client == Some(a.client.value.(showContextMenu := false))
    ensures a.client.None? ==> a' == a
  {
    WithClient(a, (c: Client) => c.(showContextMenu := false))
  }

  /** `close`. */
  function Close(a: App, forceClose: bool): (a': App)
    ensures ReachesLiveBrowser(a) ==> Calls(a') == Calls(a) + [EngineCall.CloseBrowser(forceClose)]
    ensures !ReachesLiveBrowser(a) ==> a' == a
    ensures IsBrowserClosed(a') == IsBrowserClosed(a) && GetBrowser(a') == GetBrowser(a)
    ensures ReachesLiveBrowser(a) ==> OnlyCallsChanged(a, a')
  {
    WithClient(a, c => MyClient.Close(c, forceClose))
  }

  /** `request_new_frame`. */
  function RequestNewFrame(a: App): (a': App)
    ensures ReachesWindowlessBrowser(a) ==> Calls(a') == Calls(a) + [SendExternalBeginFrame]
    ensures ReachesWindowlessBrowser(a) ==> OnlyCallsChanged(a, a')
    ensures !ReachesWindowlessBrowser(a) ==> a' == a
  {
    WithClient(a, c => MyClient.RequestNewFrame(c))
  }

  /**
   * `copy`, `cut`, `paste`, `undo`, `redo`, `select_all`, and the direct
   * `m_client->delete_selection()` of the menu renderer: each reaches the
   * client's guarded command only when there is a client.
   */
  function Edit(a: App, cmd: EditCommand): (a': App)
    ensures ReachesFocusedFrame(a) ==> Calls(a') == Calls(a) + [FrameCommand(cmd)]
    ensures ReachesFocusedFrame(a) ==> OnlyCallsChanged(a, a')
    ensures !ReachesFocusedFrame(a) ==> a' == a
  {
    WithClient(a, c => RunEditCommand(c, cmd))
  }

  /** `inject_mouse_motion`. */
  function InjectMouseMotion(a: App, m: MouseEvent): (a': App)
    ensures ReachesLiveBrowser(a) ==> Calls(a') == Calls(a) + [SendMouseMoveEvent(m, false)]
    ensures !ReachesLiveBrowser(a) ==> a' == a
    ensures ReachesLiveBrowser(a) ==> OnlyCallsChanged(a, a')
  {
    WithClient(a, c => MyClient.InjectMouseMotion(c, m))
  }

  /** `inject_mouse_up_down`. */
  function InjectMouseUpDown(a: App, m: MouseEvent, button: MouseButton, mouseUp: bool, clickCount: int): (a': App)
    ensures ReachesLiveBrowser(a) && !mouseUp ==>
              Calls(a') == Calls(a) + [SetFocus(true), SendMouseClickEvent(m, button, false, clickCount)]
    ensures ReachesLiveBrowser(a) && mouseUp ==> Calls(a') == Calls(a) + [SendMouseClickEvent(m, button, true, clickCount)]
    ensures !ReachesLiveBrowser(a) ==> a' == a
    ensures ReachesLiveBrowser(a) ==> OnlyCallsChanged(a, a')
  {
    WithClient(a, c => MyClient.InjectMouseUpDown(c, m, button, mouseUp, clickCount))
  }

  /** `inject_mouse_wheel`. */
  function InjectMouseWheel(a: App, m: MouseEvent, deltaX: int, deltaY: int): (a': App)
    ensures ReachesLiveBrowser(a) ==> Calls(a') == Calls(a) + [SendMouseWheelEvent(m, deltaX, deltaY)]
    ensures !ReachesLiveBrowser(a) ==> a' == a
    ensures ReachesLiveBrowser(a) ==> OnlyCallsChanged(a, a')
  {
    WithClient(a, c => MyClient.InjectMouseWheel(c, m, deltaX, deltaY))
  }

  /** `inject_key_event`. */
  function InjectKeyEvent(a: App, e: KeyEvent): (a': App)
    ensures ReachesLiveBrowser(a) ==> Calls(a') == Calls(a) + [SendKeyEvent(e)]
    ensures !ReachesLiveBrowser(a) ==> a' == a
    ensures ReachesLiveBrowser(a) ==> OnlyCallsChanged(a, a')
  {
    WithClient(a, c => MyClient.InjectKeyEvent(c, e))
  }

  /** A client whose browser is live: the combined guard of every injection through the app. */
  predicate ReachesLiveBrowser(a: App) {
    a.client.Some? && HasLiveBrowser(a.client.value)
  }

  /** The guard of `request_new_frame` through the app: a client with a live windowless browser. */
  predicate ReachesWindowlessBrowser(a: App) {
    ReachesLiveBrowser(a) && a.client.value.browser.value.windowRenderingDisabled
  }

  /** The guard of the edit commands through the app: a client with a live browser and a focused frame. */
  predicate ReachesFocusedFrame(a: App) {
    a.client.Some? && CanEdit(a.client.value)
  }

  /** `a'` keeps `a`'s client and changes nothing in it but the trace of engine calls. */
  predicate OnlyCallsChanged(a: App, a': App) {
    a.client.Some? && a'.client == Some(a.client.value.(calls := Calls(a')))
  }

  /** The app after one IME call: appended when the guard holds, otherwise unchanged. */
  function SendIme(a: App, call: EngineCall): (a': App)
    ensures ReachesLiveBrowser(a) ==> Calls(a') == Calls(a) + [call] && OnlyCallsChanged(a, a')
    ensures !ReachesLiveBrowser(a) ==> a' == a
  {
    if ReachesLiveBrowser(a) then WithClient(a, (c: Client) => c.(calls := c.calls + [call])) else a
  }

  /** `inject_ime_commit_text`. */
  function ImeCommitText(a: App, text: string, range: Range, relativeCursorPos: int): (a': App)
    ensures ReachesLiveBrowser(a) ==> Calls(a') == Calls(a) + [EngineCall.ImeCommitText(text, range, relativeCursorPos)]
    ensures ReachesLiveBrowser(a) ==> OnlyCallsChanged(a, a')
    ensures !ReachesLiveBrowser(a) ==> a' == a
  {
    SendIme(a, EngineCall.ImeCommitText(text, range, relativeCursorPos))
  }

  /** `inject_ime_set_composition`. */
  function ImeSetComposition(a: App, text: string, underlines: seq<CompositionUnderline>, replacementRange: Range, selectionRange: Range): (a': App)
    ensures ReachesLiveBrowser(a) ==> Calls(a') == Calls(a) + [EngineCall.ImeSetComposition(text, underlines, replacementRange, selectionRange)]
    ensures ReachesLiveBrowser(a) ==> OnlyCallsChanged(a, a')
    ensures !ReachesLiveBrowser(a) ==> a' == a
  {
    SendIme(a, EngineCall.ImeSetComposition(text, underlines, replacementRange, selectionRange))
  }

  /** `inject_ime_finish_composing_text`. */
  function ImeFinishComposingText(a: App, keepSelection: bool): (a': App)
    ensures ReachesLiveBrowser(a) ==> Calls(a') == Calls(a) + [EngineCall.ImeFinishComposingText(keepSelection)]
    ensures ReachesLiveBrowser(a) ==> OnlyCallsChanged(a, a')
    ensures !ReachesLiveBrowser(a) ==> a' == a
  {
    SendIme(a, EngineCall.ImeFinishComposingText(keepSelection))
  }

  /** `inject_ime_cancel_composition`. */
  function ImeCancelComposition(a: App): (a': App)
    ensures ReachesLiveBrowser(a) ==> Calls(a') == Calls(a) + [EngineCall.ImeCancelComposition]
    ensures ReachesLiveBrowser(a) ==> OnlyCallsChanged(a, a')
    ensures !ReachesLiveBrowser(a) ==> a' == a
  {
    SendIme(a, EngineCall.ImeCancelComposition)
  }

  /** Without a client every query answers its default. */
  lemma NoClientDefaults()
    ensures !HasFocus(App(None)) && IsBrowserClosed(App(None))
    ensures GetBrowser(App(None)).None? && GetCursorType(App(None)) == Cursor.Arrow
    ensures !ShouldShowContextMenu(App(None))
  {
  }
}
