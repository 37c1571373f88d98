/**
 * A browser session as a sequence of events: the host's calls into the
 * app and the engine's callbacks into the client, applied one after the
 * other. Return values are dropped; what remains is the client's state
 * and its trace of engine calls.
 */
module Session {
  import opened Wrappers
  import opened CefTypes
  import Cursor
  import MyClient
  import opened MyApp

  datatype Event =
    // the host's calls into the app
    | HostEdit(command: EditCommand)
    | HostKey(keyEvent: KeyEvent)
    | HostMouseMotion(mouseEvent: MouseEvent)
    | HostMouseUpDown(mouseEvent: MouseEvent, button: MouseButton, mouseUp: bool, clickCount: int)
    | HostMouseWheel(mouseEvent: MouseEvent, deltaX: int, deltaY: int)
    | HostImeCommit(text: string, range: Range, relativeCursorPos: int)
    | HostImeSetComposition(text: string, underlines: seq<CompositionUnderline>, replacementRange: Range, selectionRange: Range)
    | HostImeFinish(keepSelection: bool)
    | HostImeCancel
    | HostRequestFrame
    | HostClose(forceClose: bool)
    | HostHideMenu
    // the engine's callbacks into the client
    | EnginePreKey(keyEvent: KeyEvent)
    | EngineKey(keyEvent: KeyEvent)
    | EngineContextMenu(x: real, y: real, selectionText: string)
    | EngineMenuCommand(commandId: int)
    | EngineCursor(cursorType: Cursor.CursorType)
    | EngineGotFocus
    | EngineTakeFocus(next: bool)
    | EngineBeforeClose

  /**
   * The client after one engine callback (`Step` passes host calls to the
   * app instead). The pre-key handler runs with the caller's flag lowered;
   * the flag and every return value are dropped.
   */
  function Callback(c: MyClient.Client, ev: Event): (c': MyClient.Client)
    ensures c.calls <= c'.calls && |c'.calls| <= |c.calls| + 1
    ensures c.browser.None? ==> c' == c.(uiCursor := c'.uiCursor, closed := c'.closed, hasFocus := c'.hasFocus,
      showContextMenu := c'.showContextMenu, menuItems := c'.menuItems, menuX := c'.menuX, menuY := c'.menuY)
    ensures c.closed ==> c'.closed
  {
    match ev
    case EnginePreKey(e) => MyClient.OnPreKeyEvent(c, e, false).client
    case EngineContextMenu(x, y, sel) => MyClient.OnBeforeContextMenu(c, [], x, y, sel).0
    case EngineMenuCommand(id) => MyClient.OnContextMenuCommand(c, id).0
    case EngineCursor(t) => MyClient.OnCursorChange(c, t).0
    case EngineGotFocus => MyClient.OnGotFocus(c)
    case EngineTakeFocus(next) => MyClient.OnTakeFocus(c, next)
    case EngineBeforeClose => MyClient.OnBeforeClose(c)
    case _ => c
  }

  /** The app after one event. */
  function Step(a: App, ev: Event): (a': App)
    ensures a'.client.Some? <==> a.client.Some?
    ensures Calls(a) <= Calls(a')
    ensures |Calls(a')| <= |Calls(a)| + 2
  {
    match ev
    case HostEdit(cmd) => Edit(a, cmd)
    case HostKey(e) => InjectKeyEvent(a, e)
    case HostMouseMotion(m) => InjectMouseMotion(a, m)
    case HostMouseUpDown(m, b, up, n) => InjectMouseUpDown(a, m, b, up, n)
    case HostMouseWheel(m, dx, dy) => InjectMouseWheel(a, m, dx, dy)
    case HostImeCommit(text, range, pos) => MyApp.ImeCommitText(a, text, range, pos)
    case HostImeSetComposition(text, lines, repl, sel) => MyApp.ImeSetComposition(a, text, lines, repl, sel)
    case HostImeFinish(keep) => MyApp.ImeFinishComposingText(a, keep)
    case HostImeCancel => MyApp.ImeCancelComposition(a)
    case HostRequestFrame => RequestNewFrame(a)
    case HostClose(force) => Close(a, force)
    case HostHideMenu => HideContextMenu(a)
    case _ => WithClient(a, (c: MyClient.Client) => Callback(c, ev))
  }

  /** The app after a sequence of events, in order. */
  function Run(a: App, events: seq<Event>): (a': App)
    ensures a'.client.Some? <==> a.client.Some?
    ensures Calls(a) <= Calls(a')
    ensures |Calls(a')| <= |Calls(a)| + 2 * |events|
    decreases |events|
  {
    if events == [] then a else Run(Step(a, events[0]), events[1..])
  }

  /** The browser is gone (or there never was a client) and the client, if any, is marked closed. */
  predicate TornDown(a: App) {
    a.client.None? || (a.client.value.browser.None? && a.client.value.closed)
  }

  /** Once torn down, an app stays torn down and no event reaches the engine. */
  lemma StepAfterTeardown(a: App, ev: Event)
    requires TornDown(a)
    ensures TornDown(Step(a, ev))
    ensures Calls(Step(a, ev)) == Calls(a)
  {
  }

  /** After teardown, whatever the host and the engine do, the engine receives nothing more. */
  lemma {:induction false} SilentAfterTeardown(a: App, events: seq<Event>)
    requires TornDown(a)
    ensures TornDown(Run(a, events))
    ensures IsBrowserClosed(Run(a, events))
    ensures Calls(Run(a, events)) == Calls(a)
    decreases |events|
  {
    if events != [] {
      StepAfterTeardown(a, events[0]);
      SilentAfterTeardown(Step(a, events[0]), events[1..]);
    }
  }

  /** `OnBeforeClose` silences every later edit command and injection. */
  lemma BeforeCloseSilences(a: App, events: seq<Event>)
    ensures Calls(Run(a, [EngineBeforeClose] + events)) == Calls(a)
    ensures IsBrowserClosed(Run(a, [EngineBeforeClose] + events))
  {
    var a1 := Step(a, EngineBeforeClose);
    assert Run(a, [EngineBeforeClose] + events) == Run(a1, events) by {
      assert ([EngineBeforeClose] + events)[1..] == events;
    }
    SilentAfterTeardown(a1, events);
  }

  /** An app without a client never gets one and answers every query with its default. */
  lemma {:induction false} NoClientStaysInert(events: seq<Event>)
    ensures Run(App(None), events) == App(None)
    decreases |events|
  {
    if events != [] {
      NoClientStaysInert(events[1..]);
    }
  }
}
