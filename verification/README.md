# Offscreen browser host: key translation and client dispatch

This project models the core of a small macOS host for an offscreen
Chromium Embedded Framework (CEF) browser. The host draws its UI with
SDL3 and ImGui. The model covers three pieces:

- **Key translation** (`keycode_conversion.cpp`).
  - `keycode_conversion` turns an SDL keyboard event into the engine's
    `(windows_key_code, native_key_code, character)` triple.
  - `sdl_keycode_2_mac_keycode` is a switch table from SDL3 keycodes to
    macOS (Carbon `kVK_*`) virtual key codes. Any key it does not list
    maps to 0.
- **The browser client** (`MyClient` in `mycef.h`).
  - The pre-dispatch keyboard policy: Cmd+Z/X/C/V/A and forward delete.
  - The host-drawn context menu and the replay of its ids.
  - The seven edit commands and the key, mouse, frame and close
    injections. Each is guarded by a live browser, and the edit commands
    also need a focused frame.
  - Focus and lifetime callbacks, and the translation from engine cursors
    to ImGui cursors.
- **The render handler and the application object** (`MyRenderHandler`
  and `MyApp`).
  - The view rectangle and screen info the engine is told about.
  - Which paint path forwards, and popup forwarding.
  - The app's wrappers. Each does nothing, or answers a fixed default,
    when there is no client.

How the engine is represented: a `Browser` record with three flags (valid,
windowless, has a focused frame), held as an `Option`. Every call the host
makes into the engine is appended to the client's `calls` trace. "Forwards
exactly one call" and "does nothing" are therefore statements about that
trace.

## Modules

| file | module | what it holds |
|---|---|---|
| `wrappers.dfy` | `Wrappers` | `Option` |
| `ints.dfy` | `Ints` | `U16`, `U32`, `Char16` |
| `sdl_keys.dfy` | `SdlKeys` | the SDL3 keycode values the table uses |
| `mac_keys.dfy` | `MacKeys` | the Carbon `kVK_*` values the table uses |
| `win_keys.dfy` | `WinKeys` | `VK_A` |
| `keycode_conversion.dfy` | `KeycodeConversion` | `Convert`, `MacLookup`, `SdlToMac` |
| `mac_table_inverse.dfy` | `MacTableInverse` | an independent inverse table, round trips in both directions, injectivity |
| `mac_table_properties.dfy` | `MacTableProperties` | letters, digits, keypad separation, function keys, modifiers, arrows, the 0 default |
| `cef_types.dfy` | `CefTypes` | key, mouse and IME event records, edit commands, engine calls |
| `cursor.dfy` | `Cursor` | `cef_cursor_type_t` and the ImGui cursor translation |
| `my_render_handler.dfy` | `MyRenderHandler` | view rect, screen info, paint and popup forwarding |
| `context_menu.dfy` | `ContextMenu` | the menu builder and the id switch |
| `shortcuts.dfy` | `Shortcuts` | the pre-key decision |
| `my_client.dfy` | `MyClient` | the client state and its callbacks and guarded calls |
| `my_app.dfy` | `MyApp` | the app's wrappers |
| `session.dfy` | `Session` | sequences of host calls and engine callbacks |
| `input_pipeline.dfy` | `InputPipeline` | how the key tables meet the pre-key policy |

## Model

| member | source | states |
|---|---|---|
| KeycodeConversion.ToInt32 | keycode_conversion.cpp:7 | the `int key_code = keyboard_event.key` conversion gives a 32-bit signed value congruent to the keycode modulo 2^32 |
| KeycodeConversion.Convert | keycode_conversion.cpp:5-18 | a character is produced exactly for SDLK_A; SDLK_A gives `(VK_A, 0, 'a')`; every other key gives its keycode (as a signed int) and its scancode |
| KeycodeConversion.ConvertReadsOnlyKeyAndScancode | keycode_conversion.cpp:5-9 | two events with the same keycode and scancode translate identically, whatever their modifiers, timestamp or other fields |
| KeycodeConversion.ConvertPassesSdlKeycodesThrough | keycode_conversion.cpp:15-16 | any non-A keycode below 2^31 (every SDL keycode) passes through as `(key, scancode, 0)` |
| KeycodeConversion.MacLookup | keycode_conversion.cpp:20-251 | the listed cases of the switch, in source order; every listed result is a 7-bit macOS code |
| KeycodeConversion.SdlToMac | keycode_conversion.cpp:20-256 | total: a listed key gives its table entry and any other key gives 0; every result is below 0x80 |
| MacTableInverse.RoundTripControl | keycode_conversion.cpp:22-251 | listed keys below 0x30 come back from the inverse table |
| MacTableInverse.RoundTripDigits | keycode_conversion.cpp:22-251 | listed keys from 0x30 to 0x5F come back from the inverse table |
| MacTableInverse.RoundTripLettersAtoM | keycode_conversion.cpp:22-251 | listed keys from 0x60 to 0x6D come back from the inverse table |
| MacTableInverse.RoundTripLettersNtoZ | keycode_conversion.cpp:22-251 | listed keys from 0x6E to 0x7F come back from the inverse table |
| MacTableInverse.RoundTripNavigation | keycode_conversion.cpp:22-251 | listed scancode-derived keys up to keypad 1 (including keypad divide through keypad enter) come back from the inverse table |
| MacTableInverse.RoundTripKeypad | keycode_conversion.cpp:22-251 | listed keypad keys come back from the inverse table |
| MacTableInverse.RoundTripUpperFunctionKeys | keycode_conversion.cpp:22-251 | listed F13 to F20 come back from the inverse table |
| MacTableInverse.RoundTripMediaAndModifiers | keycode_conversion.cpp:22-251 | listed media, keypad-clear and modifier keys come back from the inverse table |
| MacTableInverse.ListedKeysRoundTrip | keycode_conversion.cpp:22-251 | for every listed SDL key, the independent macOS-to-SDL table gives the key back |
| MacTableInverse.ReverseAgrees00 | keycode_conversion.cpp:22-251 | macOS codes 0x00 to 0x0F named by the inverse table are what the switch gives for their key |
| MacTableInverse.ReverseAgrees10 | keycode_conversion.cpp:22-251 | as above for codes 0x10 to 0x1F |
| MacTableInverse.ReverseAgrees20 | keycode_conversion.cpp:22-251 | as above for codes 0x20 to 0x2F |
| MacTableInverse.ReverseAgrees30 | keycode_conversion.cpp:22-251 | as above for codes 0x30 to 0x37 |
| MacTableInverse.ReverseAgrees38 | keycode_conversion.cpp:22-251 | as above for codes 0x38 to 0x3F |
| MacTableInverse.ReverseAgrees40 | keycode_conversion.cpp:22-251 | as above for codes 0x40 to 0x47 |
| MacTableInverse.ReverseAgrees48 | keycode_conversion.cpp:22-251 | as above for codes 0x48 to 0x4F |
| MacTableInverse.ReverseAgrees50 | keycode_conversion.cpp:22-251 | as above for codes 0x50 to 0x57 |
| MacTableInverse.ReverseAgrees58 | keycode_conversion.cpp:22-251 | as above for codes 0x58 to 0x5F |
| MacTableInverse.ReverseAgrees60 | keycode_conversion.cpp:22-251 | as above for codes 0x60 to 0x67 |
| MacTableInverse.ReverseAgrees68 | keycode_conversion.cpp:22-251 | as above for codes 0x68 to 0x6F |
| MacTableInverse.ReverseAgrees70 | keycode_conversion.cpp:22-251 | as above for codes 0x70 to 0x77 |
| MacTableInverse.ReverseAgrees78 | keycode_conversion.cpp:22-251 | as above for codes 0x78 to 0x7F |
| MacTableInverse.ReverseTableAgrees | keycode_conversion.cpp:22-251 | every code the inverse table names is produced by the switch for the key it names, so the two tables are exact inverses |
| MacTableInverse.TableInjective | keycode_conversion.cpp:22-251 | two different listed SDL keys never map to the same macOS code |
| MacTableProperties.ZeroIsAmbiguous | keycode_conversion.cpp:24-25 | a result of 0 means "SDLK_A" or "not listed", and nothing else, because kVK_ANSI_A is 0 |
| MacTableProperties.UnproducedCodes | keycode_conversion.cpp:165-232 | forward delete, right Command and Fn are never produced |
| MacTableProperties.LettersMapToAnsiLetters | keycode_conversion.cpp:24-117 | each of the 26 letter keys maps to the ANSI code of the same letter |
| MacTableProperties.DigitsMapToAnsiAndKeypadDigits | keycode_conversion.cpp:58-153 | each main-row digit maps to the ANSI code of the same digit, and each keypad digit to the keypad code of the same digit |
| MacTableProperties.KeypadKeysMapToKeypadCodes | keycode_conversion.cpp:118-153 | every listed SDL keypad key maps to a macOS keypad code; unlisted keypad keys are covered by `UnlistedKeypadKeysCollideWithA` |
| MacTableProperties.UnlistedKeypadKeysCollideWithA | keycode_conversion.cpp:252-255 | keypad comma and keypad 00, absent from the table, get the default 0, which is the A key and not a keypad code |
| MacTableProperties.PrintableKeysMapBelow40 | keycode_conversion.cpp:24-117 | every printable (ASCII) key maps below 0x40 |
| MacTableProperties.PrintableKeysAvoidKeypadCodes | keycode_conversion.cpp:24-117 | no printable key lands on a keypad code |
| MacTableProperties.OtherKeysAvoidKeypadCodes | keycode_conversion.cpp:155-250 | no non-printable, non-keypad key lands on a keypad code |
| MacTableProperties.MainKeysAvoidKeypadCodes | keycode_conversion.cpp:24-250 | no key outside the keypad lands on a keypad code |
| MacTableProperties.KeypadSeparation | keycode_conversion.cpp:114-153 | a listed key maps to a keypad code exactly when it is a listed keypad key, so the keypad period and the period, and the keypad and main-row digits, stay apart |
| MacTableProperties.FunctionKeysKeepTheirNumber | keycode_conversion.cpp:184-242 | F1 to F20 map to the macOS function key with the same number; F21 to F24 are unlisted and give 0 |
| MacTableProperties.LeftModifiers | keycode_conversion.cpp:165-174 | left GUI, Shift, Alt and Ctrl map to Command, Shift, Option and Control |
| MacTableProperties.RightModifiers | keycode_conversion.cpp:175-180 | right Shift, Alt and Ctrl map to the right-hand codes; right GUI is unlisted and gives 0 |
| MacTableProperties.ModifierSidesDiffer | keycode_conversion.cpp:165-180 | left and right Shift, Option and Control map to different codes |
| MacTableProperties.ArrowKeys | keycode_conversion.cpp:243-250 | the four arrow keys map to the four arrow codes |
| MacTableProperties.EditingKeys | keycode_conversion.cpp:161-162 | SDL Delete maps to the backspace code; Backspace and Insert are unlisted and give 0 |
| Cursor.UiCursorFor | mycef.h:539-658 | each ImGui cursor is chosen for exactly its group of engine cursor types (text, hand, not-allowed, the four resize directions, the resize-all group) |
| Cursor.UnnamedTypesShowArrow | mycef.h:539-658 | every engine cursor type outside those groups shows the arrow |
| MyRenderHandler.GetViewRect | mycef.h:70-75 | the view is `(0, 0, width, height)` |
| MyRenderHandler.GetScreenInfo | mycef.h:77-88 | reports success; the scale is the pixel density; both screen rectangles are the view rectangle; other fields are left as given |
| MyRenderHandler.OnAcceleratedPaint | mycef.h:90-104 | forwards the shared surface exactly when rendering is accelerated and a callback is set |
| MyRenderHandler.OnPaint | mycef.h:106-141 | forwards the pixel buffer exactly when rendering is not accelerated and a callback is set |
| MyRenderHandler.OnPopupShow | mycef.h:145-148 | never suppressed: with a callback set, the show flag is forwarded; with none set, exactly the empty callback is invoked |
| MyRenderHandler.OnPopupSize | mycef.h:155-158 | never suppressed: with a callback set, the popup rectangle is forwarded; with none set, exactly the empty callback is invoked |
| MyRenderHandler.OnTextSelectionChanged | mycef.h:161-167 | records the selected text and changes nothing else |
| MyRenderHandler.AtMostOnePaintPath | mycef.h:100-139 | for one handler, the software and the accelerated paint paths never both forward |
| MyRenderHandler.ViewRectMatchesScreenInfo | mycef.h:74-85 | the screen rectangle and the available rectangle equal the view rectangle |
| ContextMenu.BuildMenu | mycef.h:339-364 | 9 entries with a selection and 6 without; Undo, Redo and a separator first, then a separator and Select All last; separators have empty titles and other entries non-empty ones; Cut, Copy and Delete are present exactly with a selection; Paste is always present |
| ContextMenu.PlainLayout | mycef.h:339-364 | without a selection the list is exactly Undo, Redo, separator, Paste, separator, Select All |
| ContextMenu.SelectionLayout | mycef.h:339-364 | with a selection the list is exactly Undo, Redo, separator, Cut, Copy, Paste, Delete, separator, Select All |
| ContextMenu.CommandForId | mycef.h:374-398 | an id names a command exactly when it is between 1001 and 1007 |
| ContextMenu.IdRoundTrip | mycef.h:339-398 | the id the builder gives a command replays that command, and only that id does |
| ContextMenu.SeparatorNotACommand | mycef.h:374-398 | the separator id -1 names no command |
| ContextMenu.BuiltEntriesReplayTheirLabel | mycef.h:339-398 | every non-separator entry the builder emits is accepted and replays the command its title names |
| ContextMenu.OfferedCommands | mycef.h:339-364 | Undo, Redo, Paste and Select All are always offered; Cut, Copy and Delete only with a selection |
| Shortcuts.DecidePreKey | mycef.h:231-304 | a key-down with Cmd and z/x/c/v/a in either case issues its command (z with Shift: redo), is handled and sets the flag; otherwise a key-down with native code 0x75 issues Delete, is handled and leaves the flag unwritten; every other key-down and every non-key-down event is not handled, issues nothing and writes false |
| Shortcuts.ShortcutsIgnoreCase | mycef.h:250-290 | an upper-case letter decides the same as its lower case |
| Shortcuts.ShiftOnlyTogglesRedo | mycef.h:256-263 | Shift changes the decision only for z |
| Shortcuts.DecisionReadsFourFields | mycef.h:231-304 | the decision reads only the type, the modifiers, the unmodified character and the native code |
| Shortcuts.ShortcutBeforeDelete | mycef.h:265-298 | a Cmd+X shortcut wins over the forward-delete check |
| MyClient.NewClient | mycef.h:183-197 | a new client shows the arrow, is open, unfocused, with no menu, no browser and no calls made |
| MyClient.RunEditCommand | mycef.h:437-483 | an edit command makes exactly one frame call when the browser is live with a focused frame, and otherwise changes nothing |
| MyClient.InjectKeyEvent | mycef.h:428-435 | the key event is sent exactly when the browser is live, and otherwise nothing changes |
| MyClient.RequestNewFrame | mycef.h:416-426 | one begin-frame is sent exactly for a live windowless browser |
| MyClient.InjectMouseMotion | mycef.h:490-496 | one move event, never "mouse leaving", is sent exactly when the browser is live |
| MyClient.InjectMouseUpDown | mycef.h:498-512 | for a live browser, a press sends focus and then the click, and a release sends only the click; otherwise nothing |
| MyClient.InjectMouseWheel | mycef.h:523-531 | the wheel deltas are sent exactly when the browser is live |
| MyClient.Close | mycef.h:514-521 | a live browser is asked to close, with the given force flag; the browser and the closed flag stay as they were |
| MyClient.DoClose | mycef.h:403-407 | the close is never vetoed |
| MyClient.OnBeforeClose | mycef.h:409-414 | the browser is dropped and the client is marked closed; nothing else changes |
| MyClient.OnGotFocus | mycef.h:221-224 | focus is set; nothing else changes |
| MyClient.OnTakeFocus | mycef.h:226-229 | focus is cleared in either direction; nothing else changes |
| MyClient.OnPreKeyEvent | mycef.h:231-304 | returns the decision's verdict; the caller's flag keeps its old value only when the decision leaves it unwritten; the chosen command goes through the same guard as every edit command |
| MyClient.OnKeyEvent | mycef.h:306-323 | always reports the event as handled |
| MyClient.OnBeforeContextMenu | mycef.h:326-365 | the engine's menu is emptied; the position is recorded; the host list is rebuilt for the selection; the show flag is raised |
| MyClient.OnContextMenuCommand | mycef.h:367-399 | a known id runs its command and returns true; any other id changes nothing and returns false |
| MyClient.OnCursorChange | mycef.h:533-662 | always claims the change and remembers the translated cursor |
| MyApp.HasFocus | mycef.h:757-764 | focused only with a client that has focus |
| MyApp.IsBrowserClosed | mycef.h:766-773 | closed when there is no client, otherwise the client's closed flag |
| MyApp.GetBrowser | mycef.h:775-782 | no browser without a client |
| MyApp.GetCursorType | mycef.h:903-910 | the arrow without a client |
| MyApp.ShouldShowContextMenu | mycef.h:839-841 | true only with a client whose show flag is up |
| MyApp.HideContextMenu | mycef.h:843-847 | lowers the show flag and makes no engine call |
| MyApp.Close | mycef.h:749-755 | a close request reaches the engine exactly when a client with a live browser exists, and nothing else in the client changes; otherwise nothing changes |
| MyApp.RequestNewFrame | mycef.h:792-799 | a begin-frame reaches the engine exactly for a client with a live windowless browser, and nothing else in the client changes; otherwise nothing changes |
| MyApp.Edit | mycef.h:801-837 | an edit command reaches the engine exactly when a client with a live, focused browser exists, and nothing else in the client changes; otherwise nothing changes |
| MyApp.InjectMouseMotion | mycef.h:895-901 | the move reaches the engine exactly when a client with a live browser exists, and nothing else in the client changes; otherwise nothing changes |
| MyApp.InjectMouseUpDown | mycef.h:912-922 | with a client whose browser is live, a press sends focus and then the click and a release sends only the click, and nothing else in the client changes; otherwise nothing changes |
| MyApp.InjectMouseWheel | mycef.h:924-932 | the wheel reaches the engine exactly when a client with a live browser exists, and nothing else in the client changes; otherwise nothing changes |
| MyApp.InjectKeyEvent | mycef.h:934-940 | the key reaches the engine exactly when a client with a live browser exists, and nothing else in the client changes; otherwise nothing changes |
| MyApp.SendIme | mycef.h:942-975 | the shared shape of the IME injections: one engine call appended, and nothing else in the client changed, when a client with a live browser exists; otherwise nothing changes |
| MyApp.ImeCommitText | mycef.h:942-948 | with a client whose browser is live, exactly one commit call carrying the text, range and cursor position is sent and nothing else in the client changes; otherwise nothing changes |
| MyApp.ImeSetComposition | mycef.h:950-959 | with a client whose browser is live, exactly one set-composition call carrying the text, underlines and both ranges is sent and nothing else in the client changes; otherwise nothing changes |
| MyApp.ImeFinishComposingText | mycef.h:961-967 | with a client whose browser is live, exactly one finish-composing call carrying the keep-selection flag is sent and nothing else in the client changes; otherwise nothing changes |
| MyApp.ImeCancelComposition | mycef.h:969-975 | with a client whose browser is live, exactly one cancel-composition call is sent and nothing else in the client changes; otherwise nothing changes |
| MyApp.NoClientDefaults | mycef.h:757-782 | without a client: not focused, closed, no browser, arrow cursor, no menu |
| Session.Callback | mycef.h:221-414 | an engine callback adds at most one engine call, keeps the closed flag, and with no browser changes only UI state |
| Session.Step | mycef.h:749-975 | one event keeps the trace as a prefix, adds at most two calls, and never creates or removes the client |
| Session.Run | mycef.h:749-975 | any sequence of events only appends to the trace, at most two calls per event |
| Session.StepAfterTeardown | mycef.h:409-531 | once the browser is gone and the client closed, one more event sends nothing and keeps it so |
| Session.SilentAfterTeardown | mycef.h:409-531 | after teardown, no sequence of host calls or engine callbacks reaches the engine, and the app reports closed |
| Session.BeforeCloseSilences | mycef.h:409-414 | after `OnBeforeClose`, every later command and injection is a no-op |
| Session.NoClientStaysInert | mycef.h:749-975 | an app without a client stays exactly as it is under any sequence of events |
| InputPipeline.TableCodesNeverReachDelete | mycef.h:296-298 | a native code taken from the SDL-to-macOS table never reaches the Delete branch, and the shortcut flag is always written |
| InputPipeline.SdlDeleteIsBackspace | keycode_conversion.cpp:161-162 | SDL's Delete key gives the macOS backspace code, which is not the forward-delete code the policy tests |
| InputPipeline.ConvertedScancodeReachesDelete | mycef.h:294-298 | with the native code taken from `keycode_conversion`, a key-down that is not a shortcut issues Delete exactly for a non-A key with scancode 0x75 |

## What the code does not do

- Characters: `keycode_conversion` produces a character only for SDLK_A
  (always `'a'`, whatever the modifiers), and 0 for every other key
  (`KeycodeConversion.Convert`). There is no shifted-symbol table.
- There is no classifier for modifier keys and none for skipping key-up
  events; every translated event is handed on as it is.
- There is no IME composition state. The four IME entry points only
  forward one guarded call each (`MyApp.ImeCommitText` and the three
  after it).
- Cut, like every edit command, needs only a live browser with a focused
  frame; no selection is checked (`MyClient.RunEditCommand`).
- Whether the popup layer is drawn is decided by compositing code that is
  not visible. The render handler forwards both popup notifications
  unconditionally (`MyRenderHandler.OnPopupShow`).
- Backspace is unlisted in the SDL-to-macOS table and gives 0, while SDL's
  Delete key gets the backspace code (`MacTableProperties.EditingKeys`).

## Left out

- `cefsimple_offscreen.cc`: process start-up, the message loop and a JPEG
  dump. It is I/O only.
- `teapot_data.h`: GPU vertex data and float arithmetic.
- `metal_view.h`: Objective-C declarations only. There is no IME
  composition state machine, because its marked-text and selection state
  have no visible implementation. The IME injections are modelled as
  guarded calls.
- `keycode_conversion.h`: declarations only. `debug_print_cef_key_event`
  has no visible body.
- Members of `mycef.h` with no visible body: `UpdateDimensions` (so
  `update_render_handler_dimensions` too), `OnAfterCreated`, the
  `MyRenderHandler` constructor, `OnChromeCommand`,
  `OnBeforeCommandLineProcessing`, `OnScheduleMessagePumpWork`,
  `encode_render_command`, `update_geometry`, `get_macos_cache_dir`.
  The model takes the render handler's fields as given and the browser as
  set from outside.
- Popup compositing state (`m_should_show_popup`, `m_popup_pos`): the
  callbacks that set it are not visible. Only the unconditional forwarding
  in `OnPopupShow` and `OnPopupSize` is modelled.
- `render_context_menu` and all Metal and ImGui drawing. Its separator
  branch draws only when the label is non-empty, and the builder never
  gives a separator a label (`ContextMenu.BuildMenu`), so separators are
  never drawn. A click on an entry issues its command: ids 1001-1005 and
  1007 go through the app's own edit functions (`MyApp.Edit`), and id 1006
  calls the client's `delete_selection` directly
  (`MyClient.RunEditCommand` with `Delete`, the same step `MyApp.Edit`
  takes when a client exists). Every click then lowers the client's show flag
  (mycef.h:884-885), which is the effect of `MyApp.HideContextMenu`; the
  two steps are not composed into one member.
- `OnContextInitialized`: browser creation with a hard-coded URL.
- Logging (`std::cout`), threads and callback delivery across threads. The
  code takes no locks, and a concurrency model would be invented.
- Pixel buffers and IOSurfaces are opaque tokens. `GetScreenInfo` converts
  the integer pixel density to `float`; the model keeps it exact as a real.
- Header constants: `mac_keycode.h`, `win_keycode.h` and the SDL headers
  are not part of this model. The values used are the SDL3 keycodes
  (`SDL_keycode.h`), Apple's Carbon HIToolbox `Events.h` `kVK_*` codes,
  and `VK_A` = 0x41.
- MyClient.Close: the source's default argument `force_close = true` is
  not modelled; the flag is always passed explicitly. The only visible
  caller, `MyApp::close`, passes its own flag.
- Session.Step: return values (handled flags, `DoClose`, `OnKeyEvent`) are
  dropped, and the pre-key handler always runs with its flag lowered.
  Those values are stated by the client members themselves.
