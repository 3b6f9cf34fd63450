# SWM — a model of a minimal X11 window manager's decision logic

SWM is a small floating window manager for X11. Nearly every line of it calls
Xlib. This project models the decisions under those calls, with the display
server seen only through the requests the manager sends it: an append-only
log of `Request` values (`SelectInput`, `MapWindow`, `SetBorderWidth`,
`SetBorder`, `SetInputFocus`, `Raise`, `Configure`, `MoveResize`, `GrabKey`,
`GrabButton`, and `Spawn` for a launched program).

Two entry points exist in `Sources/`, and they are modelled as separate
sources of logic:

- the `@main` class `SWM` (`Sources/SWM.swift`): the event loop, focus
  handoff, configure pass-through, key bindings, and the full-screen and snap
  geometry;
- the top-level script `Sources/main.swift`: the default configuration
  literal, the startup handler that detects another window manager, and the
  standing asynchronous error classifier.

Modules:

- `Protocol` (protocol.dfy): windows, keycodes, X constants, `Request`, `Event`.
- `Geometry` (geometry.dfy): the full-screen rectangle and the two half-screen
  snaps, pure functions of the screen size and the border width.
- `Reactor` (reactor.dfy): the class's behaviour as pure functions. `WmState`
  holds the running flag, the focused window and the log. `Step` handles one
  event, `RunFrom` runs the loop, and `KEY_BINDINGS` with `FirstMatch` gives
  the first-match-wins key `switch`. `LastBorderColor` gives the colour a
  window's border was last set to.
- `ReactorProperties` (reactor_properties.dfy): the lemmas. They cover the
  focus handoff, the exclusive focus border (a window's border was last set
  to the focus colour exactly when it is the focused window), the key
  bindings, the pass-through, and where the loop stops.
- `Swm` (swm.dfy): the class `WindowManager`. It has the fields `running`,
  `focusedWindow` and `log`, and one method per handler. Each method updates
  the fields in place. Each is proved to reach the state the matching
  `Reactor` function computes and to keep the focus-border invariant.
- `ErrorHandling` (error_handling.dfy): the classifier, checked against a
  table grouped by error code. Also the startup handler, and the two
  `XSetErrorHandler` installations that decide which handler is the fallback.
- `Settings` (settings.dfy): the `Config` and `Client` records and the
  script's configuration literal.

What the code does and does not do:

- The code has no client registry, no window-type or override-redirect
  filtering, no tag bits, no unmap/destroy eviction and no saved
  pre-full-screen geometry. `handleMapRequest` selects input, maps the window,
  sets its border width and focuses it. Buttons are grabbed once, on the root
  window, not per client.
- `focusWindow` recolours the previous focus even when it is the window being
  focused. That window's border ends with the focus colour (`FocusTwice`).
- The class uses border colours 0xffd787 and 0x333333. The script's
  configuration uses 0xFFFFFF and 0x000000. No code reads the configuration.
- The configuration literal does not name `totalWorkspaces`, a field that
  `Config` declares, so the model takes it as a parameter.
- `toggleFullScreen` is not a toggle. Each press sends the same rectangle.
- The classifier's fallback is the handler returned by the first
  `XSetErrorHandler` call. That is the handler installed before the startup
  check (Xlib's default), not the startup check itself (`InstallHandlers`).

## Model

| member | source | states |
|---|---|---|
| `Geometry.FullScreenRect` | Sources/SWM.swift:131-136 | origin (b, b), size (W - 3b, H - 3b); the bordered window ends exactly on the right and bottom edges; requires W, H >= 3b because the `UInt32` subtractions trap otherwise |
| `Geometry.SnapChanges` | Sources/SWM.swift:146-156 | y = 0, height = H, width = floor(W / 2), x = 0 on the left and x = width on the right; the unset fields stay zero |
| `Geometry.SnapHalvesAdjoin` | Sources/SWM.swift:146-158 | left.x + left.width = right.x; right.x + right.width <= W, with equality exactly when W is even |
| `Geometry.Rects1080p` | Sources/SWM.swift:135-155 | 1920 x 1080 with border 2 gives (2, 2, 1914, 1074), left (0, 0, 960, 1080) and right (960, 0, 960, 1080) |
| `Reactor.FirstMatch` | Sources/SWM.swift:108-123 | returns the index of the first binding whose keysym translates to the keycode, with no earlier binding matching; None exactly when no binding matches |
| `ReactorProperties.KeyActionIsFirstBinding` | Sources/SWM.swift:108-123 | a key's action is that of the first binding matching it, in both directions |
| `ReactorProperties.FocusRequestOrder` | Sources/SWM.swift:81-89 | logs SetBorder(old, normal) only if there was a focus, then SetInputFocus(w, RevertToParent), Raise(w) and SetBorder(w, focus), in that order: 3 requests with no previous focus, 4 otherwise; w becomes the focus and `running` is unchanged |
| `ReactorProperties.FocusHandoff` | Sources/SWM.swift:82-88 | w ends focused with the focus colour; a different previous focus ends with the normal colour; every other window's last border colour is unchanged |
| `ReactorProperties.FocusTwice` | Sources/SWM.swift:82-88 | after focusing A then B: B is focused with the focus colour; A ends normal if A != B and focus-coloured if A = B (recoloured normal, then focus) |
| `ReactorProperties.FocusKeepsInvariant` | Sources/SWM.swift:81-89 | a focus handoff keeps the focus border exclusive: last set to the focus colour exactly for the focused window |
| `ReactorProperties.StepKeepsInvariant` | Sources/SWM.swift:43-55 | every event keeps the focus border exclusive |
| `ReactorProperties.RunKeepsInvariant` | Sources/SWM.swift:43-56 | the whole loop keeps the focus border exclusive |
| `ReactorProperties.StartupKeepsInvariant` | Sources/SWM.swift:38-40 | the root input selection and the grabs set no border |
| `ReactorProperties.InitialInvariant` | Sources/SWM.swift:19-20 | with no focus and nothing sent, the invariant holds |
| `ReactorProperties.RunStopsAfterQuit` | Sources/SWM.swift:43-56 | the loop consumes a prefix of the events; the final state is that prefix applied in order; the flag was set before each consumed event; when events remain the flag is clear |
| `ReactorProperties.StoppedRunTakesNothing` | Sources/SWM.swift:43 | with the flag clear no event is taken and nothing changes |
| `ReactorProperties.KeyPressWithoutMod4` | Sources/SWM.swift:103-107 | without the Mod4 bit a key press changes nothing and logs nothing |
| `ReactorProperties.QuitOnlyStopsRunning` | Sources/SWM.swift:107-110 | with Mod4, Q's keycode only clears `running`, even if other bound keys share that keycode |
| `ReactorProperties.UnboundKeyIgnored` | Sources/SWM.swift:108-123 | a keycode no bound keysym translates to changes nothing |
| `ReactorProperties.FullScreenIsNotAToggle` | Sources/SWM.swift:131-136 | F logs MoveResize(w, 2, 2, W - 6, H - 6) whatever the prior state; two presses log it twice |
| `ReactorProperties.SnapKeys` | Sources/SWM.swift:113-116 | H and L log one Configure with mask exactly CWX, CWY, CWWidth, CWHeight and the left or right half |
| `ReactorProperties.MapRequestFocuses` | Sources/SWM.swift:73-79 | logs SelectInput(w, StructureNotify, EnterWindow), MapWindow(w), SetBorderWidth(w, 2), then exactly the focus requests; w becomes the focus with the focus colour |
| `ReactorProperties.ButtonPressFocuses` | Sources/SWM.swift:127-129 | the clicked window becomes the focus with the focus colour; `running` unchanged |
| `ReactorProperties.ConfigureRequestPassesThrough` | Sources/SWM.swift:91-100 | one Configure whose mask is the event's value-mask unchanged and whose seven fields are the event's x, y, width, height, border width, above and detail; focus and flag unchanged |
| `ReactorProperties.PassThroughInjective` | Sources/SWM.swift:91-100 | distinct configure requests give distinct Configure requests, so the pass-through loses nothing |
| `ReactorProperties.OtherEventsChangeNothing` | Sources/SWM.swift:53-54 | an unhandled event type changes nothing, once or twice |
| `Swm.WindowManager.constructor` | Sources/SWM.swift:19-31 | running, no focus, nothing sent, invariant holds |
| `Swm.WindowManager.Run` | Sources/SWM.swift:37-57 | the startup requests, then the loop: final state and number of events taken are those of `RunFrom`; keeps the invariant |
| `Swm.WindowManager.Dispatch` | Sources/SWM.swift:44-55 | the new state is `Step` of the old state and the event |
| `Swm.WindowManager.GrabKeys` | Sources/SWM.swift:59-71 | logs GrabKey for Q, F, H, L, Return and P, then GrabButton 1 and 3, all with Mod4 on the root window |
| `Swm.WindowManager.HandleMapRequest` | Sources/SWM.swift:73-79 | new state is `MapRequestStep`; keeps the invariant |
| `Swm.WindowManager.FocusWindow` | Sources/SWM.swift:81-89 | new state is `Focus`; keeps the invariant |
| `Swm.WindowManager.HandleConfigureRequest` | Sources/SWM.swift:91-101 | appends exactly the pass-through Configure; nothing else changes |
| `Swm.WindowManager.HandleKeyPress` | Sources/SWM.swift:103-125 | new state is `KeyPressStep`, so the chain of tests agrees with the first-match key table |
| `Swm.WindowManager.KeyPressMatchesSwitch` | Sources/SWM.swift:108-123 | the six tests in source order give the same action as the key table |
| `Swm.WindowManager.HandleButtonPress` | Sources/SWM.swift:127-129 | new state is `Focus` of the event's window |
| `Swm.WindowManager.ToggleFullScreen` | Sources/SWM.swift:131-136 | appends the full-screen MoveResize only |
| `Swm.WindowManager.SnapWindow` | Sources/SWM.swift:142-159 | appends one Configure(w, SNAP_MASK, SnapChanges(screen, position)); nothing else changes |
| `Swm.WindowManager.LaunchProgram` | Sources/SWM.swift:161-170 | appends one Spawn entry; no manager state changes, whether or not the launch succeeds |
| `ErrorHandling.Classify` | Sources/main.swift:55-69 | ignores exactly the pairs of the table grouped by error code (BadWindow with any request; BadMatch with SetInputFocus or ConfigureWindow; BadDrawable with PolyText8, PolyFillRectangle, PolySegment or CopyArea; BadAccess with GrabButton or GrabKey) |
| `ErrorHandling.HandleError` | Sources/main.swift:53-72 | ignorable: returns 0, logs nothing, never delegates; otherwise logs the event once, delegates once and returns the fallback's result unchanged; nil event: no classification or log, one delegation |
| `ErrorHandling.HandleErrorIsTotal` | Sources/main.swift:55-71 | every call either returns 0 without delegating or delegates exactly once and returns the fallback's result |
| `ErrorHandling.BadWindowNeverDelegated` | Sources/main.swift:56-57 | (BadWindow, any request) returns 0 and never reaches the fallback |
| `ErrorHandling.IgnoredPairsAreTheListedOnes` | Sources/main.swift:58-66 | apart from BadWindow, the table grouped by error code ignores exactly the switch's eight listed pairs, which are distinct |
| `ErrorHandling.AnotherWmCheck` | Sources/main.swift:33-40 | returns 0 exactly in a debug build; fatal otherwise |
| `ErrorHandling.InstallHandlers` | Sources/main.swift:33-53 | the active handler is the classifier, and its fallback is the handler installed before the startup check, never the startup check |
| `ErrorHandling.ClassifierFallsBackToXlibDefault` | Sources/main.swift:33-71 | at process start, the classifier delegates to Xlib's default handler |
| `Settings.DefaultConfig` | Sources/main.swift:13-20 | border width 2, focused 0xFFFFFF, unfocused 0x000000, gaps 4 and 4, mouse mask Mod4; the workspace count is not set by the literal |
| `Settings.EntryPointsDisagreeOnColors` | Sources/main.swift:13-20 | the script's configuration and the class agree on border width 2 and differ in both colours |

## Left out

- Opening and closing the display, `XSync`, cursor creation and `XDefineCursor`: one-shot Xlib side effects with no decision in them.
- The off-screen no-focus window and its input focus (main.swift:76-89): one-shot setup calls.
- Interning atoms into `netAtom` and `wmAtom`: `NetAtom` and `WMAtom` are not part of this model.
- The screen tuple of main.swift:24, which reads the height with `XDisplayWidth`: it is a value from a foreign call that nothing in the model reads.
- The `XGetWindowAttributes` queries in `toggleFullScreen` and `snapWindow`: their results are never used.
- Logging through `swift-log` and the standard-error stream extension: output only.
- Swm.WindowManager.LaunchProgram: the process launch is a `Spawn` log entry. The launch itself and its failure message are not modelled, because neither affects manager state.
- Swm.WindowManager.Run: `XNextEvent` blocks until the server delivers an event. The model takes the delivered events as a finite sequence, so its loop also ends when that sequence runs out.
- Geometry.FullScreenRect: on a screen under 6 pixels in either direction the source's `UInt32` subtraction traps. The model excludes such screens with a precondition, on the constructor and on the geometry, and does not model the trap.
- Swm.WindowManager.constructor: the screen size is a parameter, not queried from a display.
- Event types are dispatched by constructor rather than by raw event-type number. `Other` carries only type numbers other than those of the four handled events.
- Keycodes are modelled in 0..255, so the `KeyCode(event.keycode)` conversion never traps.
- A configure request's value-mask is modelled as a 32-bit value, so the `UInt32(event.value_mask)` conversion, which traps above 2^32 - 1, never traps; the server sends the mask as a 16-bit field.
- What Xlib's default error handler does when the classifier delegates to it: it is a function parameter.
- ErrorHandling.AnotherWmCheck: the release build's `fatalError` is a `Fatal` outcome value, not a process exit.
- `Client` and `Config` are data declarations that no modelled operation reads.
