/**
 * The decision logic of the `SWM` class as pure functions: the manager's
 * state (the running flag, the focused window and the log of requests sent
 * so far), one step per event, and the event loop.  The class in module
 * Swm performs the same steps in place and is proved against these functions.
 */
module Reactor {
  import opened Wrappers
  import opened Protocol
  import opened Geometry

  /** The manager's fixed border: width 2, focused colour 0xffd787, normal colour 0x333333. */
  const BORDER_WIDTH: nat := 2
  const FOCUS_COLOR: Color := 0xffd787
  const NORMAL_COLOR: Color := 0x333333

  /** The events the manager asks for on the root window and on each mapped window. */
  const ROOT_EVENT_MASK: bv32 := SUBSTRUCTURE_REDIRECT_MASK | SUBSTRUCTURE_NOTIFY_MASK | KEY_PRESS_MASK
  const CLIENT_EVENT_MASK: bv32 := STRUCTURE_NOTIFY_MASK | ENTER_WINDOW_MASK

  // Keysyms of the bound keys (keysymdef.h)
  const XK_Q: Keysym := 0x51
  const XK_F: Keysym := 0x46
  const XK_H: Keysym := 0x48
  const XK_L: Keysym := 0x4c
  const XK_RETURN: Keysym := 0xff0d
  const XK_P: Keysym := 0x50

  /** What a bound key does. */
  datatype Action = Quit | FullScreen | Snap(position: SnapPosition) | Launch(program: string)

  /** The key bindings, in the order of the `switch` that tests them. */
  const KEY_BINDINGS: seq<(Keysym, Action)> := [
    (XK_Q, Quit),
    (XK_F, FullScreen),
    (XK_H, Snap(Left)),
    (XK_L, Snap(Right)),
    (XK_RETURN, Launch("alacritty")),
    (XK_P, Launch("dmenu_run"))
  ]

  /**
   * What the manager depends on but does not decide: the root window, the
   * screen, and the server's keysym-to-keycode translation.
   */
  datatype Env = Env(root: Window, screen: Screen, keycodeOf: Keysym -> Keycode)

  /** The screen is large enough for the full-screen subtractions not to trap. */
  predicate ValidEnv(env: Env) {
    3 * BORDER_WIDTH <= env.screen.width && 3 * BORDER_WIDTH <= env.screen.height
  }

  datatype WmState = WmState(running: bool, focused: Option<Window>, log: seq<Request>)

  /**
   * The index of the first binding whose key translates to `keycode`, as a
   * `switch` whose cases are tested in order picks the first case that
   * matches; None when no binding matches.
   */
  function FirstMatch(table: seq<(Keysym, Action)>, keycodeOf: Keysym -> Keycode, keycode: Keycode): (r: Option<nat>)
    ensures r.Some? ==> r.value < |table| && keycodeOf(table[r.value].0) == keycode
    ensures r.Some? ==> forall j :: 0 <= j < r.value ==> keycodeOf(table[j].0) != keycode
    ensures r.None? ==> forall j :: 0 <= j < |table| ==> keycodeOf(table[j].0) != keycode
  {
    if table == [] then None
    else if keycodeOf(table[0].0) == keycode then Some(0)
    else match FirstMatch(table[1..], keycodeOf, keycode)
      case None => None
      case Some(i) => Some(i + 1)
  }

  /** The action bound to `keycode`, if any. */
  function KeyAction(keycodeOf: Keysym -> Keycode, keycode: Keycode): Option<Action> {
    match FirstMatch(KEY_BINDINGS, keycodeOf, keycode)
    case None => None
    case Some(i) => Some(KEY_BINDINGS[i].1)
  }

  /** The requests that hand the focus from `previous` to `w`. */
  function FocusRequests(previous: Option<Window>, w: Window): seq<Request> {
    (if previous.Some? then [SetBorder(previous.value, NORMAL_COLOR)] else [])
    + [SetInputFocus(w, REVERT_TO_PARENT, CURRENT_TIME), Raise(w), SetBorder(w, FOCUS_COLOR)]
  }

  /** `focusWindow`. */
  function Focus(s: WmState, w: Window): WmState {
    s.(focused := Some(w), log := s.log + FocusRequests(s.focused, w))
  }

  /** The requests `handleMapRequest` sends before it focuses the window. */
  function MapRequests(w: Window): seq<Request> {
    [SelectInput(w, CLIENT_EVENT_MASK), MapWindow(w), SetBorderWidth(w, BORDER_WIDTH)]
  }

  /** `handleMapRequest`. */
  function MapRequestStep(s: WmState, w: Window): WmState {
    Focus(s.(log := s.log + MapRequests(w)), w)
  }

  /** The configure-window request `handleConfigureRequest` sends for an event. */
  function PassThrough(e: ConfigureRequestEvent): Request {
    Configure(e.window, e.valueMask,
      WindowChanges(e.x, e.y, e.width, e.height, e.borderWidth, e.above, e.detail))
  }

  /** The requests that carry out a bound action other than Quit on window `w`. */
  function ActionRequests(env: Env, a: Action, w: Window): seq<Request>
    requires ValidEnv(env)
  {
    match a
    case Quit => []
    case FullScreen =>
      var r := FullScreenRect(env.screen, BORDER_WIDTH);
      [MoveResize(w, r.x, r.y, r.width, r.height)]
    case Snap(position) => [Configure(w, SNAP_MASK, SnapChanges(env.screen, position))]
    case Launch(program) => [Spawn(program)]
  }

  /** `handleKeyPress`. */
  function KeyPressStep(env: Env, s: WmState, w: Window, keycode: Keycode, state: bv32): WmState
    requires ValidEnv(env)
  {
    if state & MOD4_MASK == 0 then s
    else match KeyAction(env.keycodeOf, keycode)
      case None => s
      case Some(Quit) => s.(running := false)
      case Some(a) => s.(log := s.log + ActionRequests(env, a, w))
  }

  /** One iteration of the event loop: dispatch on the event type. */
  function Step(env: Env, s: WmState, e: Event): WmState
    requires ValidEnv(env)
  {
    match e
    case MapRequest(w) => MapRequestStep(s, w)
    case ConfigureRequest(c) => s.(log := s.log + [PassThrough(c)])
    case KeyPress(w, keycode, state) => KeyPressStep(env, s, w, keycode, state)
    case ButtonPress(w) => Focus(s, w)
    case Other(_) => s
  }

  /** The requests `run` sends before its loop: root input selection, then `grabKeys`. */
  function StartupRequests(env: Env): seq<Request> {
    var k := env.keycodeOf;
    [SelectInput(env.root, ROOT_EVENT_MASK),
     GrabKey(k(XK_Q), MOD4_MASK, env.root),
     GrabKey(k(XK_F), MOD4_MASK, env.root),
     GrabKey(k(XK_H), MOD4_MASK, env.root),
     GrabKey(k(XK_L), MOD4_MASK, env.root),
     GrabKey(k(XK_RETURN), MOD4_MASK, env.root),
     GrabKey(k(XK_P), MOD4_MASK, env.root),
     GrabButton(1, MOD4_MASK, env.root),
     GrabButton(3, MOD4_MASK, env.root)]
  }

  /** Every event of `es` applied in order, whatever the running flag says. */
  function Fold(env: Env, s: WmState, es: seq<Event>): WmState
    requires ValidEnv(env)
    decreases |es|
  {
    if es == [] then s else Fold(env, Step(env, s, es[0]), es[1..])
  }

  datatype RunResult = RunResult(final: WmState, consumed: nat)

  /**
   * The loop `while running && XNextEvent(..) == 0`: the flag is tested
   * before each event is taken, so the loop stops before the event that
   * follows the one that cleared it.
   */
  function RunFrom(env: Env, s: WmState, es: seq<Event>): RunResult
    requires ValidEnv(env)
    decreases |es|
  {
    if !s.running || es == [] then RunResult(s, 0)
    else
      var r := RunFrom(env, Step(env, s, es[0]), es[1..]);
      RunResult(r.final, r.consumed + 1)
  }

  /** The colour the last border request for `w` in `log` set, if any. */
  function LastBorderColor(log: seq<Request>, w: Window): Option<Color>
    decreases |log|
  {
    if log == [] then None
    else
      var last := log[|log| - 1];
      if last.SetBorder? && last.window == w then Some(last.color)
      else LastBorderColor(log[..|log| - 1], w)
  }

  /**
   * The focus is exclusive and visible: a window's border was last set to
   * the focus colour exactly when it is the focused window.
   */
  ghost predicate FocusBorderInvariant(s: WmState) {
    forall w: Window :: LastBorderColor(s.log, w) == Some(FOCUS_COLOR) <==> s.focused == Some(w)
  }
}
