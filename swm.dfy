/**
 * The `SWM` class: the event loop and its handlers, changing the running
 * flag and the focused window in place and appending to the request log.
 * Each method is proved to leave the state that the matching function of
 * module Reactor computes, and to keep the focus border exclusive.
 */
module Swm {
  import opened Wrappers
  import opened Protocol
  import opened Geometry
  import opened Reactor
  import opened ReactorProperties

  class WindowManager {
    const root: Window
    const screen: Screen
    /** The server's keysym-to-keycode translation (`XKeysymToKeycode`). */
    const keycodeOf: Keysym -> Keycode
    var running: bool
    var focusedWindow: Option<Window>
    /** Every request sent to the server so far, oldest first. */
    var log: seq<Request>

    function Env(): Env {
      Reactor.Env(root, screen, keycodeOf)
    }

    function State(): WmState
      reads this
    {
      WmState(running, focusedWindow, log)
    }

    ghost predicate Valid()
      reads this
    {
      ValidEnv(Env()) && FocusBorderInvariant(State())
    }

    /** A manager that runs, focuses nothing and has sent nothing. */
    constructor (root: Window, screen: Screen, keycodeOf: Keysym -> Keycode)
      requires 3 * BORDER_WIDTH <= screen.width && 3 * BORDER_WIDTH <= screen.height
      ensures Valid()
      ensures this.root == root && this.screen == screen && this.keycodeOf == keycodeOf
      ensures running && focusedWindow == None && log == []
    {
      this.root := root;
      this.screen := screen;
      this.keycodeOf := keycodeOf;
      running := true;
      focusedWindow := None;
      log := [];
      new;
      InitialInvariant(true);
    }

    /**
     * `run`: select the root window's events, grab the bound keys and
     * buttons, then take events while the flag is set.  Returns how many
     * events were taken; the state is that of the loop of Reactor.RunFrom.
     */
    method Run(events: seq<Event>) returns (consumed: nat)
      requires Valid()
      modifies this
      ensures Valid()
      ensures RunResult(State(), consumed) ==
        RunFrom(Env(), old(State()).(log := old(log) + StartupRequests(Env())), events)
    {
      log := log + [SelectInput(root, ROOT_EVENT_MASK)];
      GrabKeys();
      assert log == old(log) + StartupRequests(Env());
      StartupKeepsInvariant(Env(), old(State()));
      ghost var start := State();
      consumed := 0;
      while running && consumed < |events|
        invariant consumed <= |events|
        invariant Valid()
        invariant var r := RunFrom(Env(), State(), events[consumed..]);
          RunFrom(Env(), start, events) == RunResult(r.final, consumed + r.consumed)
        decreases |events| - consumed
      {
        assert events[consumed..][1..] == events[consumed + 1..];
        Dispatch(events[consumed]);
        consumed := consumed + 1;
      }
    }

    /** The body of the loop: the `switch` on the event type. */
    method Dispatch(e: Event)
      requires Valid()
      modifies this
      ensures Valid()
      ensures State() == Step(Env(), old(State()), e)
    {
      match e {
        case MapRequest(w) => HandleMapRequest(w);
        case ConfigureRequest(c) => HandleConfigureRequest(c);
        case KeyPress(w, keycode, state) => HandleKeyPress(w, keycode, state);
        case ButtonPress(w) => HandleButtonPress(w);
        case Other(_) =>
      }
    }

    /** `grabKeys`: the six bound keys, then buttons 1 and 3, all with Mod4 on the root window. */
    method GrabKeys()
      modifies this
      ensures running == old(running) && focusedWindow == old(focusedWindow)
      ensures log == old(log) + StartupRequests(Env())[1..]
    {
      var modifiers := MOD4_MASK;
      log := log + [GrabKey(keycodeOf(XK_Q), modifiers, root)];
      log := log + [GrabKey(keycodeOf(XK_F), modifiers, root)];
      log := log + [GrabKey(keycodeOf(XK_H), modifiers, root)];
      log := log + [GrabKey(keycodeOf(XK_L), modifiers, root)];
      log := log + [GrabKey(keycodeOf(XK_RETURN), modifiers, root)];
      log := log + [GrabKey(keycodeOf(XK_P), modifiers, root)];
      log := log + [GrabButton(1, modifiers, root)];
      log := log + [GrabButton(3, modifiers, root)];
    }

    method HandleMapRequest(w: Window)
      requires Valid()
      modifies this
      ensures Valid()
      ensures State() == MapRequestStep(old(State()), w)
    {
      log := log + [SelectInput(w, STRUCTURE_NOTIFY_MASK | ENTER_WINDOW_MASK)];
      log := log + [MapWindow(w)];
      log := log + [SetBorderWidth(w, BORDER_WIDTH)];
      assert log == old(log) + MapRequests(w);
      NoBorderRequestsKeepInvariant(old(State()), MapRequests(w));
      FocusWindow(w);
    }

    method FocusWindow(w: Window)
      requires Valid()
      modifies this
      ensures Valid()
      ensures State() == Focus(old(State()), w)
    {
      if focusedWindow.Some? {
        log := log + [SetBorder(focusedWindow.value, NORMAL_COLOR)];
      }
      log := log + [SetInputFocus(w, REVERT_TO_PARENT, CURRENT_TIME)];
      log := log + [Raise(w)];
      log := log + [SetBorder(w, FOCUS_COLOR)];
      focusedWindow := Some(w);
      assert log == old(log) + FocusRequests(old(focusedWindow), w);
      FocusKeepsInvariant(old(State()), w);
    }

    method HandleConfigureRequest(c: ConfigureRequestEvent)
      requires Valid()
      modifies this
      ensures Valid()
      ensures State() == old(State()).(log := old(log) + [PassThrough(c)])
    {
      var changes := WindowChanges(
        x := c.x, y := c.y, width := c.width, height := c.height,
        borderWidth := c.borderWidth, sibling := c.above, stackMode := c.detail);
      log := log + [Configure(c.window, c.valueMask, changes)];
      NoBorderRequestsKeepInvariant(old(State()), [PassThrough(c)]);
    }

    method HandleKeyPress(w: Window, keycode: Keycode, state: bv32)
      requires Valid()
      modifies this
      ensures Valid()
      ensures State() == KeyPressStep(Env(), old(State()), w, keycode, state)
    {
      if state & MOD4_MASK != 0 {
        if keycode == keycodeOf(XK_Q) {
          running := false;
        } else if keycode == keycodeOf(XK_F) {
          ToggleFullScreen(w);
        } else if keycode == keycodeOf(XK_H) {
          SnapWindow(w, Left);
        } else if keycode == keycodeOf(XK_L) {
          SnapWindow(w, Right);
        } else if keycode == keycodeOf(XK_RETURN) {
          LaunchProgram("alacritty");
        } else if keycode == keycodeOf(XK_P) {
          LaunchProgram("dmenu_run");
        }
      }
      KeyPressMatchesSwitch(keycode);
    }

    /** The chain of tests in HandleKeyPress agrees with the key table's first match. */
    lemma KeyPressMatchesSwitch(keycode: Keycode)
      ensures KeyAction(keycodeOf, keycode) ==
        if keycode == keycodeOf(XK_Q) then Some(Quit)
        else if keycode == keycodeOf(XK_F) then Some(FullScreen)
        else if keycode == keycodeOf(XK_H) then Some(Snap(Left))
        else if keycode == keycodeOf(XK_L) then Some(Snap(Right))
        else if keycode == keycodeOf(XK_RETURN) then Some(Launch("alacritty"))
        else if keycode == keycodeOf(XK_P) then Some(Launch("dmenu_run"))
        else None
    {
      var f := keycodeOf;
      if keycode == f(XK_Q) { FirstMatchAt(KEY_BINDINGS, f, keycode, 0); }
      else if keycode == f(XK_F) { FirstMatchAt(KEY_BINDINGS, f, keycode, 1); }
      else if keycode == f(XK_H) { FirstMatchAt(KEY_BINDINGS, f, keycode, 2); }
      else if keycode == f(XK_L) { FirstMatchAt(KEY_BINDINGS, f, keycode, 3); }
      else if keycode == f(XK_RETURN) { FirstMatchAt(KEY_BINDINGS, f, keycode, 4); }
      else if keycode == f(XK_P) { FirstMatchAt(KEY_BINDINGS, f, keycode, 5); }
    }

    method HandleButtonPress(w: Window)
      requires Valid()
      modifies this
      ensures Valid()
      ensures State() == Focus(old(State()), w)
    {
      FocusWindow(w);
    }

    method ToggleFullScreen(w: Window)
      requires Valid()
      modifies this
      ensures Valid()
      ensures State() == old(State()).(log := old(log) + ActionRequests(Env(), FullScreen, w))
    {
      var b := BORDER_WIDTH;
      log := log + [MoveResize(w, b, b, screen.width - 3 * b, screen.height - 3 * b)];
      NoBorderRequestsKeepInvariant(old(State()), ActionRequests(Env(), FullScreen, w));
    }

    method SnapWindow(w: Window, position: SnapPosition)
      requires Valid()
      modifies this
      ensures Valid()
      ensures State() == old(State()).(log := old(log) + ActionRequests(Env(), Snap(position), w))
    {
      var changes := WindowChanges(0, 0, 0, 0, 0, 0, 0);
      changes := changes.(width := screen.width / 2, height := screen.height, y := 0);
      match position {
        case Left => changes := changes.(x := 0);
        case _ => changes := changes.(x := screen.width / 2);
      }
      log := log + [Configure(w, CW_X | CW_Y | CW_WIDTH | CW_HEIGHT, changes)];
      NoBorderRequestsKeepInvariant(old(State()), ActionRequests(Env(), Snap(position), w));
    }

    /** Starting the program is fire-and-forget: a failure to launch changes no manager state. */
    method LaunchProgram(program: string)
      requires Valid()
      modifies this
      ensures Valid()
      ensures log == old(log) + [Spawn(program)]
      ensures running == old(running) && focusedWindow == old(focusedWindow)
    {
      log := log + [Spawn(program)];
      NoBorderRequestsKeepInvariant(old(State()), [Spawn(program)]);
    }
  }
}
