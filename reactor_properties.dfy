/**
 * What the manager's event handling promises, proved about the functions of
 * module Reactor: the focus handoff, the exclusive focus border, the key
 * bindings, the pass-through of configure requests and the loop's stop.
 */
module ReactorProperties {
  import opened Wrappers
  import opened Protocol
  import opened Geometry
  import opened Reactor

  /** No request of `rs` sets a border colour. */
  predicate NoBorderRequests(rs: seq<Request>) {
    forall i :: 0 <= i < |rs| ==> !rs[i].SetBorder?
  }

  /** The last border request of a concatenation is the last one of its second part, if there is one. */
  lemma {:induction false} LastBorderColorAppend(a: seq<Request>, b: seq<Request>, w: Window)
    ensures LastBorderColor(a + b, w) ==
      if LastBorderColor(b, w).Some? then LastBorderColor(b, w) else LastBorderColor(a, w)
    decreases |b|
  {
    if b == [] {
      assert a + b == a;
    } else {
      var ab := a + b;
      assert ab[|ab| - 1] == b[|b| - 1];
      assert ab[..|ab| - 1] == a + b[..|b| - 1];
      LastBorderColorAppend(a, b[..|b| - 1], w);
    }
  }

  /** Requests that set no border leave every window's last border colour as it was. */
  lemma {:induction false} NoBorderRequestsKeepColors(a: seq<Request>, rs: seq<Request>, w: Window)
    requires NoBorderRequests(rs)
    ensures LastBorderColor(a + rs, w) == LastBorderColor(a, w)
    decreases |rs|
  {
    if rs != [] {
      var ars := a + rs;
      assert ars[|ars| - 1] == rs[|rs| - 1];
      assert ars[..|ars| - 1] == a + rs[..|rs| - 1];
      NoBorderRequestsKeepColors(a, rs[..|rs| - 1], w);
    } else {
      assert a + rs == a;
    }
  }

  /** Appending one request changes only the last border colour of the window it recolours. */
  lemma LastBorderColorSnoc(a: seq<Request>, r: Request, w: Window)
    ensures LastBorderColor(a + [r], w) ==
      if r.SetBorder? && r.window == w then Some(r.color) else LastBorderColor(a, w)
  {
  }

  /** The border colours the focus requests alone set. */
  lemma FocusRequestColors(previous: Option<Window>, w: Window, x: Window)
    ensures LastBorderColor(FocusRequests(previous, w), x) ==
      if x == w then Some(FOCUS_COLOR)
      else if previous == Some(x) then Some(NORMAL_COLOR)
      else None
  {
    var head: seq<Request> := if previous.Some? then [SetBorder(previous.value, NORMAL_COLOR)] else [];
    var r1, r2, r3 := SetInputFocus(w, REVERT_TO_PARENT, CURRENT_TIME), Raise(w), SetBorder(w, FOCUS_COLOR);
    assert FocusRequests(previous, w) == head + [r1] + [r2] + [r3];
    LastBorderColorSnoc(head + [r1] + [r2], r3, x);
    LastBorderColorSnoc(head + [r1], r2, x);
    LastBorderColorSnoc(head, r1, x);
    if previous.Some? {
      LastBorderColorSnoc([], SetBorder(previous.value, NORMAL_COLOR), x);
      assert [] + [SetBorder(previous.value, NORMAL_COLOR)] == head;
    }
  }

  /**
   * `focusWindow(w)` sends, after what was sent before: the previous focus's
   * recolouring to normal, only if there is a previous focus; then input
   * focus to `w` with revert-to-parent, the raise of `w` and its recolouring
   * to the focus colour, in that order.  `w` becomes the focus and the
   * running flag is untouched.
   */
  lemma FocusRequestOrder(s: WmState, w: Window)
    ensures var t := Focus(s, w);
      t.running == s.running && t.focused == Some(w) &&
      |s.log| <= |t.log| && t.log[..|s.log|] == s.log
    ensures var n := Focus(s, w).log[|s.log|..];
      |n| == (if s.focused.Some? then 4 else 3) &&
      (s.focused.Some? ==> n[0] == SetBorder(s.focused.value, NORMAL_COLOR)) &&
      n[|n| - 3..] == [SetInputFocus(w, REVERT_TO_PARENT, CURRENT_TIME), Raise(w), SetBorder(w, FOCUS_COLOR)]
  {
    assert Focus(s, w).log == s.log + FocusRequests(s.focused, w);
    assert Focus(s, w).log[|s.log|..] == FocusRequests(s.focused, w);
  }

  /**
   * After `focusWindow(w)`, `w` is the focus and its border was last set to
   * the focus colour; the previous focus, if another window, was last set to
   * the normal colour; no other window's border changed.
   */
  lemma FocusHandoff(s: WmState, w: Window)
    ensures Focus(s, w).focused == Some(w)
    ensures LastBorderColor(Focus(s, w).log, w) == Some(FOCUS_COLOR)
    ensures s.focused.Some? && s.focused.value != w ==>
      LastBorderColor(Focus(s, w).log, s.focused.value) == Some(NORMAL_COLOR)
    ensures forall x: Window :: x != w && s.focused != Some(x) ==>
      LastBorderColor(Focus(s, w).log, x) == LastBorderColor(s.log, x)
  {
    var rs := FocusRequests(s.focused, w);
    FocusRequestColors(s.focused, w, w);
    LastBorderColorAppend(s.log, rs, w);
    if s.focused.Some? {
      FocusRequestColors(s.focused, w, s.focused.value);
      LastBorderColorAppend(s.log, rs, s.focused.value);
    }
    forall x: Window | x != w && s.focused != Some(x)
      ensures LastBorderColor(Focus(s, w).log, x) == LastBorderColor(s.log, x)
    {
      FocusRequestColors(s.focused, w, x);
      LastBorderColorAppend(s.log, rs, x);
    }
  }

  /**
   * Focusing `a` and then `b`: `b` ends with the focus colour and is the
   * focus; `a` ends with the normal colour when it differs from `b`, and with
   * the focus colour when it is `b` (recoloured normal, then focus).
   */
  lemma FocusTwice(s: WmState, a: Window, b: Window)
    ensures var t := Focus(Focus(s, a), b);
      t.focused == Some(b) &&
      LastBorderColor(t.log, b) == Some(FOCUS_COLOR) &&
      LastBorderColor(t.log, a) == Some(if a == b then FOCUS_COLOR else NORMAL_COLOR)
    ensures a == b ==>
      var n := Focus(Focus(s, a), a).log[|Focus(s, a).log|..];
      n[0] == SetBorder(a, NORMAL_COLOR) && n[3] == SetBorder(a, FOCUS_COLOR)
  {
    FocusHandoff(s, a);
    FocusHandoff(Focus(s, a), b);
    if a == b {
      FocusRequestOrder(Focus(s, a), a);
    }
  }

  /** Focusing keeps the focus border exclusive. */
  lemma FocusKeepsInvariant(s: WmState, w: Window)
    requires FocusBorderInvariant(s)
    ensures FocusBorderInvariant(Focus(s, w))
  {
    FocusHandoff(s, w);
    var t := Focus(s, w);
    forall x: Window
      ensures LastBorderColor(t.log, x) == Some(FOCUS_COLOR) <==> t.focused == Some(x)
    {
      if x != w && s.focused != Some(x) {
        assert LastBorderColor(s.log, x) != Some(FOCUS_COLOR);
      }
    }
  }

  /** Requests that set no border keep the focus border exclusive. */
  lemma NoBorderRequestsKeepInvariant(s: WmState, rs: seq<Request>)
    requires FocusBorderInvariant(s)
    requires NoBorderRequests(rs)
    ensures FocusBorderInvariant(s.(log := s.log + rs))
  {
    forall x: Window {
      NoBorderRequestsKeepColors(s.log, rs, x);
    }
  }

  /** Every event keeps the focus border exclusive. */
  lemma StepKeepsInvariant(env: Env, s: WmState, e: Event)
    requires ValidEnv(env)
    requires FocusBorderInvariant(s)
    ensures FocusBorderInvariant(Step(env, s, e))
  {
    match e
    case MapRequest(w) =>
      NoBorderRequestsKeepInvariant(s, MapRequests(w));
      FocusKeepsInvariant(s.(log := s.log + MapRequests(w)), w);
    case ConfigureRequest(c) =>
      NoBorderRequestsKeepInvariant(s, [PassThrough(c)]);
    case KeyPress(w, keycode, state) =>
      if state & MOD4_MASK != 0 {
        match KeyAction(env.keycodeOf, keycode)
        case None =>
        case Some(a) =>
          if a != Quit {
            NoBorderRequestsKeepInvariant(s, ActionRequests(env, a, w));
          }
      }
    case ButtonPress(w) =>
      FocusKeepsInvariant(s, w);
    case Other(_) =>
  }

  /** The whole event loop keeps the focus border exclusive. */
  lemma {:induction false} RunKeepsInvariant(env: Env, s: WmState, es: seq<Event>)
    requires ValidEnv(env)
    requires FocusBorderInvariant(s)
    ensures FocusBorderInvariant(RunFrom(env, s, es).final)
    decreases |es|
  {
    if s.running && es != [] {
      StepKeepsInvariant(env, s, es[0]);
      RunKeepsInvariant(env, Step(env, s, es[0]), es[1..]);
    }
  }

  /** The requests `run` sends before its loop set no border, so a fresh manager starts exclusive. */
  lemma StartupKeepsInvariant(env: Env, s: WmState)
    requires FocusBorderInvariant(s)
    ensures FocusBorderInvariant(s.(log := s.log + StartupRequests(env)))
  {
    NoBorderRequestsKeepInvariant(s, StartupRequests(env));
  }

  /** A manager that has sent nothing and focuses nothing satisfies the invariant. */
  lemma InitialInvariant(running: bool)
    ensures FocusBorderInvariant(WmState(running, None, []))
  {
  }

  /**
   * The loop: it consumes a prefix of the events; the state it ends in is
   * that prefix applied in order; the flag was set before each consumed
   * event, and when events remain unconsumed the flag is clear.
   */
  lemma {:induction false} RunStopsAfterQuit(env: Env, s: WmState, es: seq<Event>)
    requires ValidEnv(env)
    ensures var r := RunFrom(env, s, es);
      r.consumed <= |es| &&
      r.final == Fold(env, s, es[..r.consumed]) &&
      (r.consumed < |es| ==> !r.final.running) &&
      (forall j :: 0 <= j < r.consumed ==> Fold(env, s, es[..j]).running)
    decreases |es|
  {
    if s.running && es != [] {
      var t := Step(env, s, es[0]);
      RunStopsAfterQuit(env, t, es[1..]);
      var r := RunFrom(env, t, es[1..]);
      assert es[..r.consumed + 1][1..] == es[1..][..r.consumed];
      forall j | 0 <= j < r.consumed + 1
        ensures Fold(env, s, es[..j]).running
      {
        if j > 0 {
          assert es[..j][1..] == es[1..][..j - 1];
        }
      }
    } else {
      assert es[..0] == [];
    }
  }

  /** Once the flag is clear no further event is taken. */
  lemma StoppedRunTakesNothing(env: Env, s: WmState, es: seq<Event>)
    requires ValidEnv(env)
    requires !s.running
    ensures RunFrom(env, s, es) == RunResult(s, 0)
  {
  }

  /** Without the Mod4 bit a key press changes nothing and sends nothing. */
  lemma KeyPressWithoutMod4(env: Env, s: WmState, w: Window, keycode: Keycode, state: bv32)
    requires ValidEnv(env)
    requires state & MOD4_MASK == 0
    ensures Step(env, s, KeyPress(w, keycode, state)) == s
  {
  }

  /**
   * With Mod4, the key that Q translates to only clears the running flag,
   * even when other bound keysyms translate to the same keycode (Q is tested first).
   */
  lemma QuitOnlyStopsRunning(env: Env, s: WmState, w: Window, state: bv32)
    requires ValidEnv(env)
    requires state & MOD4_MASK != 0
    ensures Step(env, s, KeyPress(w, env.keycodeOf(XK_Q), state)) == s.(running := false)
  {
  }

  /** A keycode that no bound keysym translates to changes nothing. */
  lemma UnboundKeyIgnored(env: Env, s: WmState, w: Window, keycode: Keycode, state: bv32)
    requires ValidEnv(env)
    requires forall i :: 0 <= i < |KEY_BINDINGS| ==> env.keycodeOf(KEY_BINDINGS[i].0) != keycode
    ensures Step(env, s, KeyPress(w, keycode, state)) == s
  {
  }

  /** The first binding whose keysym translates to `keycode` is the one `FirstMatch` finds. */
  lemma FirstMatchAt(table: seq<(Keysym, Action)>, keycodeOf: Keysym -> Keycode, keycode: Keycode, i: nat)
    requires i < |table| && keycodeOf(table[i].0) == keycode
    requires forall j :: 0 <= j < i ==> keycodeOf(table[j].0) != keycode
    ensures FirstMatch(table, keycodeOf, keycode) == Some(i)
  {
  }

  /**
   * The action of a bound key is that of the first binding whose keysym
   * translates to it, and only a binding's own key triggers it.
   */
  lemma KeyActionIsFirstBinding(keycodeOf: Keysym -> Keycode, keycode: Keycode, a: Action)
    ensures KeyAction(keycodeOf, keycode) == Some(a) <==>
      exists i :: 0 <= i < |KEY_BINDINGS| && keycodeOf(KEY_BINDINGS[i].0) == keycode && KEY_BINDINGS[i].1 == a &&
        forall j :: 0 <= j < i ==> keycodeOf(KEY_BINDINGS[j].0) != keycode
  {
  }

  /**
   * `toggleFullScreen` is not a toggle: with Mod4 and the key F translates to
   * (and Q does not), each press sends the same move-resize to (b, b) with size
   * (W - 3b, H - 3b), whatever was sent before, so two presses send it twice.
   */
  lemma FullScreenIsNotAToggle(env: Env, s: WmState, w: Window, state: bv32)
    requires ValidEnv(env)
    requires state & MOD4_MASK != 0
    requires env.keycodeOf(XK_F) != env.keycodeOf(XK_Q)
    ensures var e := KeyPress(w, env.keycodeOf(XK_F), state);
      var m := MoveResize(w, BORDER_WIDTH, BORDER_WIDTH,
        env.screen.width - 3 * BORDER_WIDTH, env.screen.height - 3 * BORDER_WIDTH);
      Step(env, s, e) == s.(log := s.log + [m]) &&
      Step(env, Step(env, s, e), e) == s.(log := s.log + [m, m])
  {
    FirstMatchAt(KEY_BINDINGS, env.keycodeOf, env.keycodeOf(XK_F), 1);
  }

  /**
   * With Mod4, the keys H and L (when no earlier binding shares their keycode)
   * send one configure-window with exactly the position and size bits and
   * the left or right half of the screen.
   */
  lemma SnapKeys(env: Env, s: WmState, w: Window, state: bv32)
    requires ValidEnv(env)
    requires state & MOD4_MASK != 0
    requires env.keycodeOf(XK_H) !in {env.keycodeOf(XK_Q), env.keycodeOf(XK_F)}
    requires env.keycodeOf(XK_L) !in {env.keycodeOf(XK_Q), env.keycodeOf(XK_F), env.keycodeOf(XK_H)}
    ensures Step(env, s, KeyPress(w, env.keycodeOf(XK_H), state)).log ==
      s.log + [Configure(w, CW_X | CW_Y | CW_WIDTH | CW_HEIGHT, SnapChanges(env.screen, Left))]
    ensures Step(env, s, KeyPress(w, env.keycodeOf(XK_L), state)).log ==
      s.log + [Configure(w, CW_X | CW_Y | CW_WIDTH | CW_HEIGHT, SnapChanges(env.screen, Right))]
  {
    FirstMatchAt(KEY_BINDINGS, env.keycodeOf, env.keycodeOf(XK_H), 2);
    FirstMatchAt(KEY_BINDINGS, env.keycodeOf, env.keycodeOf(XK_L), 3);
  }

  /**
   * `handleMapRequest(w)` selects structure and enter events on `w`, maps it
   * and sets its border width to 2, in that order, then focuses it exactly as
   * `focusWindow(w)` does: `w` becomes the focus with the focus colour.
   */
  lemma MapRequestFocuses(env: Env, s: WmState, w: Window)
    requires ValidEnv(env)
    ensures var t := Step(env, s, MapRequest(w));
      t.focused == Some(w) && t.running == s.running &&
      t.log[..|s.log| + 3] == s.log + [SelectInput(w, CLIENT_EVENT_MASK), MapWindow(w), SetBorderWidth(w, 2)] &&
      t.log[|s.log| + 3..] == FocusRequests(s.focused, w) &&
      LastBorderColor(t.log, w) == Some(FOCUS_COLOR)
  {
    var u := s.(log := s.log + MapRequests(w));
    FocusRequestOrder(u, w);
    FocusHandoff(u, w);
    assert Focus(u, w).log == s.log + MapRequests(w) + FocusRequests(s.focused, w);
  }

  /** A button press focuses the window it was reported on. */
  lemma ButtonPressFocuses(env: Env, s: WmState, w: Window)
    requires ValidEnv(env)
    ensures var t := Step(env, s, ButtonPress(w));
      t.focused == Some(w) && t.running == s.running &&
      LastBorderColor(t.log, w) == Some(FOCUS_COLOR)
  {
    FocusRequestOrder(s, w);
    FocusHandoff(s, w);
  }

  /**
   * A configure request is passed through as one configure-window whose mask
   * is the event's value-mask unchanged and whose seven fields are the event's
   * fields; nothing else changes.
   */
  lemma ConfigureRequestPassesThrough(env: Env, s: WmState, c: ConfigureRequestEvent)
    requires ValidEnv(env)
    ensures var t := Step(env, s, ConfigureRequest(c));
      t.running == s.running && t.focused == s.focused &&
      |t.log| == |s.log| + 1 && t.log[..|s.log|] == s.log &&
      var r := t.log[|s.log|];
      r.Configure? && r.window == c.window && r.valueMask == c.valueMask &&
      r.changes.x == c.x && r.changes.y == c.y &&
      r.changes.width == c.width && r.changes.height == c.height &&
      r.changes.borderWidth == c.borderWidth &&
      r.changes.sibling == c.above && r.changes.stackMode == c.detail
  {
  }

  /** The pass-through loses nothing: distinct events give distinct requests. */
  lemma PassThroughInjective(a: ConfigureRequestEvent, b: ConfigureRequestEvent)
    requires PassThrough(a) == PassThrough(b)
    ensures a == b
  {
  }

  /** Events of the types the loop does not handle change nothing, however often they come. */
  lemma OtherEventsChangeNothing(env: Env, s: WmState, t: UnhandledEventType)
    requires ValidEnv(env)
    ensures Step(env, s, Other(t)) == s
    ensures Step(env, Step(env, s, Other(t)), Other(t)) == s
  {
  }
}
