/**
 * The display-server boundary of the window manager.
 *
 * The server is seen only through the requests the manager sends it: every
 * request the manager sends, except the attribute queries whose results it
 * ignores, is appended in call order to an append-only log of `Request` values.  Events arrive as `Event` values.
 * The numeric constants are those of the X11 headers (X.h, Xproto.h, keysymdef.h).
 */
module Protocol {

  /** An X resource id (XID): windows are unsigned long handles. */
  type Window = nat

  /** A border colour, an unsigned long pixel value. */
  type Color = nat

  /** A signed 32-bit C `int`, as used by Xlib for positions and sizes. */
  type Int32 = x: int | -0x8000_0000 <= x < 0x8000_0000

  /** An X keycode: `KeyCode` is an 8-bit unsigned value. */
  type Keycode = x: int | 0 <= x < 0x100

  /** An X keysym. */
  type Keysym = nat

  // Event masks (X.h)
  const KEY_PRESS_MASK: bv32 := 0x1                   // 1 << 0
  const ENTER_WINDOW_MASK: bv32 := 0x10               // 1 << 4
  const STRUCTURE_NOTIFY_MASK: bv32 := 0x2_0000       // 1 << 17
  const SUBSTRUCTURE_NOTIFY_MASK: bv32 := 0x8_0000    // 1 << 19
  const SUBSTRUCTURE_REDIRECT_MASK: bv32 := 0x10_0000 // 1 << 20

  /** The modifier bit of the "super" key. */
  const MOD4_MASK: bv32 := 0x40                    // 1 << 6

  // Configure-window value-mask bits (X.h)
  const CW_X: bv32 := 0x1
  const CW_Y: bv32 := 0x2
  const CW_WIDTH: bv32 := 0x4
  const CW_HEIGHT: bv32 := 0x8

  /** SetInputFocus revert mode RevertToParent, and the CurrentTime timestamp. */
  const REVERT_TO_PARENT: int := 2
  const CURRENT_TIME: int := 0

  /** The `XWindowChanges` record handed to a configure-window request. */
  datatype WindowChanges = WindowChanges(
    x: int, y: int, width: int, height: int,
    borderWidth: int, sibling: Window, stackMode: int)

  /** The requests the manager issues, one constructor per Xlib call it makes. */
  datatype Request =
    | SelectInput(window: Window, eventMask: bv32)
    | MapWindow(window: Window)
    | SetBorderWidth(window: Window, width: nat)
    | SetBorder(window: Window, color: Color)
    | SetInputFocus(window: Window, revertTo: int, time: int)
    | Raise(window: Window)
    | Configure(window: Window, valueMask: bv32, changes: WindowChanges)
    | MoveResize(window: Window, x: int, y: int, width: nat, height: nat)
    | GrabKey(keycode: Keycode, modifiers: bv32, grabWindow: Window)
    | GrabButton(button: nat, modifiers: bv32, grabWindow: Window)
      /** Not a server request: an external program started through `/usr/bin/env`. */
    | Spawn(program: string)

  // Event type numbers of the four events the loop handles (X.h)
  const KEY_PRESS: int := 2
  const BUTTON_PRESS: int := 4
  const MAP_REQUEST: int := 20
  const CONFIGURE_REQUEST: int := 23

  /** The type number of an event the loop does not handle. */
  type UnhandledEventType = t: int | t !in {KEY_PRESS, BUTTON_PRESS, MAP_REQUEST, CONFIGURE_REQUEST}

  /**
   * The fields of an `XConfigureRequestEvent` the manager reads.  The
   * value-mask is held as the 32-bit value the manager converts it to; the
   * server sends it as a 16-bit field, so that `UInt32` conversion neither
   * traps nor loses a bit.
   */
  datatype ConfigureRequestEvent = ConfigureRequestEvent(
    window: Window,
    x: Int32, y: Int32, width: Int32, height: Int32, borderWidth: Int32,
    above: Window, detail: Int32,
    valueMask: bv32)

  /**
   * An event delivered by the server.  The four kinds the manager dispatches
   * on carry the fields it reads; every other event type is `Other`.
   */
  datatype Event =
    | MapRequest(window: Window)
    | ConfigureRequest(request: ConfigureRequestEvent)
    | KeyPress(window: Window, keycode: Keycode, state: bv32)
    | ButtonPress(window: Window)
    | Other(eventType: UnhandledEventType)
}
