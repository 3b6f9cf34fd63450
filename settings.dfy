/**
 * The `Config` and `Client` records and the configuration literal of the
 * top-level script.  Neither record is read by the `SWM` class, which has its
 * own fixed border.
 */
module Settings {
  import opened Protocol
  import Reactor

  /** The configuration record: border width and colours, gaps, the mouse modifier and the workspace count. */
  datatype Config = Config(
    borderWidth: nat, focusedColor: nat, unfocusedColor: nat,
    innerGap: nat, outerGap: nat,
    mouseMask: nat,
    totalWorkspaces: nat)

  /** The per-window record: the window, its tag bits, two flags and its geometry. */
  datatype Client = Client(
    window: Window, tags: nat, hidden: bool, fullScreen: bool,
    x: Int32, y: Int32, width: Int32, height: Int32)

  /** The modifier mask of the mouse bindings: Mod4. */
  const MOUSE_MASK: nat := MOD4_MASK as nat

  /**
   * The literal `defaultConfig`.  It names no workspace count, so that field
   * is whatever the caller supplies.
   */
  function DefaultConfig(totalWorkspaces: nat): (c: Config)
    ensures c.borderWidth == 2 && c.innerGap == c.outerGap == 4
    ensures c.focusedColor == 0xFFFFFF && c.unfocusedColor == 0x000000
    ensures c.mouseMask == MOUSE_MASK && c.totalWorkspaces == totalWorkspaces
  {
    Config(
      borderWidth := 2,
      focusedColor := 0xFFFFFF, unfocusedColor := 0x000000,
      innerGap := 4, outerGap := 4,
      mouseMask := MOUSE_MASK,
      totalWorkspaces := totalWorkspaces)
  }

  /**
   * The two entry points agree on the border width and disagree on both
   * border colours: the script's configuration is not what the class uses.
   */
  lemma EntryPointsDisagreeOnColors(totalWorkspaces: nat)
    ensures DefaultConfig(totalWorkspaces).borderWidth == Reactor.BORDER_WIDTH
    ensures DefaultConfig(totalWorkspaces).focusedColor != Reactor.FOCUS_COLOR
    ensures DefaultConfig(totalWorkspaces).unfocusedColor != Reactor.NORMAL_COLOR
  {
  }
}
