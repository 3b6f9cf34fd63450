/**
 * The two rectangle computations of the manager: the full-screen rectangle
 * of `toggleFullScreen` and the half-screen rectangles of `snapWindow`.
 * Both are pure functions of the screen size and the border width.
 */
module Geometry {
  import opened Protocol

  /**
   * A screen dimension.  The manager stores `UInt32(XDisplayWidth(..))`, a
   * conversion from a C `int` that traps on a negative value, so a stored
   * dimension is non-negative and below 2^31.
   */
  type Dim = x: int | 0 <= x < 0x8000_0000

  datatype Screen = Screen(number: Int32, width: Dim, height: Dim)

  /** The arguments of a move-resize request. */
  datatype Rect = Rect(x: int, y: int, width: nat, height: nat)

  /**
   * The full-screen rectangle: origin (b, b), size (W - 3b, H - 3b).  The sizes
   * are `UInt32` subtractions, which trap unless the screen is at least three
   * border widths wide and high.  As X positions the outer corner of a window
   * and its border lies outside the size, the bordered window leaves a strip of
   * one border width at the left and top and ends exactly on the right and
   * bottom edges of the screen.
   */
  function FullScreenRect(screen: Screen, b: nat): (r: Rect)
    requires 3 * b <= screen.width && 3 * b <= screen.height
    ensures r.x == b && r.y == b
    ensures r.x + r.width + 2 * b == screen.width
    ensures r.y + r.height + 2 * b == screen.height
  {
    Rect(b, b, screen.width - 3 * b, screen.height - 3 * b)
  }

  datatype SnapPosition = Left | Right

  /** The value-mask of a snap: exactly the position and size bits. */
  const SNAP_MASK: bv32 := CW_X | CW_Y | CW_WIDTH | CW_HEIGHT

  /**
   * The changes a snap sends: the full screen height, half the screen width
   * (integer division), y = 0, and x = 0 on the left or x = W / 2 on the
   * right.  The fields it does not set keep the zero of a fresh
   * `XWindowChanges()`.
   */
  function SnapChanges(screen: Screen, position: SnapPosition): (c: WindowChanges)
    ensures c.y == 0 && c.height == screen.height
    ensures 2 * c.width <= screen.width < 2 * c.width + 2
    ensures c.x == (if position == Left then 0 else c.width)
    ensures c.borderWidth == 0 && c.sibling == 0 && c.stackMode == 0
  {
    var changes := WindowChanges(0, 0, 0, 0, 0, 0, 0)
      .(width := screen.width / 2, height := screen.height, y := 0);
    match position
    case Left => changes.(x := 0)
    case _ => changes.(x := screen.width / 2)
  }

  /**
   * The two halves meet: the right half starts where the left half ends,
   * and the right half ends on the screen's right edge exactly when the
   * width is even (an odd width leaves its last column uncovered).
   */
  lemma SnapHalvesAdjoin(screen: Screen)
    ensures var l, r := SnapChanges(screen, Left), SnapChanges(screen, Right);
      l.x + l.width == r.x &&
      r.x + r.width <= screen.width &&
      (r.x + r.width == screen.width <==> screen.width % 2 == 0) &&
      l.y == r.y == 0 && l.height == r.height == screen.height
  {
  }

  /** The rectangles of a 1920 x 1080 screen with a border of 2. */
  lemma Rects1080p()
    ensures FullScreenRect(Screen(0, 1920, 1080), 2) == Rect(2, 2, 1914, 1074)
    ensures var l := SnapChanges(Screen(0, 1920, 1080), Left);
      (l.x, l.y, l.width, l.height) == (0, 0, 960, 1080)
    ensures var r := SnapChanges(Screen(0, 1920, 1080), Right);
      (r.x, r.y, r.width, r.height) == (960, 0, 960, 1080)
  {
  }
}
