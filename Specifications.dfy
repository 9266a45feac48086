// Device geometry of the LK204-7T-1U with its default font
// (MatrixOrbitalSpecifications.java, and the bounds in Point.java).
module Specifications {

  const FIRST_LCD_ROW := 1
  const LAST_LCD_ROW := 7
  /** Characters per text row. */
  const ROW_LENGTH := 27
  /** Pixels across and down. */
  const LCD_WIDTH := 192
  const LCD_HEIGHT := 64

  // Point.java: the largest coordinates a pixel can have.
  const MIN_X := 0
  const MIN_Y := 0
  const MAX_X := LCD_WIDTH - 1
  const MAX_Y := LCD_HEIGHT - 1

  /** The bounds check every drawing primitive makes before it queues anything. */
  predicate OnScreen(x: int, y: int) {
    0 <= x < LCD_WIDTH && 0 <= y < LCD_HEIGHT
  }

  /** The drawing bounds are exactly the coordinate range a Point describes,
      191 by 63 at most. */
  lemma OnScreenIsPointRange(x: int, y: int)
    ensures OnScreen(x, y) <==> MIN_X <= x <= MAX_X && MIN_Y <= y <= MAX_Y
    ensures MAX_X == 191 && MAX_Y == 63
  {
  }
}
