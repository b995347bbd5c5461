/** Pixel rectangles, as android.graphics.Rect holds them. */
module Geometry {

  /** A rectangle by its edges: left and top inclusive, right and bottom exclusive. */
  datatype Rect = Rect(left: int, top: int, right: int, bottom: int) {

    function Width(): int { right - left }

    function Height(): int { bottom - top }
  }

  /** What a fresh `new Rect()` holds: every edge at zero. */
  const EmptyRect := Rect(0, 0, 0, 0)

  /** The rectangle covering a whole surface of the given size, anchored at the origin. */
  function SurfaceRect(width: int, height: int): (r: Rect)
    ensures r.left == 0 && r.top == 0
    ensures r.Width() == width && r.Height() == height
  {
    Rect(0, 0, width, height)
  }
}
