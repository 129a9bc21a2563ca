/** Axis-aligned rectangles as pygame stores them, and the overlap test used
    by sprite collision. */
module Geometry {

  /** A rectangle given by its top-left corner and its size. Screen y grows
      downwards, so Top() is the smaller y and Bottom() the larger one. */
  datatype Rect = Rect(x: int, y: int, w: int, h: int) {
    function Left(): int { x }
    function Top(): int { y }
    function Right(): int { x + w }
    function Bottom(): int { y + h }
  }

  /** True when the two rectangles share interior area: both have positive
      width and height, and their x-ranges and their y-ranges both intersect,
      touching edges not counting. */
  predicate Overlaps(a: Rect, b: Rect) {
    a.w > 0 && a.h > 0 && b.w > 0 && b.h > 0 &&
    a.Left() < b.Right() && b.Left() < a.Right() &&
    a.Top() < b.Bottom() && b.Top() < a.Bottom()
  }

  /** Overlap does not depend on which rectangle is asked about which. */
  lemma OverlapsSymmetric(a: Rect, b: Rect)
    ensures Overlaps(a, b) <==> Overlaps(b, a)
  {
  }

  /** A rectangle of positive size always collides with a copy of itself. */
  lemma SelfOverlaps(a: Rect)
    requires a.w > 0 && a.h > 0
    ensures Overlaps(a, a)
  {
  }

  /** Empty rectangles and rectangles separated along either axis never
      collide. */
  lemma SeparatedNeverOverlap(a: Rect, b: Rect)
    requires a.w <= 0 || a.h <= 0 || b.w <= 0 || b.h <= 0 ||
             a.Right() <= b.Left() || b.Right() <= a.Left() ||
             a.Bottom() <= b.Top() || b.Bottom() <= a.Top()
    ensures !Overlaps(a, b)
  {
  }
}
