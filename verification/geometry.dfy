/** Screen geometry with pygame's integer `Rect` semantics. */
module Geometry {

  /** A screen position in pixels. */
  datatype Point = Point(x: int, y: int)

  /** A pygame `Rect`: top-left corner plus a non-negative width and height. */
  datatype Rect = Rect(left: int, top: int, w: nat, h: nat) {
    function Right(): int { left + w }
    function Bottom(): int { top + h }

    /** pygame's `bool(rect)`: a rectangle with no area is falsy. */
    predicate Truthy() { w != 0 && h != 0 }

    /** `rect.move(dx, dy)`. */
    function Moved(dx: int, dy: int): (r: Rect)
      ensures r.w == w && r.h == h
      ensures r.Right() - r.left == Right() - left
    {
      Rect(left + dx, top + dy, w, h)
    }
  }

  /** An image handle as the asset loader delivers it: an identity and its pixel size. */
  datatype Surface = Surface(id: nat, w: nat, h: nat)

  /** `image.get_rect(center=c)`: pygame's centre setter subtracts half the size, rounded down. */
  function CenteredAt(c: Point, w: nat, h: nat): (r: Rect)
    ensures r.w == w && r.h == h
    ensures r.left <= c.x <= r.Right() && r.top <= c.y <= r.Bottom()
    ensures 0 <= (r.Right() - c.x) - (c.x - r.left) <= 1
    ensures 0 <= (r.Bottom() - c.y) - (c.y - r.top) <= 1
  {
    Rect(c.x - w / 2, c.y - h / 2, w, h)
  }

  /** `Rect.colliderect`: rectangles with no area never collide; otherwise the
      overlap test is strict on all four sides, so touching edges do not count. */
  predicate Collide(a: Rect, b: Rect)
  {
    a.w != 0 && a.h != 0 && b.w != 0 && b.h != 0 &&
    a.left < b.Right() && a.top < b.Bottom() && a.Right() > b.left && a.Bottom() > b.top
  }

  /** `Rect.collidepoint`: containment is half-open, the right and bottom edges are outside. */
  predicate Contains(r: Rect, p: Point)
  {
    r.left <= p.x < r.Right() && r.top <= p.y < r.Bottom()
  }

  /** Overlap is symmetric, and it implies that each rectangle holds a point of the other. */
  lemma CollideSymmetric(a: Rect, b: Rect)
    ensures Collide(a, b) <==> Collide(b, a)
    ensures Collide(a, b) ==> exists p :: Contains(a, p) && Contains(b, p)
  {
    if Collide(a, b) {
      var p := Point(if a.left < b.left then b.left else a.left, if a.top < b.top then b.top else a.top);
      assert Contains(a, p) && Contains(b, p);
    }
  }

  /** A rectangle with no width or no height contains no point at all. */
  lemma EmptyRectContainsNothing(r: Rect, p: Point)
    requires r.w == 0 || r.h == 0
    ensures !Contains(r, p)
  {
  }
}
