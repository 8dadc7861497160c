/** The geometry helpers of `chilly_bird.utils`: the selection rectangle spanned
    by two points and the no-op branch of the keep-ratio scaling. */
module Utils {
  import opened Geometry
  import opened Common

  function Min(a: int, b: int): int { if a <= b then a else b }
  function Max(a: int, b: int): int { if a <= b then b else a }

  /** `create_rect`: the smallest rectangle with both points on its border. */
  function CreateRect(p1: Point, p2: Point): (r: Rect)
    ensures r.left == p1.x || r.left == p2.x
    ensures r.top == p1.y || r.top == p2.y
    ensures r.left <= p1.x <= r.Right() && r.left <= p2.x <= r.Right()
    ensures r.top <= p1.y <= r.Bottom() && r.top <= p2.y <= r.Bottom()
    ensures r.Right() == p1.x || r.Right() == p2.x
    ensures r.Bottom() == p1.y || r.Bottom() == p2.y
  {
    var left := Min(p1.x, p2.x);
    var top := Min(p1.y, p2.y);
    Rect(left, top, Max(p1.x, p2.x) - left, Max(p1.y, p2.y) - top)
  }

  /** The rectangle does not depend on which point came first. */
  lemma CreateRectSymmetric(p1: Point, p2: Point)
    ensures CreateRect(p1, p2) == CreateRect(p2, p1)
  {
  }

  /** Both points are opposite corners: one is (left, top) or (left, bottom) and
      the other the diagonally opposite corner, and the size is the coordinate span. */
  lemma CreateRectCorners(p1: Point, p2: Point)
    ensures var r := CreateRect(p1, p2);
      r.w == Abs(p1.x - p2.x) && r.h == Abs(p1.y - p2.y) &&
      {p1.x, p2.x} == {r.left, r.Right()} && {p1.y, p2.y} == {r.top, r.Bottom()}
  {
  }

  /** The documented example: `create_rect((10, 20), (30, 40))` is `<rect(10, 20, 20, 20)>`. */
  lemma CreateRectExample()
    ensures CreateRect(Point(10, 20), Point(30, 40)) == Rect(10, 20, 20, 20)
  {
  }

  /** The smallest drag the editors accept, `min_circle_size`, in px. */
  const MinCircleSize: nat := 10

  /** The square of the distance between two points. */
  function SqDist(a: Point, b: Point): nat
  {
    (a.x - b.x) * (a.x - b.x) + (a.y - b.y) * (a.y - b.y)
  }

  /** `Vector2(a).distance_to(b) >= min_circle_size`. Both sides of the comparison
      are whole numbers squared, so the square root can be left out. */
  predicate FarEnough(a: Point, b: Point)
  {
    SqDist(a, b) >= MinCircleSize * MinCircleSize
  }

  /** The message of the `ValueError` pygame's `Vector2` raises for an argument
      that is neither a number nor a pair, such as `None`. */
  const VectorOfNone: string :=
    "Vector2 must be set with 2 real numbers, a sequence of 2 real numbers, or another Vector2 instance"

  /** A drag the editors accept spans at least 8 px along one of the axes, so the
      rectangle it selects is at least 8 px wide or 8 px high. */
  lemma FarEnoughSpan(a: Point, b: Point)
    requires FarEnough(a, b)
    ensures var r := CreateRect(a, b); r.w >= 8 || r.h >= 8
  {
    ShortSpan(a, b);
  }

  /** The square distance is the sum of the squared width and height. */
  lemma ShortSpan(a: Point, b: Point)
    ensures var r := CreateRect(a, b); r.w < 8 && r.h < 8 ==> SqDist(a, b) <= 98
  {
    var r := CreateRect(a, b);
    assert r.w == a.x - b.x || r.w == b.x - a.x;
    assert r.h == a.y - b.y || r.h == b.y - a.y;
    assert (a.x - b.x) * (a.x - b.x) == r.w * r.w;
    assert (a.y - b.y) * (a.y - b.y) == r.h * r.h;
    if r.w < 8 && r.h < 8 {
      SmallSquare(r.w);
      SmallSquare(r.h);
    }
  }

  /** Arithmetic step of `ShortSpan`. */
  lemma SmallSquare(n: int)
    requires 0 <= n < 8
    ensures n * n <= 49
  {
    assert n * n <= 7 * n;
  }

  /** A drag along one axis only is accepted once it is 10 px long, and spans a
      rectangle with no area. */
  lemma StraightDrag(a: Point, len: nat)
    requires len >= MinCircleSize
    ensures var b := Point(a.x + len, a.y);
      FarEnough(a, b) && CreateRect(a, b).h == 0 && !CreateRect(a, b).Truthy()
  {
    assert len * len >= MinCircleSize * len >= MinCircleSize * MinCircleSize;
  }

  /** The image an editor hands back: the part of `source` under `area`, blitted
      onto a new surface of the area's size (the elliptical mask applied to it
      afterwards is not modelled). */
  datatype Cutout = Cutout(source: Surface, area: Rect)

  /** What `scale_keep_ratio` returns: the image itself, or a rescaled copy fitted
      into the box (the floating-point ratio is not modelled). */
  datatype Scaled = Unchanged(image: Surface) | FittedInto(image: Surface, maxW: int, maxH: int)

  /** `scale_keep_ratio`: an image that already fits the box is returned as it is. */
  function ScaleKeepRatio(image: Surface, maxW: int, maxH: int): (r: Scaled)
    ensures r == Unchanged(image) <==> image.w <= maxW && image.h <= maxH
    ensures r != Unchanged(image) ==> r == FittedInto(image, maxW, maxH)
  {
    if image.w <= maxW && image.h <= maxH then Unchanged(image) else FittedInto(image, maxW, maxH)
  }
}
