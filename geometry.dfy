/**
 * Core Graphics rectangles and points, with exact real coordinates. The origin is at
 * the bottom-left and y grows upward.
 */
module Geometry {
  import opened Wrappers

  datatype Point = Point(x: real, y: real)

  /** A CGRect: an origin and a size; a negative size extends left of or below the origin. */
  datatype Rect = Rect(x: real, y: real, width: real, height: real)

  function MinX(r: Rect): real { if r.width >= 0.0 then r.x else r.x + r.width }
  function MaxX(r: Rect): real { if r.width >= 0.0 then r.x + r.width else r.x }
  function MinY(r: Rect): real { if r.height >= 0.0 then r.y else r.y + r.height }
  function MaxY(r: Rect): real { if r.height >= 0.0 then r.y + r.height else r.y }

  /** `CGRect.width` and `CGRect.height` report the standardized (non-negative) extent. */
  function Width(r: Rect): (w: real)
    ensures w >= 0.0 && MaxX(r) == MinX(r) + w
  {
    MaxX(r) - MinX(r)
  }

  function Height(r: Rect): (h: real)
    ensures h >= 0.0 && MaxY(r) == MinY(r) + h
  {
    MaxY(r) - MinY(r)
  }

  function Min(a: real, b: real): real { if a <= b then a else b }
  function Max(a: real, b: real): real { if a >= b then a else b }

  /** `CGRect.contains(_:)`: the left and bottom edges belong to the rectangle, the others do not. */
  predicate Contains(r: Rect, p: Point)
  {
    MinX(r) <= p.x < MaxX(r) && MinY(r) <= p.y < MaxY(r)
  }

  /**
   * `CGRect.intersection(_:)`: the overlap of the two standardized rectangles, or
   * `None` (Core Graphics' null rectangle) when they do not meet.
   */
  function Intersection(a: Rect, b: Rect): (r: Option<Rect>)
    ensures r.Some? ==> r.value.width >= 0.0 && r.value.height >= 0.0
    ensures r.None? <==> MaxX(a) < MinX(b) || MaxX(b) < MinX(a) || MaxY(a) < MinY(b) || MaxY(b) < MinY(a)
  {
    var lowX, highX := Max(MinX(a), MinX(b)), Min(MaxX(a), MaxX(b));
    var lowY, highY := Max(MinY(a), MinY(b)), Min(MaxY(a), MaxY(b));
    if highX < lowX || highY < lowY then None
    else Some(Rect(lowX, lowY, highX - lowX, highY - lowY))
  }

  /** A point lies in the intersection exactly when it lies in both rectangles. */
  lemma IntersectionContains(a: Rect, b: Rect, p: Point)
    ensures (Intersection(a, b).Some? && Contains(Intersection(a, b).value, p)) <==> Contains(a, p) && Contains(b, p)
  {
  }

  /** A closed rectangle with quarter-circle corners of the given radius. */
  datatype Contour = Contour(minX: real, minY: real, maxX: real, maxY: real, radius: real)

  /** `p` lies strictly outside the circle of radius `r` around `centre`. */
  predicate OutsideCircle(p: Point, centre: Point, r: real)
  {
    (p.x - centre.x) * (p.x - centre.x) + (p.y - centre.y) * (p.y - centre.y) > r * r
  }

  /** The part of the corner square at the bottom-left that the rounding cuts away. */
  predicate InBottomLeftCut(c: Contour, p: Point)
  {
    p.x < c.minX + c.radius && p.y < c.minY + c.radius &&
    OutsideCircle(p, Point(c.minX + c.radius, c.minY + c.radius), c.radius)
  }

  predicate InBottomRightCut(c: Contour, p: Point)
  {
    p.x > c.maxX - c.radius && p.y < c.minY + c.radius &&
    OutsideCircle(p, Point(c.maxX - c.radius, c.minY + c.radius), c.radius)
  }

  predicate InTopRightCut(c: Contour, p: Point)
  {
    p.x > c.maxX - c.radius && p.y > c.maxY - c.radius &&
    OutsideCircle(p, Point(c.maxX - c.radius, c.maxY - c.radius), c.radius)
  }

  predicate InTopLeftCut(c: Contour, p: Point)
  {
    p.x < c.minX + c.radius && p.y > c.maxY - c.radius &&
    OutsideCircle(p, Point(c.minX + c.radius, c.maxY - c.radius), c.radius)
  }

  predicate InCornerCut(c: Contour, p: Point)
  {
    InBottomLeftCut(c, p) || InBottomRightCut(c, p) || InTopRightCut(c, p) || InTopLeftCut(c, p)
  }

  /** The region the contour encloses (edges as for `Contains`). */
  predicate InsideContour(c: Contour, p: Point)
  {
    c.minX <= p.x < c.maxX && c.minY <= p.y < c.maxY && !InCornerCut(c, p)
  }

  /**
   * Rounding only removes the corners: a point of the rectangle that is at least a
   * radius away from both vertical edges, or from both horizontal edges, is inside.
   */
  lemma StraightPartsUnaffected(c: Contour, p: Point)
    requires c.radius >= 0.0
    requires c.minX <= p.x < c.maxX && c.minY <= p.y < c.maxY
    requires (c.minX + c.radius <= p.x <= c.maxX - c.radius) || (c.minY + c.radius <= p.y <= c.maxY - c.radius)
    ensures InsideContour(c, p)
  {
  }
}
