/**
 * `createRoundedRectPath` (Sources/Image.swift): a CGMutablePath built by successive
 * appends, and the closed rounded-rectangle contour it describes.
 */
module Paths {
  import opened Wrappers
  import opened Geometry

  /** One element of a CGPath, as appended by `move`, `addLine`, `addArc(tangent1End:tangent2End:radius:)` and `closeSubpath`. */
  datatype PathElement =
    | MoveTo(point: Point)
    | LineTo(point: Point)
    | ArcTo(tangent1End: Point, tangent2End: Point, radius: real)
    | Close

  /** A CGMutablePath: the elements appended so far. */
  class MutablePath {
    var elements: seq<PathElement>

    constructor ()
      ensures elements == []
    {
      elements := [];
    }

    method Move(to: Point)
      modifies this
      ensures elements == old(elements) + [MoveTo(to)]
    {
      elements := elements + [MoveTo(to)];
    }

    method AddLine(to: Point)
      modifies this
      ensures elements == old(elements) + [LineTo(to)]
    {
      elements := elements + [LineTo(to)];
    }

    method AddArc(tangent1End: Point, tangent2End: Point, radius: real)
      modifies this
      ensures elements == old(elements) + [ArcTo(tangent1End, tangent2End, radius)]
    {
      elements := elements + [ArcTo(tangent1End, tangent2End, radius)];
    }

    method CloseSubpath()
      modifies this
      ensures elements == old(elements) + [Close]
    {
      elements := elements + [Close];
    }
  }

  /** The radius actually used: the requested one, clamped to half the rectangle's smaller side. */
  function EffectiveRadius(rect: Rect, cornerRadius: real): (r: real)
    ensures r <= cornerRadius && r <= Min(Width(rect), Height(rect)) / 2.0
    ensures r == cornerRadius || r == Min(Width(rect), Height(rect)) / 2.0
    ensures cornerRadius >= 0.0 ==> r >= 0.0
  {
    Min(cornerRadius, Min(Width(rect), Height(rect)) / 2.0)
  }

  /** The four corners in the order the path rounds them. */
  function Corners(c: Contour): seq<Point>
  {
    [Point(c.maxX, c.minY), Point(c.maxX, c.maxY), Point(c.minX, c.maxY), Point(c.minX, c.minY)]
  }

  /** The last point an element reaches (an arc ends at its second tangent point). */
  function EndPoint(e: PathElement): Point
    requires !e.Close?
  {
    match e
    case MoveTo(p) => p
    case LineTo(p) => p
    case ArcTo(_, t2, _) => t2
  }

  /**
   * An arc from `from` is an exact quarter circle: its first tangent point is one radius
   * from `from` along one axis, and its second one radius further along the other axis,
   * so the arc neither starts nor ends with an extra straight piece.
   */
  predicate QuarterTurn(from: Point, e: PathElement)
  {
    e.ArcTo? &&
    var t1, t2, r := e.tangent1End, e.tangent2End, e.radius;
    (from.y == t1.y && (t1.x - from.x == r || from.x - t1.x == r) &&
     t2.x == t1.x && (t2.y - t1.y == r || t1.y - t2.y == r)) ||
    (from.x == t1.x && (t1.y - from.y == r || from.y - t1.y == r) &&
     t2.y == t1.y && (t2.x - t1.x == r || t1.x - t2.x == r))
  }

  /** The element sequence for a contour: a move, four line/arc pairs, a close. */
  function ContourElements(c: Contour): (e: seq<PathElement>)
    ensures |e| == 10
    ensures e[0] == MoveTo(Point(c.minX + c.radius, c.minY)) && e[9] == Close
    ensures forall k :: 0 <= k < 4 ==>
      e[2 * k + 1].LineTo? && e[2 * k + 2].ArcTo? &&
      e[2 * k + 2].tangent1End == Corners(c)[k] && e[2 * k + 2].radius == c.radius
    ensures forall k :: 0 <= k < 4 ==> QuarterTurn(EndPoint(e[2 * k + 1]), e[2 * k + 2])
    ensures e[8].ArcTo? && EndPoint(e[8]) == EndPoint(e[0])
  {
    var r := c.radius;
    [ MoveTo(Point(c.minX + r, c.minY)),
      LineTo(Point(c.maxX - r, c.minY)),
      ArcTo(Point(c.maxX, c.minY), Point(c.maxX, c.minY + r), r),
      LineTo(Point(c.maxX, c.maxY - r)),
      ArcTo(Point(c.maxX, c.maxY), Point(c.maxX - r, c.maxY), r),
      LineTo(Point(c.minX + r, c.maxY)),
      ArcTo(Point(c.minX, c.maxY), Point(c.minX, c.maxY - r), r),
      LineTo(Point(c.minX, c.minY + r)),
      ArcTo(Point(c.minX, c.minY), Point(c.minX + r, c.minY), r),
      Close ]
  }

  /** The contour `createRoundedRectPath` traces around a rectangle. */
  function RoundedContour(rect: Rect, cornerRadius: real): Contour
  {
    Contour(MinX(rect), MinY(rect), MaxX(rect), MaxY(rect), EffectiveRadius(rect, cornerRadius))
  }

  /** The elements of the path `createRoundedRectPath(rect:cornerRadius:)` returns. */
  function RoundedRectElements(rect: Rect, cornerRadius: real): seq<PathElement>
  {
    ContourElements(RoundedContour(rect, cornerRadius))
  }

  /**
   * With a non-negative requested radius the contour is a simple closed curve: the radius
   * is at most half of each side, so every straight edge has non-negative length and the
   * opposite corners' arcs never overlap.
   */
  lemma RoundedContourIsSimple(rect: Rect, cornerRadius: real)
    requires cornerRadius >= 0.0
    ensures var c := RoundedContour(rect, cornerRadius);
      0.0 <= c.radius && c.minX + c.radius <= c.maxX - c.radius && c.minY + c.radius <= c.maxY - c.radius
  {
  }

  /** `createRoundedRectPath(rect:cornerRadius:)`: the same appends, in the same order. */
  method CreateRoundedRectPath(rect: Rect, cornerRadius: real) returns (path: MutablePath)
    ensures fresh(path)
    ensures path.elements == RoundedRectElements(rect, cornerRadius)
  {
    path := new MutablePath();
    var maxRadius := Min(Width(rect), Height(rect)) / 2.0;
    var radius := Min(cornerRadius, maxRadius);
    var minX, minY, maxX, maxY := MinX(rect), MinY(rect), MaxX(rect), MaxY(rect);

    path.Move(Point(minX + radius, minY));
    path.AddLine(Point(maxX - radius, minY));
    path.AddArc(Point(maxX, minY), Point(maxX, minY + radius), radius);
    path.AddLine(Point(maxX, maxY - radius));
    path.AddArc(Point(maxX, maxY), Point(maxX - radius, maxY), radius);
    path.AddLine(Point(minX + radius, maxY));
    path.AddArc(Point(minX, maxY), Point(minX, maxY - radius), radius);
    path.AddLine(Point(minX, minY + radius));
    path.AddArc(Point(minX, minY), Point(minX + radius, minY), radius);
    path.CloseSubpath();
  }

  /**
   * Reads a contour back from a path's elements: the rectangle from the second and fourth
   * arcs' corners and the radius from the arcs; `None` for any other path.
   */
  function ParseContour(e: seq<PathElement>): (c: Option<Contour>)
    ensures c.Some? ==> ContourElements(c.value) == e
  {
    if |e| == 10 && e[4].ArcTo? && e[8].ArcTo? then
      var c := Contour(e[8].tangent1End.x, e[8].tangent1End.y, e[4].tangent1End.x, e[4].tangent1End.y, e[4].radius);
      if ContourElements(c) == e then Some(c) else None
    else
      None
  }

  /** Encoding a contour as path elements and reading it back gives the same contour. */
  lemma {:induction false} ParseContourRoundTrip(c: Contour)
    ensures ParseContour(ContourElements(c)) == Some(c)
  {
    var e := ContourElements(c);
    assert e[4].tangent1End == Point(c.maxX, c.maxY) && e[4].radius == c.radius;
    assert e[8].tangent1End == Point(c.minX, c.minY);
  }

  /** The region a path encloses, for the rounded-rectangle contours this program builds. */
  predicate InsidePath(e: seq<PathElement>, p: Point)
  {
    match ParseContour(e)
    case Some(c) => InsideContour(c, p)
    case None => false
  }

  /** A point inside the rounded path over a rectangle is inside the rectangle itself. */
  lemma {:induction false} RoundedPathWithinRect(rect: Rect, cornerRadius: real, p: Point)
    requires InsidePath(RoundedRectElements(rect, cornerRadius), p)
    ensures Contains(rect, p)
  {
    ParseContourRoundTrip(RoundedContour(rect, cornerRadius));
  }

  /** Inside the rounded path over a rectangle exactly when inside the contour traced around it. */
  lemma {:induction false} RoundedPathRegion(rect: Rect, cornerRadius: real, p: Point)
    ensures InsidePath(RoundedRectElements(rect, cornerRadius), p) <==> InsideContour(RoundedContour(rect, cornerRadius), p)
  {
    ParseContourRoundTrip(RoundedContour(rect, cornerRadius));
  }
}
