/**
 * Values shared by the rendering core: floating-point numbers that may be NaN,
 * pixel points, the integer and floating rectangles of System.Drawing, geographic
 * extents, the viewport (MapArgs) and the projection from geographic to pixel space.
 */
module Geometry {

  datatype Option<+T> = None | Some(value: T)

  /** A double as the drawing code sees it: a finite value or NaN. */
  datatype Num = Finite(v: real) | NaN

  /** (a - b) * f, with NaN propagating as in IEEE arithmetic. */
  function Offset(a: Num, b: real, f: real): Num
  {
    match a
    case NaN => NaN
    case Finite(x) => Finite((x - b) * f)
  }

  /** (b - a) * f, with NaN propagating. */
  function OffsetFrom(b: real, a: Num, f: real): Num
  {
    match a
    case NaN => NaN
    case Finite(x) => Finite((b - x) * f)
  }

  /** A PointF, or a double[] holding an X and a Y. */
  datatype PointF = PointF(x: Num, y: Num)

  /** A System.Drawing.Point. */
  datatype Point = Point(x: int, y: int)

  /** Point.Empty, the value `new Point()` has; Point.IsEmpty tests for it. */
  const EmptyPoint := Point(0, 0)

  /**
   * Convert.ToInt32 on a double: rounds to the nearest integer and, at exactly
   * half way, to the even neighbour.
   */
  function RoundHalfEven(r: real): (n: int)
    ensures (n as real) - r <= 0.5 && r - (n as real) <= 0.5
  {
    var f := r.Floor;
    var frac := r - f as real;
    if frac < 0.5 then f
    else if frac > 0.5 then f + 1
    else if f % 2 == 0 then f else f + 1
  }

  lemma RoundHalfEvenOfInteger(n: int)
    ensures RoundHalfEven(n as real) == n
  {
    assert (n as real).Floor == n;
  }

  predicate HasNaN(p: PointF)
  {
    p.x.NaN? || p.y.NaN?
  }

  /** The pixel a NaN-free PointF is rounded to. */
  function Rounded(p: PointF): Point
    requires !HasNaN(p)
  {
    Point(RoundHalfEven(p.x.v), RoundHalfEven(p.y.v))
  }

  /** A pixel point as a PointF (the conversion Point -> PointF). */
  function Lift(p: Point): PointF
  {
    PointF(Finite(p.x as real), Finite(p.y as real))
  }

  /** A geographic coordinate (X, Y). */
  datatype Coord = Coord(x: real, y: real)

  /** A System.Drawing.Size / SizeF of a measured label. */
  datatype SizeF = SizeF(w: real, h: real)

  /** A System.Drawing.Rectangle. */
  datatype Rect = Rect(x: int, y: int, w: int, h: int)

  /** Rectangle.Inflate(dw, dh): grows the rectangle by dw and dh on each side. */
  function Inflate(r: Rect, dw: int, dh: int): Rect
  {
    Rect(r.x - dw, r.y - dh, r.w + 2 * dw, r.h + 2 * dh)
  }

  /** `outer` covers `inner` (both treated as closed boxes). */
  predicate Covers(outer: Rect, inner: Rect)
  {
    outer.x <= inner.x && outer.y <= inner.y &&
    inner.x + inner.w <= outer.x + outer.w && inner.y + inner.h <= outer.y + outer.h
  }

  /** A System.Drawing.RectangleF. */
  datatype RectF = RectF(x: real, y: real, w: real, h: real)

  /** RectangleF.Empty. */
  const EmptyRectF := RectF(0.0, 0.0, 0.0, 0.0)

  /** RectangleF.IsEmpty: no positive width or no positive height. */
  predicate IsEmptyF(r: RectF)
  {
    r.w <= 0.0 || r.h <= 0.0
  }

  /** RectangleF.IntersectsWith: the open interiors overlap. */
  predicate IntersectsF(a: RectF, b: RectF)
  {
    b.x < a.x + a.w && a.x < b.x + b.w && b.y < a.y + a.h && a.y < b.y + b.h
  }

  lemma IntersectsSymmetric(a: RectF, b: RectF)
    ensures IntersectsF(a, b) <==> IntersectsF(b, a)
  {
  }

  /** The implicit conversion Rectangle -> RectangleF. */
  function ToRectF(r: Rect): RectF
  {
    RectF(r.x as real, r.y as real, r.w as real, r.h as real)
  }

  /** A geographic bounding box. */
  datatype Extent = Extent(minX: real, minY: real, maxX: real, maxY: real)

  /** Extent.Width. */
  function ExtentWidth(e: Extent): real
  {
    e.maxX - e.minX
  }

  /** Extent.Within: `a` lies inside `b`. */
  predicate Within(a: Extent, b: Extent)
  {
    b.minX <= a.minX && a.maxX <= b.maxX && b.minY <= a.minY && a.maxY <= b.maxY
  }

  /** Extent.Intersects for two extents: the closed boxes share a point. */
  predicate Intersects(a: Extent, b: Extent)
  {
    a.minX <= b.maxX && b.minX <= a.maxX && a.minY <= b.maxY && b.minY <= a.maxY
  }

  /** Extent.Intersects for a coordinate: the coordinate lies in the closed box. */
  predicate ContainsCoord(e: Extent, c: Coord)
  {
    e.minX <= c.x <= e.maxX && e.minY <= c.y <= e.maxY
  }

  /**
   * MapArgs: the transform of one render pass. A geographic X maps to
   * (X - minX) * dx pixels, a geographic Y to (maxY - Y) * dy pixels.
   */
  datatype MapArgs = MapArgs(minX: real, maxY: real, dx: real, dy: real,
                             imageRect: Rect, geoExtent: Extent)

  /**
   * The floating pixel position of vertex `i` of a flat [x0, y0, x1, y1, ...]
   * array: ((x - minX) * dx, (maxY - y) * dy).
   */
  function ProjectVertex(vertices: seq<Num>, i: nat, minX: real, maxY: real, dx: real, dy: real): (p: PointF)
    requires 2 * i + 1 < |vertices|
    ensures p.x.NaN? <==> vertices[2 * i].NaN?
    ensures p.y.NaN? <==> vertices[2 * i + 1].NaN?
    ensures !vertices[2 * i].NaN? ==> p.x.v == (vertices[2 * i].v - minX) * dx
    ensures !vertices[2 * i + 1].NaN? ==> p.y.v == (maxY - vertices[2 * i + 1].v) * dy
  {
    PointF(Offset(vertices[2 * i], minX, dx), OffsetFrom(maxY, vertices[2 * i + 1], dy))
  }

  /** Rectangle.Left, Top, Right and Bottom. */
  function Left(r: Rect): int { r.x }
  function Top(r: Rect): int { r.y }
  function Right(r: Rect): int { r.x + r.w }
  function Bottom(r: Rect): int { r.y + r.h }

  /** The pixel a geographic coordinate lands on. */
  function ProjectCoord(c: Coord, minX: real, maxY: real, dx: real, dy: real): Point
  {
    Point(RoundHalfEven((c.x - minX) * dx), RoundHalfEven((maxY - c.y) * dy))
  }
}
