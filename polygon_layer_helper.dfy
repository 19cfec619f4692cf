/**
 * PolygonLayerHelper: the clipping rectangle of a polygon layer, the projected
 * vertex list of a part, and building a polygon's border path part by part.
 */
module PolygonLayerHelper {
  import opened Geometry
  import opened Sequences
  import opened ShapeParts
  import opened Rendering
  import DuplicationPreventer

  /** How far polygon symbology may reach outside the image, in pixels. */
  const MaxSymbologyFuzz := 50

  /** The image rectangle grown by 50 pixels on every side. */
  function ComputeClippingRectangle(args: MapArgs): (r: Rect)
    ensures Left(r) == Left(args.imageRect) - MaxSymbologyFuzz
    ensures Top(r) == Top(args.imageRect) - MaxSymbologyFuzz
    ensures Right(r) == Right(args.imageRect) + MaxSymbologyFuzz
    ensures Bottom(r) == Bottom(args.imageRect) + MaxSymbologyFuzz
  {
    Inflate(args.imageRect, MaxSymbologyFuzz, MaxSymbologyFuzz)
  }

  lemma ClippingRectangleCoversImage(args: MapArgs)
    ensures Covers(ComputeClippingRectangle(args), args.imageRect)
  {
  }

  /**
   * The projected positions of a part's vertices. `new List(end - start + 1)`
   * demands a part range that is not shorter than empty.
   */
  method CreatePointListPoints(vertices: seq<Num>, prtx: PartRange, args: MapArgs) returns (points: seq<PointF>)
    requires IndicesInBounds(prtx, |vertices|) && prtx.startIndex <= prtx.endIndex + 1
    ensures |points| == prtx.endIndex - prtx.startIndex + 1
    ensures forall k :: 0 <= k < |points| ==>
              points[k] == ProjectVertex(vertices, prtx.startIndex + k, args.minX, args.maxY, args.dx, args.dy)
    ensures points == PartPoints(vertices, prtx, args.minX, args.maxY, args.dx, args.dy)
  {
    var minX := args.minX;
    var maxY := args.maxY;
    var dx := args.dx;
    var dy := args.dy;
    var start := prtx.startIndex;
    var end := prtx.endIndex;
    points := [];
    var i := start;
    while i <= end
      invariant start <= i <= end + 1
      invariant points == PartPoints(vertices, prtx, minX, maxY, dx, dy)[..i - start]
    {
      points := points + [PointF(Offset(vertices[i * 2], minX, dx), OffsetFrom(maxY, vertices[i * 2 + 1], dy))];
      i := i + 1;
    }
  }

  /**
   * SoutherlandHodgman.Clip: the part of a polygon ring inside the clipping
   * rectangle. The clipping algorithm is not part of this model; a clipper is
   * a parameter, and null is None.
   */
  type PolygonClipper = seq<PointF> -> seq<PointF>

  function ClipIfAny(points: seq<PointF>, shClip: Option<PolygonClipper>): seq<PointF>
  {
    if shClip.Some? then shClip.value(points) else points
  }

  /** The figures BuildPolygon adds: per part, the cleaned (clipped) ring when it keeps two pixels. */
  function PolygonFigures(vertices: seq<Num>, parts: seq<PartRange>, args: MapArgs, shClip: Option<PolygonClipper>)
    : seq<seq<Point>>
    requires AllInBounds(parts, |vertices|)
  {
    if parts == [] then []
    else PolygonFigures(vertices, parts[..|parts| - 1], args, shClip) + RingFigure(vertices, parts[|parts| - 1], args, shClip)
  }

  /** The figure one part adds: its cleaned (clipped) ring, or nothing when under two pixels. */
  function RingFigure(vertices: seq<Num>, p: PartRange, args: MapArgs, shClip: Option<PolygonClipper>): seq<seq<Point>>
    requires IndicesInBounds(p, |vertices|)
  {
    var f := DuplicationPreventer.Cleaned(ClipIfAny(PartPoints(vertices, p, args.minX, args.maxY, args.dx, args.dy), shClip));
    if |f| < 2 then [] else [f]
  }

  /** The figures of one more part follow those of the parts before it. */
  lemma PolygonFiguresStep(vertices: seq<Num>, parts: seq<PartRange>, prt: nat, args: MapArgs, shClip: Option<PolygonClipper>)
    requires prt < |parts| && AllInBounds(parts, |vertices|)
    ensures AllInBounds(parts[..prt], |vertices|) && AllInBounds(parts[..prt + 1], |vertices|)
    ensures PolygonFigures(vertices, parts[..prt + 1], args, shClip) ==
            PolygonFigures(vertices, parts[..prt], args, shClip) + RingFigure(vertices, parts[prt], args, shClip)
  {
    var done := parts[..prt + 1];
    assert done[..prt] == parts[..prt] && done[prt] == parts[prt];
  }

  method BuildPolygon(vertices: seq<Num>, shpx: ShapeRange, borderPath: GraphicsPath, args: MapArgs,
                      shClip: Option<PolygonClipper>)
    requires forall i :: 0 <= i < |shpx.parts| ==>
               IndicesInBounds(shpx.parts[i], |vertices|) && shpx.parts[i].startIndex <= shpx.parts[i].endIndex + 1
    modifies borderPath
    ensures borderPath.figures == old(borderPath.figures) + PolygonFigures(vertices, shpx.parts, args, shClip)
  {
    var prt := 0;
    while prt < |shpx.parts|
      invariant 0 <= prt <= |shpx.parts|
      invariant borderPath.figures == old(borderPath.figures) + PolygonFigures(vertices, shpx.parts[..prt], args, shClip)
    {
      AddPolygonPart(vertices, shpx.parts, prt, borderPath, args, shClip, old(borderPath.figures));
      prt := prt + 1;
    }
    assert prt == |shpx.parts|;
    assert shpx.parts[..prt] == shpx.parts;
  }

  /** One pass of BuildPolygon's loop: the figure of part `prt` after those of the parts before it. */
  method AddPolygonPart(vertices: seq<Num>, parts: seq<PartRange>, prt: nat, borderPath: GraphicsPath, args: MapArgs,
                        shClip: Option<PolygonClipper>, ghost before: seq<seq<Point>>)
    requires prt < |parts|
    requires forall i :: 0 <= i < |parts| ==>
               IndicesInBounds(parts[i], |vertices|) && parts[i].startIndex <= parts[i].endIndex + 1
    requires borderPath.figures == before + PolygonFigures(vertices, parts[..prt], args, shClip)
    modifies borderPath
    ensures borderPath.figures == before + PolygonFigures(vertices, parts[..prt + 1], args, shClip)
  {
    PolygonFiguresStep(vertices, parts, prt, args, shClip);
    AddRing(vertices, parts[prt], borderPath, args, shClip);
  }

  /** A part's ring: projected, clipped when there is a clipper, cleaned, and added when two pixels or more remain. */
  method AddRing(vertices: seq<Num>, prtx: PartRange, borderPath: GraphicsPath, args: MapArgs, shClip: Option<PolygonClipper>)
    requires IndicesInBounds(prtx, |vertices|) && prtx.startIndex <= prtx.endIndex + 1
    modifies borderPath
    ensures borderPath.figures == old(borderPath.figures) + RingFigure(vertices, prtx, args, shClip)
  {
    var points := CreatePointListPoints(vertices, prtx, args);
    if shClip.Some? {
      points := shClip.value(points);
    }
    var intPoints := DuplicationPreventer.Clean(points);
    if |intPoints| < 2 {
      assert borderPath.figures == old(borderPath.figures) + [];
      return;
    }
    borderPath.AddFigure(intPoints);
  }

  /** At most one figure per part; each is two pixels or more with no pixel repeated in a row. */
  lemma {:induction false} PolygonFiguresBounded(vertices: seq<Num>, parts: seq<PartRange>, args: MapArgs,
                                                 shClip: Option<PolygonClipper>)
    requires AllInBounds(parts, |vertices|)
    ensures |PolygonFigures(vertices, parts, args, shClip)| <= |parts|
    ensures WellFormedFigures(PolygonFigures(vertices, parts, args, shClip))
    decreases |parts|
  {
    if parts != [] {
      var pts := PartPoints(vertices, parts[|parts| - 1], args.minX, args.maxY, args.dx, args.dy);
      PolygonFiguresBounded(vertices, parts[..|parts| - 1], args, shClip);
      DuplicationPreventer.CleanedProperties(ClipIfAny(pts, shClip));
    }
  }

  /** With a null clipper every part's ring is cleaned as projected. */
  lemma {:induction false} PolygonFiguresUnclipped(vertices: seq<Num>, parts: seq<PartRange>, args: MapArgs)
    requires AllInBounds(parts, |vertices|)
    ensures PolygonFigures(vertices, parts, args, None) ==
            CleanedPartFigures(vertices, parts, args.minX, args.maxY, args.dx, args.dy)
    decreases |parts|
  {
    if parts != [] {
      PolygonFiguresUnclipped(vertices, parts[..|parts| - 1], args);
    }
  }

  /** The figures of a prefix of the parts come first: later parts only append. */
  lemma {:induction false} PolygonFiguresPrefix(vertices: seq<Num>, parts: seq<PartRange>, n: nat, args: MapArgs,
                                                shClip: Option<PolygonClipper>)
    requires AllInBounds(parts, |vertices|) && n <= |parts|
    ensures PolygonFigures(vertices, parts[..n], args, shClip) <= PolygonFigures(vertices, parts, args, shClip)
    decreases |parts|
  {
    if n < |parts| {
      assert parts[..|parts| - 1][..n] == parts[..n];
      PolygonFiguresPrefix(vertices, parts[..|parts| - 1], n, args, shClip);
    } else {
      assert parts[..n] == parts;
    }
  }
}
