/**
 * The index-mode view of a feature set: one flat [x0, y0, x1, y1, ...] vertex
 * array, and per shape a ShapeRange listing its parts as vertex index ranges.
 * The projected positions of a part and the figures a path gets for it are
 * shared by the line and polygon builders.
 */
module ShapeParts {
  import opened Geometry
  import opened Sequences
  import opened Symbology
  import DuplicationPreventer

  /** A PartRange: the vertices startIndex..endIndex (inclusive) of one part. */
  datatype PartRange = PartRange(startIndex: int, endIndex: int)

  /**
   * A ShapeRange: the shape's feature type, the range of all its vertices, its
   * part ranges and its geographic extent.
   */
  datatype ShapeRange = ShapeRange(featureType: FeatureType, startIndex: int, endIndex: int,
                                   parts: seq<PartRange>, extent: Extent)

  /** The number of vertices of a part (zero when the range is empty). */
  function PartLength(p: PartRange): nat
  {
    if p.endIndex < p.startIndex then 0 else p.endIndex - p.startIndex + 1
  }

  /** Every vertex index the part visits has both co-ordinates in the array. */
  predicate IndicesInBounds(p: PartRange, numValues: int)
  {
    p.endIndex < p.startIndex || (0 <= p.startIndex && 2 * p.endIndex + 1 < numValues)
  }

  predicate AllInBounds(parts: seq<PartRange>, numValues: int)
  {
    forall i :: 0 <= i < |parts| ==> IndicesInBounds(parts[i], numValues)
  }

  /** The floating pixel positions of a part's vertices, in vertex order. */
  function PartPoints(vertices: seq<Num>, p: PartRange, minX: real, maxY: real, dx: real, dy: real): (r: seq<PointF>)
    requires IndicesInBounds(p, |vertices|)
    ensures |r| == PartLength(p)
    ensures forall k :: 0 <= k < |r| ==> r[k] == ProjectVertex(vertices, p.startIndex + k, minX, maxY, dx, dy)
  {
    seq(PartLength(p), k requires 0 <= k < PartLength(p) =>
      ProjectVertex(vertices, p.startIndex + k, minX, maxY, dx, dy))
  }

  /** A figure is at least two pixels long and never repeats a pixel in a row. */
  predicate WellFormedFigures(fs: seq<seq<Point>>)
  {
    forall i :: 0 <= i < |fs| ==> |fs[i]| >= 2 && AdjacentDistinct(fs[i])
  }

  /** Without clipping: one cleaned figure per part that keeps two pixels or more, in part order. */
  function CleanedPartFigures(vertices: seq<Num>, parts: seq<PartRange>, minX: real, maxY: real, dx: real, dy: real)
    : seq<seq<Point>>
    requires AllInBounds(parts, |vertices|)
  {
    if parts == [] then []
    else
      var f := DuplicationPreventer.Cleaned(PartPoints(vertices, parts[|parts| - 1], minX, maxY, dx, dy));
      CleanedPartFigures(vertices, parts[..|parts| - 1], minX, maxY, dx, dy) + (if |f| < 2 then [] else [f])
  }
}
