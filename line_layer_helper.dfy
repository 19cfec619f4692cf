/**
 * LineLayerHelper: building the GraphicsPath of a line shape in pixel space,
 * the clipping rectangle widened for the symbol width, the geographic scale
 * factor and the choice between normal and selection symbolizer.
 */
module LineLayerHelper {
  import opened Geometry
  import opened Sequences
  import opened Symbology
  import opened Rendering
  import opened ShapeParts
  import DuplicationPreventer
  import PolygonLayerHelper

  /** The selectState value that asks for the selection symbolizer. */
  const Selected := 1

  // ---------------------------------------------------------------------------
  // BuildLineString(GraphicsPath, IBasicLineString, minX, maxY, dx, dy)
  // ---------------------------------------------------------------------------

  /** The pixels of a linestring's coordinates, in order. */
  function ProjectCoords(cs: seq<Coord>, minX: real, maxY: real, dx: real, dy: real): (r: seq<Point>)
    ensures |r| == |cs|
    ensures forall i :: 0 <= i < |cs| ==> r[i] == ProjectCoord(cs[i], minX, maxY, dx, dy)
  {
    seq(|cs|, i requires 0 <= i < |cs| => ProjectCoord(cs[i], minX, maxY, dx, dy))
  }

  /**
   * The pixels kept after `previous`: a pixel is dropped only when it repeats the
   * one before it and that one is not Point.Empty. Every pixel, kept or not,
   * becomes the next `previous`.
   */
  function KeptAfter(previous: Point, s: seq<Point>): seq<Point>
    decreases |s|
  {
    if s == [] then []
    else (if previous != EmptyPoint && s[0] == previous then [] else [s[0]]) + KeptAfter(s[0], s[1..])
  }

  /** The figure the basic overload would add (if it has two pixels or more). */
  function BasicFigure(cs: seq<Coord>, minX: real, maxY: real, dx: real, dy: real): seq<Point>
  {
    KeptAfter(EmptyPoint, ProjectCoords(cs, minX, maxY, dx, dy))
  }

  method BuildBasicLineString(path: GraphicsPath, cs: seq<Coord>, minX: real, maxY: real, dx: real, dy: real)
    modifies path
    ensures var f := BasicFigure(cs, minX, maxY, dx, dy);
            path.figures == old(path.figures) + (if |f| >= 2 then [f] else [])
  {
    var points := BasicPoints(cs, minX, maxY, dx, dy);
    if |points| < 2 {
      assert path.figures == old(path.figures) + [];
      return;
    }
    path.AddFigure(points);
  }

  /** The basic overload's loop over the coordinates, skipping a pixel equal to the one before it. */
  method BasicPoints(cs: seq<Coord>, minX: real, maxY: real, dx: real, dy: real) returns (points: seq<Point>)
    ensures points == BasicFigure(cs, minX, maxY, dx, dy)
  {
    ghost var projected := ProjectCoords(cs, minX, maxY, dx, dy);
    ghost var target := KeptAfter(EmptyPoint, projected);
    points := [];
    var previousPoint := EmptyPoint;
    var iPoint := 0;
    while iPoint < |cs|
      invariant 0 <= iPoint <= |cs|
      invariant points + KeptAfter(previousPoint, projected[iPoint..]) == target
    {
      var c := cs[iPoint];
      var pt := ProjectCoord(c, minX, maxY, dx, dy);
      assert pt == projected[iPoint];
      KeptAfterStep(points, previousPoint, projected, iPoint, target);
      if previousPoint != EmptyPoint {
        if pt != previousPoint {
          points := points + [pt];
        }
      } else {
        points := points + [pt];
      }
      assert points + KeptAfter(pt, projected[iPoint + 1..]) == target;
      previousPoint := pt;
      iPoint := iPoint + 1;
    }
    assert iPoint == |cs|;
    assert projected[iPoint..] == [];
    assert points + [] == points;
  }

  /** One coordinate of the basic overload's loop: the pixel is kept unless it repeats a non-empty previous one. */
  lemma KeptAfterStep(points: seq<Point>, previous: Point, projected: seq<Point>, i: nat, target: seq<Point>)
    requires i < |projected| && points + KeptAfter(previous, projected[i..]) == target
    ensures previous != EmptyPoint && projected[i] == previous ==>
              points + KeptAfter(projected[i], projected[i + 1..]) == target
    ensures !(previous != EmptyPoint && projected[i] == previous) ==>
              (points + [projected[i]]) + KeptAfter(projected[i], projected[i + 1..]) == target
  {
    assert projected[i..][0] == projected[i];
    assert projected[i..][1..] == projected[i + 1..];
    var head := if previous != EmptyPoint && projected[i] == previous then [] else [projected[i]];
    var rest := KeptAfter(projected[i], projected[i + 1..]);
    assert KeptAfter(previous, projected[i..]) == head + rest;
    AppendAssoc(points, head, rest);
  }

  /** The first pixel is always kept, and the kept pixels are the input with some removed. */
  lemma {:induction false} KeptAfterSubsequence(previous: Point, s: seq<Point>)
    ensures IsSubsequence(KeptAfter(previous, s), s)
    ensures |KeptAfter(previous, s)| <= |s|
    ensures s != [] && previous == EmptyPoint ==> KeptAfter(previous, s) != [] && KeptAfter(previous, s)[0] == s[0]
    decreases |s|
  {
    if s != [] {
      KeptAfterSubsequence(s[0], s[1..]);
      assert s == [s[0]] + s[1..];
      var t := KeptAfter(s[0], s[1..]);
      if previous != EmptyPoint && s[0] == previous {
        assert KeptAfter(previous, s) == t;
        SubsequenceSkip(s[0], t, s[1..]);
      } else {
        assert KeptAfter(previous, s) == [s[0]] + t;
        SubsequenceCons(s[0], t, s[1..]);
      }
      SubsequenceLength(KeptAfter(previous, s), s);
    }
  }

  lemma {:induction false} KeptAfterHead(previous: Point, s: seq<Point>)
    ensures KeptAfter(previous, s) != [] && KeptAfter(previous, s)[0] == previous ==> previous == EmptyPoint
    decreases |s|
  {
    if s != [] && previous != EmptyPoint && s[0] == previous {
      KeptAfterHead(s[0], s[1..]);
    }
  }

  /**
   * Because Point.Empty doubles as "no previous point", the basic overload lets
   * a repeated (0, 0) through: two equal neighbours in its output can only be
   * (0, 0).
   */
  lemma {:induction false} KeptAfterRepeatsOnlyEmpty(previous: Point, s: seq<Point>)
    ensures forall i :: 0 <= i && i + 1 < |KeptAfter(previous, s)| && KeptAfter(previous, s)[i] == KeptAfter(previous, s)[i + 1] ==>
              KeptAfter(previous, s)[i] == EmptyPoint
    decreases |s|
  {
    if s != [] {
      var t := KeptAfter(s[0], s[1..]);
      KeptAfterRepeatsOnlyEmpty(s[0], s[1..]);
      KeptAfterHead(s[0], s[1..]);
      var k := KeptAfter(previous, s);
      if !(previous != EmptyPoint && s[0] == previous) {
        forall i | 0 <= i && i + 1 < |k| && k[i] == k[i + 1] ensures k[i] == EmptyPoint {
          if i > 0 {
            assert k[i] == t[i - 1] && k[i + 1] == t[i];
          }
        }
      }
    }
  }

  /** Two adjacent (0, 0) pixels do come out as two figure points. */
  lemma OriginRepeated()
    ensures KeptAfter(EmptyPoint, [EmptyPoint, EmptyPoint]) == [EmptyPoint, EmptyPoint]
  {
    assert [EmptyPoint, EmptyPoint][1..] == [EmptyPoint];
    assert [EmptyPoint][1..] == [];
    assert KeptAfter(EmptyPoint, [EmptyPoint]) == [EmptyPoint];
  }

  lemma {:induction false} KeptAfterAwayFromOrigin(previous: Point, s: seq<Point>)
    requires previous != EmptyPoint && EmptyPoint !in s
    ensures [previous] + KeptAfter(previous, s) == DuplicationPreventer.CollapseRuns([previous] + s)
    decreases |s|
  {
    if s != [] {
      assert ([previous] + s)[1..] == s;
      assert s == [s[0]] + s[1..];
      KeptAfterAwayFromOrigin(s[0], s[1..]);
    }
  }

  /** Away from the pixel (0, 0) the basic overload removes exactly the repeats. */
  lemma BasicFigureAwayFromOrigin(s: seq<Point>)
    requires EmptyPoint !in s
    ensures KeptAfter(EmptyPoint, s) == DuplicationPreventer.CollapseRuns(s)
  {
    if s != [] {
      assert s == [s[0]] + s[1..];
      KeptAfterAwayFromOrigin(s[0], s[1..]);
    }
  }

  // ---------------------------------------------------------------------------
  // BuildLineString(GraphicsPath, double[] vertices, ShapeRange, MapArgs, Rectangle)
  // ---------------------------------------------------------------------------

  /**
   * CohenSutherland.ClipLinestring(points, left, top, right, bottom): the pieces
   * of a polyline inside a rectangle. The clipping algorithm is not part of this
   * model; it is a parameter.
   */
  type LineClipper = (seq<PointF>, int, int, int, int) -> seq<seq<PointF>>

  /** The polylines to draw for a part: clipped unless the shape lies inside the view. */
  function ClippedLines(points: seq<PointF>, extent: Extent, args: MapArgs, clipRect: Rect, clip: LineClipper): seq<seq<PointF>>
  {
    if !Within(extent, args.geoExtent) then clip(points, Left(clipRect), Top(clipRect), Right(clipRect), Bottom(clipRect))
    else [points]
  }

  /** The figures added for some polylines: each cleaned, dropped when under two pixels. */
  function FiguresOf(lines: seq<seq<PointF>>): seq<seq<Point>>
  {
    if lines == [] then []
    else
      var f := DuplicationPreventer.Cleaned(lines[|lines| - 1]);
      FiguresOf(lines[..|lines| - 1]) + (if |f| < 2 then [] else [f])
  }

  /** The figures added for all of a shape's parts, in part order. */
  function LineFigures(vertices: seq<Num>, parts: seq<PartRange>, extent: Extent, args: MapArgs,
                       clipRect: Rect, clip: LineClipper): seq<seq<Point>>
    requires forall i :: 0 <= i < |parts| ==> IndicesInBounds(parts[i], |vertices|)
  {
    if parts == [] then []
    else
      var last := parts[|parts| - 1];
      LineFigures(vertices, parts[..|parts| - 1], extent, args, clipRect, clip) +
      FiguresOf(ClippedLines(PartPoints(vertices, last, args.minX, args.maxY, args.dx, args.dy), extent, args, clipRect, clip))
  }

  /** The figures of one more part follow those of the parts before it. */
  lemma LineFiguresStep(vertices: seq<Num>, parts: seq<PartRange>, prt: nat, extent: Extent, args: MapArgs,
                        clipRect: Rect, clip: LineClipper)
    requires prt < |parts| && forall i :: 0 <= i < |parts| ==> IndicesInBounds(parts[i], |vertices|)
    ensures LineFigures(vertices, parts[..prt + 1], extent, args, clipRect, clip) ==
            LineFigures(vertices, parts[..prt], extent, args, clipRect, clip) +
            FiguresOf(ClippedLines(PartPoints(vertices, parts[prt], args.minX, args.maxY, args.dx, args.dy),
                                   extent, args, clipRect, clip))
  {
    var done := parts[..prt + 1];
    assert done[..prt] == parts[..prt] && done[prt] == parts[prt];
  }

  /**
   * The index-mode overload. `new List(end - start + 1)` demands a part range
   * that is not shorter than empty.
   */
  method BuildLineString(path: GraphicsPath, vertices: seq<Num>, shpx: ShapeRange, args: MapArgs,
                         clipRect: Rect, clip: LineClipper)
    requires forall i :: 0 <= i < |shpx.parts| ==>
               IndicesInBounds(shpx.parts[i], |vertices|) && shpx.parts[i].startIndex <= shpx.parts[i].endIndex + 1
    modifies path
    ensures path.figures == old(path.figures) + LineFigures(vertices, shpx.parts, shpx.extent, args, clipRect, clip)
  {
    var prt := 0;
    while prt < |shpx.parts|
      invariant 0 <= prt <= |shpx.parts|
      invariant path.figures == old(path.figures) + LineFigures(vertices, shpx.parts[..prt], shpx.extent, args, clipRect, clip)
    {
      AddPartFigures(path, vertices, shpx.parts, prt, shpx.extent, args, clipRect, clip, old(path.figures));
      prt := prt + 1;
    }
    assert prt == |shpx.parts|;
    assert shpx.parts[..prt] == shpx.parts;
  }

  /**
   * One pass of the index-mode overload's loop: the points of part `prt`, clipped
   * unless the shape lies inside the view, then their figures after those of the
   * parts before it.
   */
  method AddPartFigures(path: GraphicsPath, vertices: seq<Num>, parts: seq<PartRange>, prt: nat, extent: Extent,
                        args: MapArgs, clipRect: Rect, clip: LineClipper, ghost before: seq<seq<Point>>)
    requires prt < |parts|
    requires forall i :: 0 <= i < |parts| ==>
               IndicesInBounds(parts[i], |vertices|) && parts[i].startIndex <= parts[i].endIndex + 1
    requires path.figures == before + LineFigures(vertices, parts[..prt], extent, args, clipRect, clip)
    modifies path
    ensures path.figures == before + LineFigures(vertices, parts[..prt + 1], extent, args, clipRect, clip)
  {
    LineFiguresStep(vertices, parts, prt, extent, args, clipRect, clip);
    AddClippedPart(path, vertices, parts[prt], extent, args, clipRect, clip);
  }

  /** The figures of one part: its points, clipped unless the shape lies inside the view. */
  method AddClippedPart(path: GraphicsPath, vertices: seq<Num>, prtx: PartRange, extent: Extent, args: MapArgs,
                        clipRect: Rect, clip: LineClipper)
    requires IndicesInBounds(prtx, |vertices|) && prtx.startIndex <= prtx.endIndex + 1
    modifies path
    ensures path.figures == old(path.figures) +
              FiguresOf(ClippedLines(PartPoints(vertices, prtx, args.minX, args.maxY, args.dx, args.dy),
                                     extent, args, clipRect, clip))
  {
    var points := PolygonLayerHelper.CreatePointListPoints(vertices, prtx, args);
    var multiLinestrings: seq<seq<PointF>>;
    if !Within(extent, args.geoExtent) {
      multiLinestrings := clip(points, Left(clipRect), Top(clipRect), Right(clipRect), Bottom(clipRect));
    } else {
      multiLinestrings := [points];
    }
    AddLinestrings(path, multiLinestrings);
  }

  /** The loop cleaning each clipped polyline and adding those with two pixels or more. */
  method AddLinestrings(path: GraphicsPath, multiLinestrings: seq<seq<PointF>>)
    modifies path
    ensures path.figures == old(path.figures) + FiguresOf(multiLinestrings)
  {
    var j := 0;
    while j < |multiLinestrings|
      invariant 0 <= j <= |multiLinestrings|
      invariant path.figures == old(path.figures) + FiguresOf(multiLinestrings[..j])
    {
      var intPoints := DuplicationPreventer.Clean(multiLinestrings[j]);
      assert multiLinestrings[..j + 1][..j] == multiLinestrings[..j];
      if |intPoints| >= 2 {
        path.AddFigure(intPoints);
      }
      j := j + 1;
    }
    assert multiLinestrings[..j] == multiLinestrings;
  }

  lemma {:induction false} FiguresOfWellFormed(lines: seq<seq<PointF>>)
    ensures WellFormedFigures(FiguresOf(lines))
    ensures |FiguresOf(lines)| <= |lines|
    decreases |lines|
  {
    if lines != [] {
      FiguresOfWellFormed(lines[..|lines| - 1]);
      DuplicationPreventer.CleanedProperties(lines[|lines| - 1]);
    }
  }

  lemma {:induction false} LineFiguresWellFormed(vertices: seq<Num>, parts: seq<PartRange>, extent: Extent, args: MapArgs,
                                                 clipRect: Rect, clip: LineClipper)
    requires forall i :: 0 <= i < |parts| ==> IndicesInBounds(parts[i], |vertices|)
    ensures WellFormedFigures(LineFigures(vertices, parts, extent, args, clipRect, clip))
    decreases |parts|
  {
    if parts != [] {
      var last := parts[|parts| - 1];
      LineFiguresWellFormed(vertices, parts[..|parts| - 1], extent, args, clipRect, clip);
      FiguresOfWellFormed(ClippedLines(PartPoints(vertices, last, args.minX, args.maxY, args.dx, args.dy), extent, args, clipRect, clip));
    }
  }

  /** A shape inside the view is never handed to the clipper. */
  lemma {:induction false} LineFiguresInsideView(vertices: seq<Num>, parts: seq<PartRange>, extent: Extent, args: MapArgs,
                                                 clipRect: Rect, clip: LineClipper)
    requires forall i :: 0 <= i < |parts| ==> IndicesInBounds(parts[i], |vertices|)
    requires Within(extent, args.geoExtent)
    ensures LineFigures(vertices, parts, extent, args, clipRect, clip) == CleanedPartFigures(vertices, parts, args.minX, args.maxY, args.dx, args.dy)
    decreases |parts|
  {
    if parts != [] {
      var last := parts[|parts| - 1];
      var pts := PartPoints(vertices, last, args.minX, args.maxY, args.dx, args.dy);
      LineFiguresInsideView(vertices, parts[..|parts| - 1], extent, args, clipRect, clip);
      var f := DuplicationPreventer.Cleaned(pts);
      assert ClippedLines(pts, extent, args, clipRect, clip) == [pts];
      assert [pts][..0] == [];
      assert FiguresOf([pts]) == (if |f| < 2 then [] else [f]);
    }
  }

  // ---------------------------------------------------------------------------
  // FastBuildLine
  // ---------------------------------------------------------------------------

  /**
   * The pixels FastBuildLine keeps. `atZero` holds while the current vertex has
   * index 0 of the layer's vertex array: only that vertex is kept regardless of
   * `previous`, which starts as (0, 0) in every part.
   */
  function FastFrom(ps: seq<PointF>, atZero: bool, previous: Point): seq<Point>
    decreases |ps|
  {
    if ps == [] then []
    else if HasNaN(ps[0]) then FastFrom(ps[1..], false, previous)
    else
      var pt := Rounded(ps[0]);
      if atZero || pt != previous then [pt] + FastFrom(ps[1..], false, pt)
      else FastFrom(ps[1..], false, previous)
  }

  /** The pixels FastBuildLine keeps for one part. */
  function FastPartFigure(vertices: seq<Num>, p: PartRange, minX: real, maxY: real, dx: real, dy: real): seq<Point>
    requires IndicesInBounds(p, |vertices|)
  {
    FastFrom(PartPoints(vertices, p, minX, maxY, dx, dy), p.startIndex == 0, EmptyPoint)
  }

  function FastFigures(vertices: seq<Num>, parts: seq<PartRange>, minX: real, maxY: real, dx: real, dy: real): seq<seq<Point>>
    requires forall i :: 0 <= i < |parts| ==> IndicesInBounds(parts[i], |vertices|)
  {
    if parts == [] then []
    else
      var f := FastPartFigure(vertices, parts[|parts| - 1], minX, maxY, dx, dy);
      FastFigures(vertices, parts[..|parts| - 1], minX, maxY, dx, dy) + (if |f| < 2 then [] else [f])
  }

  method FastBuildLine(graphPath: GraphicsPath, vertices: seq<Num>, shpx: ShapeRange,
                       minX: real, maxY: real, dx: real, dy: real)
    requires forall i :: 0 <= i < |shpx.parts| ==> IndicesInBounds(shpx.parts[i], |vertices|)
    modifies graphPath
    ensures graphPath.figures == old(graphPath.figures) + FastFigures(vertices, shpx.parts, minX, maxY, dx, dy)
  {
    var prt := 0;
    while prt < |shpx.parts|
      invariant 0 <= prt <= |shpx.parts|
      invariant graphPath.figures == old(graphPath.figures) + FastFigures(vertices, shpx.parts[..prt], minX, maxY, dx, dy)
    {
      AddFastPart(graphPath, vertices, shpx.parts, prt, minX, maxY, dx, dy, old(graphPath.figures));
      prt := prt + 1;
    }
    assert prt == |shpx.parts|;
    assert shpx.parts[..prt] == shpx.parts;
  }

  /** One pass of FastBuildLine's loop: the figure of part `prt`, when it has two pixels or more. */
  method AddFastPart(graphPath: GraphicsPath, vertices: seq<Num>, parts: seq<PartRange>, prt: nat,
                     minX: real, maxY: real, dx: real, dy: real, ghost before: seq<seq<Point>>)
    requires prt < |parts| && forall i :: 0 <= i < |parts| ==> IndicesInBounds(parts[i], |vertices|)
    requires graphPath.figures == before + FastFigures(vertices, parts[..prt], minX, maxY, dx, dy)
    modifies graphPath
    ensures graphPath.figures == before + FastFigures(vertices, parts[..prt + 1], minX, maxY, dx, dy)
  {
    var partPoints := FastPartPoints(vertices, parts[prt], minX, maxY, dx, dy);
    FastFiguresStep(vertices, parts, prt, minX, maxY, dx, dy);
    if |partPoints| < 2 {
      assert graphPath.figures == before + FastFigures(vertices, parts[..prt], minX, maxY, dx, dy) + [];
      return;
    }
    graphPath.AddFigure(partPoints);
  }

  /** The figures of one more part follow those of the parts before it. */
  lemma FastFiguresStep(vertices: seq<Num>, parts: seq<PartRange>, prt: nat, minX: real, maxY: real, dx: real, dy: real)
    requires prt < |parts| && forall i :: 0 <= i < |parts| ==> IndicesInBounds(parts[i], |vertices|)
    ensures var f := FastPartFigure(vertices, parts[prt], minX, maxY, dx, dy);
            FastFigures(vertices, parts[..prt + 1], minX, maxY, dx, dy) ==
            FastFigures(vertices, parts[..prt], minX, maxY, dx, dy) + (if |f| < 2 then [] else [f])
  {
    var done := parts[..prt + 1];
    assert done[..prt] == parts[..prt] && done[prt] == parts[prt];
  }

  /** The inner loop of FastBuildLine over one part's vertices. */
  method FastPartPoints(vertices: seq<Num>, prtx: PartRange, minX: real, maxY: real, dx: real, dy: real)
    returns (partPoints: seq<Point>)
    requires IndicesInBounds(prtx, |vertices|)
    ensures partPoints == FastPartFigure(vertices, prtx, minX, maxY, dx, dy)
  {
    var start := prtx.startIndex;
    var end := prtx.endIndex;
    ghost var ps := PartPoints(vertices, prtx, minX, maxY, dx, dy);
    ghost var target := FastFrom(ps, start == 0, EmptyPoint);
    partPoints := [];
    var previousPoint := EmptyPoint;
    var i := start;
    while i <= end
      invariant start <= end + 1 ==> start <= i <= end + 1
      invariant start > end + 1 ==> i == start
      invariant partPoints + FastFrom(ps[i - start..], i == 0, previousPoint) == target
    {
      partPoints, previousPoint := FastVertex(vertices, prtx, i, minX, maxY, dx, dy, partPoints, previousPoint, ps, target);
      i := i + 1;
    }
    assert ps[i - start..] == [] by {
      assert |ps| == PartLength(prtx);
    }
  }

  /** The body of FastPartPoints' loop for vertex `i`: a NaN vertex is skipped, a pixel repeating the previous one dropped. */
  method FastVertex(vertices: seq<Num>, prtx: PartRange, i: int, minX: real, maxY: real, dx: real, dy: real,
                    partPoints: seq<Point>, previousPoint: Point, ghost ps: seq<PointF>, ghost target: seq<Point>)
    returns (kept: seq<Point>, last: Point)
    requires IndicesInBounds(prtx, |vertices|) && prtx.startIndex <= i <= prtx.endIndex
    requires ps == PartPoints(vertices, prtx, minX, maxY, dx, dy)
    requires partPoints + FastFrom(ps[i - prtx.startIndex..], i == 0, previousPoint) == target
    ensures kept + FastFrom(ps[i + 1 - prtx.startIndex..], false, last) == target
  {
    var k := i - prtx.startIndex;
    var projected := ProjectVertex(vertices, i, minX, maxY, dx, dy);
    assert ps[k..][0] == projected;
    assert ps[k..][1..] == ps[k + 1..];
    FastFromStep(partPoints, ps[k..], i == 0, previousPoint, target);
    kept, last := partPoints, previousPoint;
    if vertices[i * 2].NaN? || vertices[i * 2 + 1].NaN? {
      return;
    }
    var pt := Rounded(projected);
    if i == 0 || pt != previousPoint {
      kept := partPoints + [pt];
      last := pt;
    }
  }

  /** One vertex of FastPartPoints' loop: skipped when NaN, else kept unless it repeats the previous pixel. */
  lemma FastFromStep(acc: seq<Point>, rest: seq<PointF>, atZero: bool, previous: Point, target: seq<Point>)
    requires rest != [] && acc + FastFrom(rest, atZero, previous) == target
    ensures HasNaN(rest[0]) ==> acc + FastFrom(rest[1..], false, previous) == target
    ensures !HasNaN(rest[0]) && (atZero || Rounded(rest[0]) != previous) ==>
              (acc + [Rounded(rest[0])]) + FastFrom(rest[1..], false, Rounded(rest[0])) == target
    ensures !HasNaN(rest[0]) && !(atZero || Rounded(rest[0]) != previous) ==>
              acc + FastFrom(rest[1..], false, previous) == target
  {
    if !HasNaN(rest[0]) && (atZero || Rounded(rest[0]) != previous) {
      AppendAssoc(acc, [Rounded(rest[0])], FastFrom(rest[1..], false, Rounded(rest[0])));
    }
  }

  lemma {:induction false} FastFromAfterStart(ps: seq<PointF>, p: Point)
    ensures FastFrom(ps, false, p) == DuplicationPreventer.CleanFrom(ps, Some(p))
    decreases |ps|
  {
    if ps != [] {
      if HasNaN(ps[0]) {
        FastFromAfterStart(ps[1..], p);
      } else if Rounded(ps[0]) != p {
        FastFromAfterStart(ps[1..], Rounded(ps[0]));
      } else {
        FastFromAfterStart(ps[1..], p);
      }
    }
  }

  /**
   * FastBuildLine keeps what DuplicationPreventer.Clean keeps, except that a
   * leading (0, 0) pixel is lost unless the part's first vertex is vertex 0 of
   * the layer and has no NaN.
   */
  lemma FastPartFigureIsCleaned(vertices: seq<Num>, p: PartRange, minX: real, maxY: real, dx: real, dy: real)
    requires IndicesInBounds(p, |vertices|)
    ensures var ps := PartPoints(vertices, p, minX, maxY, dx, dy);
            FastPartFigure(vertices, p, minX, maxY, dx, dy) ==
              if p.startIndex == 0 && ps != [] && !HasNaN(ps[0]) then DuplicationPreventer.Cleaned(ps)
              else DuplicationPreventer.DropLeading(EmptyPoint, DuplicationPreventer.Cleaned(ps))
  {
    var ps := PartPoints(vertices, p, minX, maxY, dx, dy);
    DuplicationPreventer.CleanFromPrevious(ps, EmptyPoint);
    if ps != [] {
      FastFromAfterStart(ps[1..], EmptyPoint);
      if !HasNaN(ps[0]) {
        FastFromAfterStart(ps[1..], Rounded(ps[0]));
      }
    }
  }

  /**
   * A part's kept pixels never repeat one in a row and are at most one per
   * vertex of the part.
   */
  lemma FastPartFigureBounded(vertices: seq<Num>, p: PartRange, minX: real, maxY: real, dx: real, dy: real)
    requires IndicesInBounds(p, |vertices|)
    ensures AdjacentDistinct(FastPartFigure(vertices, p, minX, maxY, dx, dy))
    ensures |FastPartFigure(vertices, p, minX, maxY, dx, dy)| <= PartLength(p)
  {
    var ps := PartPoints(vertices, p, minX, maxY, dx, dy);
    var c := DuplicationPreventer.Cleaned(ps);
    FastPartFigureIsCleaned(vertices, p, minX, maxY, dx, dy);
    DuplicationPreventer.CleanedProperties(ps);
    if c != [] && c[0] == EmptyPoint {
      forall i | 0 <= i && i + 1 < |c[1..]| ensures c[1..][i] != c[1..][i + 1] {
        assert c[1..][i] == c[i + 1] && c[1..][i + 1] == c[i + 2];
      }
    }
  }

  /** FastBuildLine adds at most one figure per part, each of two pixels or more with no pixel repeated in a row. */
  lemma {:induction false} FastFiguresWellFormed(vertices: seq<Num>, parts: seq<PartRange>, minX: real, maxY: real,
                                                 dx: real, dy: real)
    requires forall i :: 0 <= i < |parts| ==> IndicesInBounds(parts[i], |vertices|)
    ensures WellFormedFigures(FastFigures(vertices, parts, minX, maxY, dx, dy))
    ensures |FastFigures(vertices, parts, minX, maxY, dx, dy)| <= |parts|
    decreases |parts|
  {
    if parts != [] {
      FastFiguresWellFormed(vertices, parts[..|parts| - 1], minX, maxY, dx, dy);
      FastPartFigureBounded(vertices, parts[|parts| - 1], minX, maxY, dx, dy);
    }
  }

  // ---------------------------------------------------------------------------
  // ComputeClippingRectangle, DefineScale, CreateLineSymbolizer
  // ---------------------------------------------------------------------------

  /** Math.Ceiling. */
  function Ceiling(r: real): (c: int)
    ensures r <= c as real < r + 1.0
  {
    -((-r).Floor)
  }

  /** 2 * (int)Math.Ceiling(width): an even margin covering twice the line width. */
  function ClipMargin(width: real): (m: int)
    ensures 2.0 * width <= m as real < 2.0 * width + 2.0
    ensures m % 2 == 0
  {
    2 * Ceiling(width)
  }

  /** The image rectangle grown by the margin on every side. */
  function ComputeClippingRectangle(args: MapArgs, ls: LineSymbolizer): (r: Rect)
    ensures Left(r) == Left(args.imageRect) - ClipMargin(ls.width)
    ensures Top(r) == Top(args.imageRect) - ClipMargin(ls.width)
    ensures Right(r) == Right(args.imageRect) + ClipMargin(ls.width)
    ensures Bottom(r) == Bottom(args.imageRect) + ClipMargin(ls.width)
  {
    var maxLineWidth := ClipMargin(ls.width);
    Inflate(args.imageRect, maxLineWidth, maxLineWidth)
  }

  /** A line symbol never reaches outside the clipping rectangle's margin. */
  lemma ClippingRectangleCoversImage(args: MapArgs, ls: LineSymbolizer)
    requires ls.width >= 0.0
    ensures Covers(ComputeClippingRectangle(args, ls), args.imageRect)
  {
  }

  /**
   * Pixels per geographic unit for geographically scaled symbols, 1 otherwise.
   * A zero-width geographic extent would divide by zero.
   */
  function DefineScale(e: MapArgs, mode: ScaleMode): (scale: real)
    requires mode == Geographic ==> ExtentWidth(e.geoExtent) != 0.0
    ensures mode != Geographic ==> scale == 1.0
    ensures mode == Geographic ==> scale * ExtentWidth(e.geoExtent) == e.imageRect.w as real
  {
    if mode == Geographic then e.imageRect.w as real / ExtentWidth(e.geoExtent) else 1.0
  }

  /** selectState 1 asks for the selection symbolizer; any other value for the normal one. */
  function CreateLineSymbolizer(category: LineCategory, selectState: int): (ls: LineSymbolizer)
    ensures selectState == Selected ==> ls == category.selectionSymbolizer
    ensures selectState != Selected ==> ls == category.symbolizer
  {
    if selectState == Selected then category.selectionSymbolizer else category.symbolizer
  }
}
