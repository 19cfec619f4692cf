/**
 * MapLabelLayer: drawing the labels of a feature layer. Each feature's text
 * is placed once per part, once for its largest part, or once for its only
 * geometry; a placed rectangle is drawn only when it is non-empty and inside
 * the image, and, with collision prevention, only when it overlaps no label
 * already in the ExistingLabels list shared by every label layer, to which it
 * is then added. Features are labelled category by category, in priority
 * order, in chunks separated by BufferChanged notifications.
 *
 * The Graphics surface and ExistingLabels are the RenderLog and LabelList the
 * methods change; their specifications work on the pair as a Canvas.
 */
module MapLabelLayer {
  import opened Geometry
  import opened Sequences
  import opened Symbology
  import opened Rendering
  import opened LabelLayerHelper
  import opened Chunking

  /** One part of a feature's geometry (GetBasicGeometryN(n)), as the labeller sees it. */
  datatype Part =
    /** An ILineString, with its anchors and ILineString.Length. */
    | LinePart(anchors: LineAnchors, length: real)
    /** An IPolygon, with its anchors and IPolygon.Area. */
    | PolygonPart(anchors: LineAnchors, area: real)
    /** Any other geometry. */
    | OtherPart

  /**
   * IFeature, restricted to what the labeller reads: its attribute row, its
   * type, its parts, and the coordinate PlacePointLabel anchors a point label
   * on (GetBasicGeometryN(1).Coordinates[0]).
   */
  datatype LabelFeature = LabelFeature(fid: nat, row: DataRow, featureType: FeatureType, parts: seq<Part>, anchor: Coord)

  /** g.MeasureString with the symbolizer's cached font, and the value conversions GetLabelText uses. */
  datatype Typesetter = Typesetter(measure: (string, LabelSymbolizer) -> SizeF, env: TextEnv)

  /** The drawing surface's events together with the ExistingLabels list. */
  datatype Canvas = Canvas(events: seq<RenderEvent>, labels: seq<RectF>)

  /** The static ExistingLabels list, shared by every label layer. */
  class LabelList {
    var labels: seq<RectF>

    constructor ()
      ensures labels == []
    {
      labels := [];
    }

    method Add(r: RectF)
      modifies this
      ensures labels == old(labels) + [r]
    {
      labels := labels + [r];
    }
  }

  /** ClearAllExistingLabels: empties the shared list, for all layers. */
  method ClearAllExistingLabels(existing: LabelList)
    modifies existing
    ensures existing.labels == []
  {
    existing.labels := [];
  }

  // ---------------------------------------------------------------------------
  // Collision prevention
  // ---------------------------------------------------------------------------

  /** Collides: some drawn rectangle intersects the candidate. */
  function Collides(rectangle: RectF, drawnRectangles: seq<RectF>): (b: bool)
    ensures b <==> exists k :: 0 <= k < |drawnRectangles| && IntersectsF(rectangle, drawnRectangles[k])
    decreases |drawnRectangles|
  {
    if drawnRectangles == [] then false
    else
      assert forall k :: 0 < k < |drawnRectangles| ==> drawnRectangles[k] == drawnRectangles[1..][k - 1];
      IntersectsF(rectangle, drawnRectangles[0]) || Collides(rectangle, drawnRectangles[1..])
  }

  /** No two labels of the list overlap. */
  predicate Disjoint(labels: seq<RectF>)
  {
    forall i, j :: 0 <= i < j < |labels| ==> !IntersectsF(labels[i], labels[j])
  }

  /** What CollisionDraw does to the canvas. */
  function CollisionStep(c: Canvas, txt: string, symb: LabelSymbolizer, e: MapArgs, labelBounds: RectF): Canvas
  {
    if IsEmptyF(labelBounds) || !IntersectsF(ToRectF(e.imageRect), labelBounds) then c
    else if symb.preventCollisions then
      if !Collides(labelBounds, c.labels) then
        Canvas(c.events + [LabelDrawn(txt, labelBounds, symb)], c.labels + [labelBounds])
      else c
    else Canvas(c.events + [LabelDrawn(txt, labelBounds, symb)], c.labels)
  }

  /**
   * CollisionDraw(txt, g, symb, f, e, labelBounds, existingLabels): an empty
   * rectangle or one outside the image is dropped; otherwise the label is
   * drawn, and with collision prevention only when it collides with no
   * existing label, which it then joins.
   */
  method CollisionDraw(txt: string, symb: LabelSymbolizer, e: MapArgs, labelBounds: RectF, existing: LabelList,
                       g: RenderLog)
    modifies existing, g
    ensures Canvas(g.events, existing.labels) ==
            CollisionStep(Canvas(old(g.events), old(existing.labels)), txt, symb, e, labelBounds)
  {
    if IsEmptyF(labelBounds) || !IntersectsF(ToRectF(e.imageRect), labelBounds) {
      return;
    }
    if symb.preventCollisions {
      if !Collides(labelBounds, existing.labels) {
        g.Emit(LabelDrawn(txt, labelBounds, symb));
        existing.Add(labelBounds);
      }
    } else {
      g.Emit(LabelDrawn(txt, labelBounds, symb));
    }
  }

  /**
   * The collision rule outright: a label is drawn exactly when it is non-empty,
   * meets the image and, under collision prevention, intersects none of the
   * existing labels; it joins the list exactly when it is drawn under
   * collision prevention; nothing else changes.
   */
  lemma CollisionStepRule(c: Canvas, txt: string, symb: LabelSymbolizer, e: MapArgs, b: RectF)
    ensures var d := CollisionStep(c, txt, symb, e, b);
            var drawn := !IsEmptyF(b) && IntersectsF(ToRectF(e.imageRect), b) &&
                         (symb.preventCollisions ==> forall k :: 0 <= k < |c.labels| ==> !IntersectsF(b, c.labels[k]));
            && (drawn ==> d.events == c.events + [LabelDrawn(txt, b, symb)])
            && (!drawn ==> d.events == c.events)
            && (drawn && symb.preventCollisions ==> d.labels == c.labels + [b])
            && (!(drawn && symb.preventCollisions) ==> d.labels == c.labels)
  {
  }

  /**
   * The canvas only grows: old events stay and are followed by drawing calls
   * only, old labels stay, and a list without overlaps keeps none.
   */
  predicate Grows(c: Canvas, d: Canvas)
  {
    && |c.events| <= |d.events| && d.events[..|c.events|] == c.events && DrawOnly(d.events[|c.events|..])
    && |c.labels| <= |d.labels| && d.labels[..|c.labels|] == c.labels
    && (Disjoint(c.labels) ==> Disjoint(d.labels))
  }

  lemma GrowsRefl(c: Canvas)
    ensures Grows(c, c)
  {
    assert c.events[..|c.events|] == c.events;
    assert c.labels[..|c.labels|] == c.labels;
  }

  lemma GrowsTrans(a: Canvas, b: Canvas, c: Canvas)
    requires Grows(a, b) && Grows(b, c)
    ensures Grows(a, c)
  {
    assert c.events[..|a.events|] == c.events[..|b.events|][..|a.events|];
    assert c.labels[..|a.labels|] == c.labels[..|b.labels|][..|a.labels|];
    forall i | 0 <= i < |c.events[|a.events|..]|
      ensures !c.events[|a.events|..][i].BufferChanged? && !c.events[|a.events|..][i].DrawingFinished?
    {
      var j := |a.events| + i;
      if j < |b.events| {
        assert c.events[j] == c.events[..|b.events|][j] == b.events[j] == b.events[|a.events|..][i];
      } else {
        assert c.events[j] == c.events[|b.events|..][j - |b.events|];
      }
    }
  }

  /** The events a grown canvas adds are drawing calls: it notifies and swaps as often as before. */
  lemma GrowsCounts(c: Canvas, d: Canvas)
    requires Grows(c, d)
    ensures CountChanged(d.events) == CountChanged(c.events)
    ensures CountFinished(d.events) == CountFinished(c.events)
  {
    var added := d.events[|c.events|..];
    assert d.events == c.events + added;
    CountsOfConcat(c.events, added);
    DrawOnlyCountsNothing(added);
  }

  /** A collision step only grows the canvas: in particular it never lets two labels of the list overlap. */
  lemma CollisionStepGrows(c: Canvas, txt: string, symb: LabelSymbolizer, e: MapArgs, b: RectF)
    ensures Grows(c, CollisionStep(c, txt, symb, e, b))
  {
    var d := CollisionStep(c, txt, symb, e, b);
    if d == c {
      GrowsRefl(c);
    } else {
      assert d.events == c.events + [LabelDrawn(txt, b, symb)];
      assert d.events[..|c.events|] == c.events;
      assert d.events[|c.events|..] == [LabelDrawn(txt, b, symb)];
      assert d.labels[..|c.labels|] == c.labels;
      if d.labels != c.labels && Disjoint(c.labels) {
        assert d.labels == c.labels + [b] && !Collides(b, c.labels);
        forall i, j | 0 <= i < j < |d.labels| ensures !IntersectsF(d.labels[i], d.labels[j]) {
          if j == |c.labels| {
            IntersectsSymmetric(d.labels[i], b);
            assert d.labels[i] == c.labels[i];
          } else {
            assert d.labels[i] == c.labels[i] && d.labels[j] == c.labels[j];
          }
        }
      }
    }
  }

  /** CollisionDraw applied to each rectangle in turn. */
  function CollideAll(c: Canvas, txt: string, symb: LabelSymbolizer, e: MapArgs, bounds: seq<RectF>): Canvas
    decreases |bounds|
  {
    if bounds == [] then c
    else CollideAll(CollisionStep(c, txt, symb, e, bounds[0]), txt, symb, e, bounds[1..])
  }

  lemma CollideOne(c: Canvas, txt: string, symb: LabelSymbolizer, e: MapArgs, b: RectF)
    ensures CollideAll(c, txt, symb, e, [b]) == CollisionStep(c, txt, symb, e, b)
  {
    assert [b][1..] == [];
  }

  lemma {:induction false} CollideAllGrows(c: Canvas, txt: string, symb: LabelSymbolizer, e: MapArgs, bounds: seq<RectF>)
    ensures Grows(c, CollideAll(c, txt, symb, e, bounds))
    decreases |bounds|
  {
    if bounds == [] {
      GrowsRefl(c);
    } else {
      var d := CollisionStep(c, txt, symb, e, bounds[0]);
      CollisionStepGrows(c, txt, symb, e, bounds[0]);
      CollideAllGrows(d, txt, symb, e, bounds[1..]);
      GrowsTrans(c, d, CollideAll(d, txt, symb, e, bounds[1..]));
    }
  }

  /** m copies of one rectangle. */
  function Copies(b: RectF, m: nat): (r: seq<RectF>)
    ensures |r| == m && forall k :: 0 <= k < m ==> r[k] == b
  {
    seq(m, k requires 0 <= k < m => b)
  }

  lemma {:induction false} CollideAllFixed(d: Canvas, txt: string, symb: LabelSymbolizer, e: MapArgs, b: RectF, m: nat)
    requires CollisionStep(d, txt, symb, e, b) == d
    ensures CollideAll(d, txt, symb, e, Copies(b, m)) == d
    decreases m
  {
    if m > 0 {
      assert Copies(b, m)[0] == b && Copies(b, m)[1..] == Copies(b, m - 1);
      CollideAllFixed(d, txt, symb, e, b, m - 1);
    }
  }

  /**
   * With collision prevention, trying the same rectangle m >= 1 times (as
   * DrawPointFeature does once per part) draws it at most once: once drawn it
   * collides with itself.
   */
  lemma RepeatedLabelDrawnOnce(c: Canvas, txt: string, symb: LabelSymbolizer, e: MapArgs, b: RectF, m: nat)
    requires symb.preventCollisions && m >= 1
    ensures CollideAll(c, txt, symb, e, Copies(b, m)) == CollisionStep(c, txt, symb, e, b)
  {
    var d := CollisionStep(c, txt, symb, e, b);
    if d != c {
      assert d.labels == c.labels + [b] && !IsEmptyF(b);
      assert IntersectsF(b, d.labels[|c.labels|]);
    }
    assert CollisionStep(d, txt, symb, e, b) == d;
    assert Copies(b, m)[0] == b && Copies(b, m)[1..] == Copies(b, m - 1);
    CollideAllFixed(d, txt, symb, e, b, m - 1);
  }

  /** Draws each rectangle through CollisionDraw, in order. */
  method CollisionDrawAll(txt: string, symb: LabelSymbolizer, e: MapArgs, bounds: seq<RectF>, existing: LabelList,
                          g: RenderLog)
    modifies existing, g
    ensures Canvas(g.events, existing.labels) ==
            CollideAll(Canvas(old(g.events), old(existing.labels)), txt, symb, e, bounds)
  {
    var n := 0;
    while n < |bounds|
      invariant 0 <= n <= |bounds|
      invariant CollideAll(Canvas(old(g.events), old(existing.labels)), txt, symb, e, bounds) ==
                CollideAll(Canvas(g.events, existing.labels), txt, symb, e, bounds[n..])
    {
      assert bounds[n..][0] == bounds[n] && bounds[n..][1..] == bounds[n + 1..];
      CollisionDraw(txt, symb, e, bounds[n], existing, g);
      n := n + 1;
    }
  }

  // ---------------------------------------------------------------------------
  // Largest part
  // ---------------------------------------------------------------------------

  /** The best value seen and where: the state of the largest-part loops. */
  datatype Best = Best(value: real, index: nat)

  /** The largest-part loop over xs: starts at (0, 0) and moves only on a strictly larger value. */
  function Largest(xs: seq<real>): Best
    decreases |xs|
  {
    if xs == [] then Best(0.0, 0)
    else
      var b := Largest(xs[..|xs| - 1]);
      if b.value < xs[|xs| - 1] then Best(xs[|xs| - 1], |xs| - 1) else b
  }

  /**
   * The loop finds the first strictly maximal positive value, or stays at
   * (0, 0) when no value is positive.
   */
  lemma {:induction false} LargestSpec(xs: seq<real>)
    ensures Largest(xs).value >= 0.0
    ensures Largest(xs).value == 0.0 ==> Largest(xs).index == 0 && forall k :: 0 <= k < |xs| ==> xs[k] <= 0.0
    ensures Largest(xs).value > 0.0 ==>
              && Largest(xs).index < |xs| && xs[Largest(xs).index] == Largest(xs).value
              && (forall k :: 0 <= k < |xs| ==> xs[k] <= Largest(xs).value)
              && (forall k :: 0 <= k < Largest(xs).index ==> xs[k] < Largest(xs).value)
    decreases |xs|
  {
    if xs != [] {
      var n := |xs| - 1;
      var p := xs[..n];
      LargestSpec(p);
      assert forall k :: 0 <= k < n ==> xs[k] == p[k];
    }
  }

  /** ILineString.Length, or 0 for a part that is not a linestring. */
  function PartLength(p: Part): real
  {
    if p.LinePart? then p.length else 0.0
  }

  /** IPolygon.Area, or 0 for a part that is not a polygon (such parts are skipped). */
  function PartArea(p: Part): real
  {
    if p.PolygonPart? then p.area else 0.0
  }

  function LineLengths(parts: seq<Part>): (r: seq<real>)
    ensures |r| == |parts| && forall k :: 0 <= k < |parts| ==> r[k] == PartLength(parts[k])
  {
    seq(|parts|, k requires 0 <= k < |parts| => PartLength(parts[k]))
  }

  function PolygonAreas(parts: seq<Part>): (r: seq<real>)
    ensures |r| == |parts| && forall k :: 0 <= k < |parts| ==> r[k] == PartArea(parts[k])
  {
    seq(|parts|, k requires 0 <= k < |parts| => PartArea(parts[k]))
  }

  /**
   * The part LabelLargestPart labels on a line feature: the first part of
   * strictly maximal length, or part 0 when no length is positive.
   */
  function LongestIndex(parts: seq<Part>): (k: nat)
    ensures |parts| > 0 ==> k < |parts|
    ensures (forall j :: 0 <= j < |parts| ==> PartLength(parts[j]) <= 0.0) ==> k == 0
    ensures (exists j :: 0 <= j < |parts| && PartLength(parts[j]) > 0.0) ==>
              && k < |parts| && PartLength(parts[k]) > 0.0
              && (forall j :: 0 <= j < |parts| ==> PartLength(parts[j]) <= PartLength(parts[k]))
              && (forall j :: 0 <= j < k ==> PartLength(parts[j]) < PartLength(parts[k]))
  {
    LargestSpec(LineLengths(parts));
    Largest(LineLengths(parts)).index
  }

  /**
   * The polygon LabelLargestPart labels: the first polygon part of strictly
   * maximal area, or none (null) when no area is positive.
   */
  function LargestPolygon(parts: seq<Part>): (largest: Option<Part>)
    ensures largest.None? <==> forall j :: 0 <= j < |parts| ==> PartArea(parts[j]) <= 0.0
    ensures largest.Some? ==>
              && largest.value.PolygonPart?
              && exists k :: 0 <= k < |parts| && parts[k] == largest.value
                             && (forall j :: 0 <= j < |parts| ==> PartArea(parts[j]) <= largest.value.area)
                             && (forall j :: 0 <= j < k ==> PartArea(parts[j]) < largest.value.area)
  {
    var b := Largest(PolygonAreas(parts));
    LargestSpec(PolygonAreas(parts));
    if b.value > 0.0 then Some(parts[b.index]) else None
  }

  /** The longest-line loop of DrawLineFeature. */
  method LongestLinePart(parts: seq<Part>) returns (longestIndex: nat)
    ensures longestIndex == LongestIndex(parts)
  {
    var longestLine := 0.0;
    longestIndex := 0;
    var n := 0;
    while n < |parts|
      invariant 0 <= n <= |parts|
      invariant Largest(LineLengths(parts)[..n]) == Best(longestLine, longestIndex)
    {
      assert LineLengths(parts)[..n + 1][..n] == LineLengths(parts)[..n];
      var tempLength := 0.0;
      if parts[n].LinePart? {
        tempLength := parts[n].length;
      }
      if longestLine < tempLength {
        longestLine := tempLength;
        longestIndex := n;
      }
      n := n + 1;
    }
    assert LineLengths(parts)[..|parts|] == LineLengths(parts);
  }

  /** The largest-polygon loop of DrawPolygonFeature. */
  method LargestPolygonPart(parts: seq<Part>) returns (largest: Option<Part>)
    ensures largest == LargestPolygon(parts)
  {
    var largestArea := 0.0;
    largest := None;
    var n := 0;
    LargestSpec(PolygonAreas(parts)[..0]);
    while n < |parts|
      invariant 0 <= n <= |parts|
      invariant Largest(PolygonAreas(parts)[..n]).value == largestArea
      invariant largestArea >= 0.0
      invariant largestArea > 0.0 ==> Largest(PolygonAreas(parts)[..n]).index < n
      invariant largestArea > 0.0 ==> largest == Some(parts[Largest(PolygonAreas(parts)[..n]).index])
      invariant largestArea == 0.0 ==> largest.None?
    {
      assert PolygonAreas(parts)[..n + 1][..n] == PolygonAreas(parts)[..n];
      LargestSpec(PolygonAreas(parts)[..n + 1]);
      if !parts[n].PolygonPart? {
        n := n + 1;
        continue;
      }
      var tempArea := parts[n].area;
      if largestArea < tempArea {
        largestArea := tempArea;
        largest := Some(parts[n]);
      }
      n := n + 1;
    }
    assert PolygonAreas(parts)[..|parts|] == PolygonAreas(parts);
  }

  // ---------------------------------------------------------------------------
  // Placing and drawing one feature's labels
  // ---------------------------------------------------------------------------

  /** `FromBasicGeometry(geometry) as ILineString`: the anchors of a linestring part. */
  function AsLine(p: Part): Option<LineAnchors>
  {
    if p.LinePart? then Some(p.anchors) else None
  }

  /**
   * PlacePolygonLabel: the empty rectangle for a missing or non-polygon
   * geometry or an anchor outside the geographic extents, else the label
   * rectangle at the centroid, interior point or envelope centre.
   */
  function PlacePolygonLabel(geom: Option<Part>, e: MapArgs, labelSize: SizeF, symb: LabelSymbolizer): (r: RectF)
    ensures geom.None? || !geom.value.PolygonPart? ==> r == EmptyRectF
    ensures geom.Some? && geom.value.PolygonPart? ==>
              var c := Anchor(geom.value.anchors, symb.placement);
              && (ContainsCoord(e.geoExtent, c) ==> r == LabelRectAt(c, e, labelSize, symb))
              && (!ContainsCoord(e.geoExtent, c) ==> r == EmptyRectF)
  {
    match geom
    case None => EmptyRectF
    case Some(p) =>
      if !p.PolygonPart? then EmptyRectF
      else
        var c := match symb.placement
                 case Centroid => p.anchors.centroid
                 case InteriorPoint => p.anchors.interiorPoint
                 case EnvelopeCenter => p.anchors.envelopeCenter;
        if !ContainsCoord(e.geoExtent, c) then EmptyRectF else LabelRectAt(c, e, labelSize, symb)
  }

  function PolygonPartBounds(parts: seq<Part>, e: MapArgs, labelSize: SizeF, symb: LabelSymbolizer): (r: seq<RectF>)
    ensures |r| == |parts| && forall k :: 0 <= k < |parts| ==> r[k] == PlacePolygonLabel(Some(parts[k]), e, labelSize, symb)
  {
    seq(|parts|, k requires 0 <= k < |parts| => PlacePolygonLabel(Some(parts[k]), e, labelSize, symb))
  }

  function LinePartBounds(parts: seq<Part>, e: MapArgs, labelSize: SizeF, symb: LabelSymbolizer): (r: seq<RectF>)
    ensures |r| == |parts| && forall k :: 0 <= k < |parts| ==> r[k] == PlaceLineLabel(AsLine(parts[k]), labelSize, e, symb)
  {
    seq(|parts|, k requires 0 <= k < |parts| => PlaceLineLabel(AsLine(parts[k]), labelSize, e, symb))
  }

  /**
   * The rectangles a feature's label is tried at, in order, for the layer's
   * feature type: one per geometry when all parts are labelled (none for a
   * feature without geometries), otherwise exactly one.
   */
  function FeatureBounds(kind: FeatureType, e: MapArgs, f: LabelFeature, symb: LabelSymbolizer, labelSize: SizeF)
    : (r: seq<RectF>)
    requires PartsReadable(kind, f, symb)
    ensures Drawable(kind) && symb.partsLabeling == LabelAllParts ==> |r| == |f.parts|
    ensures Drawable(kind) && symb.partsLabeling != LabelAllParts ==> |r| == 1
    ensures !Drawable(kind) ==> r == []
  {
    match kind
    case PolygonType =>
      if |f.parts| == 1 then [PlacePolygonLabel(Some(f.parts[0]), e, labelSize, symb)]
      else if symb.partsLabeling == LabelAllParts then PolygonPartBounds(f.parts, e, labelSize, symb)
      else [PlacePolygonLabel(LargestPolygon(f.parts), e, labelSize, symb)]
    case LineType =>
      if |f.parts| == 1 then [PlaceLineLabel(AsLine(f.parts[0]), labelSize, e, symb)]
      else if symb.partsLabeling == LabelAllParts then LinePartBounds(f.parts, e, labelSize, symb)
      else [PlaceLineLabel(AsLine(f.parts[LongestIndex(f.parts)]), labelSize, e, symb)]
    case PointType =>
      if symb.partsLabeling == LabelAllParts then Copies(PlacePointLabel(f.anchor, e, labelSize, symb), |f.parts|)
      else [PlacePointLabel(f.anchor, e, labelSize, symb)]
    case _ => []
  }

  /**
   * The parts a label placement reads are there: only a line label that does
   * not label all parts reads a part (GetBasicGeometryN(longestIndex)) of a
   * feature that may have none.
   */
  predicate PartsReadable(kind: FeatureType, f: LabelFeature, symb: LabelSymbolizer)
  {
    |f.parts| > 0 || kind != LineType || symb.partsLabeling == LabelAllParts
  }

  /** Both symbolizers of the category can place a label on the feature. */
  predicate CategoryReads(kind: FeatureType, f: LabelFeature, category: LabelCategory)
  {
    PartsReadable(kind, f, category.symbolizer) && PartsReadable(kind, f, category.selectionSymbolizer)
  }

  /** The selected state uses the selection symbolizer. */
  function SymbolizerFor(category: LabelCategory, selected: bool): (symb: LabelSymbolizer)
    ensures selected ==> symb == category.selectionSymbolizer
    ensures !selected ==> symb == category.symbolizer
  {
    if selected then category.selectionSymbolizer else category.symbolizer
  }

  /** What drawing one feature's label does to the canvas: nothing for a null text. */
  function FeatureLabels(c: Canvas, ts: Typesetter, e: MapArgs, f: LabelFeature, category: LabelCategory, selected: bool,
                         kind: FeatureType): Canvas
    requires PartsReadable(kind, f, SymbolizerFor(category, selected))
  {
    var symb := SymbolizerFor(category, selected);
    var txt := LabelText(Some(f.row), category, symb, ts.env);
    if txt.None? then c
    else CollideAll(c, txt.value, symb, e, FeatureBounds(kind, e, f, symb, ts.measure(txt.value, symb)))
  }

  lemma FeatureLabelsGrows(c: Canvas, ts: Typesetter, e: MapArgs, f: LabelFeature, category: LabelCategory,
                           selected: bool, kind: FeatureType)
    requires PartsReadable(kind, f, SymbolizerFor(category, selected))
    ensures Grows(c, FeatureLabels(c, ts, e, f, category, selected, kind))
  {
    var symb := SymbolizerFor(category, selected);
    var txt := LabelText(Some(f.row), category, symb, ts.env);
    if txt.None? {
      GrowsRefl(c);
    } else {
      CollideAllGrows(c, txt.value, symb, e, FeatureBounds(kind, e, f, symb, ts.measure(txt.value, symb)));
    }
  }

  /** A feature whose category has no expression (a null text) gets no label. */
  lemma FeatureLabelsWithoutText(c: Canvas, ts: Typesetter, e: MapArgs, f: LabelFeature, category: LabelCategory,
                                 selected: bool, kind: FeatureType)
    requires PartsReadable(kind, f, SymbolizerFor(category, selected)) && category.expression.None?
    ensures FeatureLabels(c, ts, e, f, category, selected, kind) == c
  {
    LabelTextNullIffExpressionNull(Some(f.row), category, SymbolizerFor(category, selected), ts.env);
  }

  /** DrawPolygonFeature(e, g, f, category, selected, existingLabels). */
  method DrawPolygonFeature(ts: Typesetter, e: MapArgs, f: LabelFeature, category: LabelCategory, selected: bool,
                            existing: LabelList, g: RenderLog)
    modifies existing, g
    ensures Canvas(g.events, existing.labels) ==
            FeatureLabels(Canvas(old(g.events), old(existing.labels)), ts, e, f, category, selected, PolygonType)
  {
    var symb := if selected then category.selectionSymbolizer else category.symbolizer;
    var txt := GetLabelText(Some(f.row), category, symb, ts.env);
    if txt.None? {
      return;
    }
    var labelSize := ts.measure(txt.value, symb);
    if |f.parts| == 1 {
      var labelBounds := PlacePolygonLabel(Some(f.parts[0]), e, labelSize, symb);
      CollideOne(Canvas(g.events, existing.labels), txt.value, symb, e, labelBounds);
      CollisionDraw(txt.value, symb, e, labelBounds, existing, g);
    } else if symb.partsLabeling == LabelAllParts {
      CollisionDrawAll(txt.value, symb, e, PolygonPartBounds(f.parts, e, labelSize, symb), existing, g);
    } else {
      var largest := LargestPolygonPart(f.parts);
      var labelBounds := PlacePolygonLabel(largest, e, labelSize, symb);
      CollideOne(Canvas(g.events, existing.labels), txt.value, symb, e, labelBounds);
      CollisionDraw(txt.value, symb, e, labelBounds, existing, g);
    }
  }

  /** DrawLineFeature(e, g, f, category, selected, existingLabels). */
  method DrawLineFeature(ts: Typesetter, e: MapArgs, f: LabelFeature, category: LabelCategory, selected: bool,
                         existing: LabelList, g: RenderLog)
    requires PartsReadable(LineType, f, SymbolizerFor(category, selected))
    modifies existing, g
    ensures Canvas(g.events, existing.labels) ==
            FeatureLabels(Canvas(old(g.events), old(existing.labels)), ts, e, f, category, selected, LineType)
  {
    var symb := if selected then category.selectionSymbolizer else category.symbolizer;
    var txt := GetLabelText(Some(f.row), category, symb, ts.env);
    if txt.None? {
      return;
    }
    var labelSize := ts.measure(txt.value, symb);
    if |f.parts| == 1 {
      var labelBounds := PlaceLineLabel(AsLine(f.parts[0]), labelSize, e, symb);
      CollideOne(Canvas(g.events, existing.labels), txt.value, symb, e, labelBounds);
      CollisionDraw(txt.value, symb, e, labelBounds, existing, g);
    } else if symb.partsLabeling == LabelAllParts {
      CollisionDrawAll(txt.value, symb, e, LinePartBounds(f.parts, e, labelSize, symb), existing, g);
    } else {
      var longestIndex := LongestLinePart(f.parts);
      var labelBounds := PlaceLineLabel(AsLine(f.parts[longestIndex]), labelSize, e, symb);
      CollideOne(Canvas(g.events, existing.labels), txt.value, symb, e, labelBounds);
      CollisionDraw(txt.value, symb, e, labelBounds, existing, g);
    }
  }

  /** DrawPointFeature(e, g, f, category, selected, existingLabels): the same point label, once per part under LabelAllParts. */
  method DrawPointFeature(ts: Typesetter, e: MapArgs, f: LabelFeature, category: LabelCategory, selected: bool,
                          existing: LabelList, g: RenderLog)
    modifies existing, g
    ensures Canvas(g.events, existing.labels) ==
            FeatureLabels(Canvas(old(g.events), old(existing.labels)), ts, e, f, category, selected, PointType)
  {
    var symb := if selected then category.selectionSymbolizer else category.symbolizer;
    var txt := GetLabelText(Some(f.row), category, symb, ts.env);
    if txt.None? {
      return;
    }
    var labelSize := ts.measure(txt.value, symb);
    if symb.partsLabeling == LabelAllParts {
      CollisionDrawAll(txt.value, symb, e, Copies(PlacePointLabel(f.anchor, e, labelSize, symb), |f.parts|), existing, g);
    } else {
      var labelBounds := PlacePointLabel(f.anchor, e, labelSize, symb);
      CollideOne(Canvas(g.events, existing.labels), txt.value, symb, e, labelBounds);
      CollisionDraw(txt.value, symb, e, labelBounds, existing, g);
    }
  }

  /** The feature types the label layer draws. */
  predicate Drawable(kind: FeatureType)
  {
    kind == PolygonType || kind == LineType || kind == PointType
  }

  /** The drawFeature action the switch on the feature type selects. */
  method DrawLabelFeature(kind: FeatureType, ts: Typesetter, e: MapArgs, f: LabelFeature, category: LabelCategory,
                          selected: bool, existing: LabelList, g: RenderLog)
    requires Drawable(kind) && PartsReadable(kind, f, SymbolizerFor(category, selected))
    modifies existing, g
    ensures Canvas(g.events, existing.labels) ==
            FeatureLabels(Canvas(old(g.events), old(existing.labels)), ts, e, f, category, selected, kind)
  {
    match kind
    case PolygonType => DrawPolygonFeature(ts, e, f, category, selected, existing, g);
    case LineType => DrawLineFeature(ts, e, f, category, selected, existing, g);
    case PointType => DrawPointFeature(ts, e, f, category, selected, existing, g);
  }

  // ---------------------------------------------------------------------------
  // The layer: category passes and chunked drivers
  // ---------------------------------------------------------------------------

  /** string.IsNullOrEmpty on a category expression. */
  predicate IsNullOrEmpty(s: Option<string>)
  {
    s.None? || s.value == ""
  }

  /** The canvas together with the layer's drawn states, between two chunks. */
  datatype Stage<S> = Stage(canvas: Canvas, states: S)

  /** The comparison List<int>.Sort uses. */
  function IntKey(i: int): real
  {
    i as real
  }

  /** The canvas after one more chunk: its pass, then BufferChanged unless it was the last chunk. */
  function AfterChunk(c: Canvas, notify: bool, clipRectangles: seq<Rect>): Canvas
  {
    if notify then Canvas(c.events + [BufferChanged(clipRectangles)], c.labels) else c
  }

  /** Old labels stay and a list without overlaps keeps none. */
  predicate LabelsGrow(c: Canvas, d: Canvas)
  {
    |c.labels| <= |d.labels| && d.labels[..|c.labels|] == c.labels && (Disjoint(c.labels) ==> Disjoint(d.labels))
  }

  lemma LabelsGrowTrans(a: Canvas, b: Canvas, c: Canvas)
    requires LabelsGrow(a, b) && LabelsGrow(b, c)
    ensures LabelsGrow(a, c)
  {
    assert c.labels[..|a.labels|] == c.labels[..|b.labels|][..|a.labels|];
  }

  /** A chunk's pass followed by a notification: labels only grow, one more BufferChanged, no buffer swap. */
  lemma AfterChunkStep(c: Canvas, d: Canvas, notify: bool, clipRectangles: seq<Rect>)
    requires Grows(c, d)
    ensures LabelsGrow(c, AfterChunk(d, notify, clipRectangles))
    ensures CountChanged(AfterChunk(d, notify, clipRectangles).events) == CountChanged(c.events) + (if notify then 1 else 0)
    ensures CountFinished(AfterChunk(d, notify, clipRectangles).events) == CountFinished(c.events)
  {
    GrowsCounts(c, d);
    if notify {
      var tail := [BufferChanged(clipRectangles)];
      assert tail[1..] == [];
      CountsOfConcat(d.events, tail);
    }
  }

  /** A chunk pass that only draws: it adds DrawOnly events and keeps the label list free of overlaps. */
  ghost predicate PassOnlyDraws<S(!new), T(!new)>(pass: (Stage<S>, seq<T>) -> Stage<S>)
  {
    forall st: Stage<S>, part: seq<T> :: Grows(st.canvas, pass(st, part).canvas)
  }

  /**
   * The first k chunks of a chunked DrawFeatures: the pass over each slice
   * of chunkSize items, each followed by BufferChanged unless it is the last.
   */
  function StageRun<S, T>(st: Stage<S>, pass: (Stage<S>, seq<T>) -> Stage<S>, xs: seq<T>, chunkSize: nat,
                          clipRectangles: seq<Rect>, k: nat): Stage<S>
    requires chunkSize > 0 && k <= NumChunks(|xs|, chunkSize)
    decreases k
  {
    if k == 0 then st
    else
      var after := pass(StageRun(st, pass, xs, chunkSize, clipRectangles, k - 1), ChunkAt(xs, chunkSize, k - 1));
      Stage(AfterChunk(after.canvas, k - 1 < NumChunks(|xs|, chunkSize) - 1, clipRectangles), after.states)
  }

  /**
   * After k chunks of a run whose pass only draws, BufferChanged has been
   * raised once per chunk but the last, no buffer was swapped, and the label
   * list only grew without overlaps.
   */
  lemma {:induction false} StageRunCounts<S(!new), T(!new)>(st: Stage<S>, pass: (Stage<S>, seq<T>) -> Stage<S>, xs: seq<T>,
                                                chunkSize: nat, clipRectangles: seq<Rect>, k: nat)
    requires chunkSize > 0 && k <= NumChunks(|xs|, chunkSize) && PassOnlyDraws(pass)
    ensures var r := StageRun(st, pass, xs, chunkSize, clipRectangles, k);
            && CountChanged(r.canvas.events) ==
               CountChanged(st.canvas.events) + (if 0 < k == NumChunks(|xs|, chunkSize) then k - 1 else k)
            && CountFinished(r.canvas.events) == CountFinished(st.canvas.events)
            && LabelsGrow(st.canvas, r.canvas)
    decreases k
  {
    if k == 0 {
      assert st.canvas.labels[..|st.canvas.labels|] == st.canvas.labels;
    } else {
      var before := StageRun(st, pass, xs, chunkSize, clipRectangles, k - 1);
      StageRunCounts(st, pass, xs, chunkSize, clipRectangles, k - 1);
      var after := pass(before, ChunkAt(xs, chunkSize, k - 1));
      assert Grows(before.canvas, after.canvas);
      var notify := k - 1 < NumChunks(|xs|, chunkSize) - 1;
      AfterChunkStep(before.canvas, after.canvas, notify, clipRectangles);
      LabelsGrowTrans(st.canvas, before.canvas, AfterChunk(after.canvas, notify, clipRectangles));
    }
  }

  /**
   * A finished run raises BufferChanged numChunks - 1 times (none for an
   * empty list, which changes nothing), swaps no buffer, and leaves an
   * overlap-free label list overlap-free.
   */
  lemma StageRunNotifies<S(!new), T(!new)>(st: Stage<S>, pass: (Stage<S>, seq<T>) -> Stage<S>, xs: seq<T>, chunkSize: nat,
                               clipRectangles: seq<Rect>)
    requires chunkSize > 0 && PassOnlyDraws(pass)
    ensures var n := NumChunks(|xs|, chunkSize);
            var r := StageRun(st, pass, xs, chunkSize, clipRectangles, n);
            && (n > 0 ==> CountChanged(r.canvas.events) == CountChanged(st.canvas.events) + n - 1)
            && (n == 0 ==> r == st)
            && CountFinished(r.canvas.events) == CountFinished(st.canvas.events)
            && (Disjoint(st.canvas.labels) ==> Disjoint(r.canvas.labels))
  {
    StageRunCounts(st, pass, xs, chunkSize, clipRectangles, NumChunks(|xs|, chunkSize));
  }

  class MapLabelLayer {
    /** Symbology.Categories, in order. */
    const categories: seq<LabelCategory>
    /** FeatureSet.FeatureType, which decides the drawing of index-mode features. */
    const featureType: FeatureType
    /** FeatureSet.GetFeature(fid). */
    const featureSet: seq<LabelFeature>
    /** FeatureLayer.DrawnStates[i].Visible. */
    const layerVisible: seq<bool>
    const ts: Typesetter
    /** Feature.ComparisonField set to a field: the key the feature comparer sorts on. */
    const priorityKey: string -> LabelFeature -> real
    /** The DrawnStates CreateLabels builds. */
    const createdLabels: Option<map<LabelFeature, LabelState>>
    /** The FastDrawnStates CreateIndexedLabels builds. */
    const createdIndexedLabels: Option<seq<Option<LabelState>>>
    var drawnStates: Option<map<LabelFeature, LabelState>>
    var fastDrawnStates: Option<seq<Option<LabelState>>>
    /** Configure: the number of labels drawn before the screen is refreshed. */
    const chunkSize: nat := 10000

    constructor (categories: seq<LabelCategory>, featureType: FeatureType, featureSet: seq<LabelFeature>,
                 layerVisible: seq<bool>, ts: Typesetter, priorityKey: string -> LabelFeature -> real,
                 createdLabels: Option<map<LabelFeature, LabelState>>,
                 createdIndexedLabels: Option<seq<Option<LabelState>>>)
      ensures this.categories == categories && this.featureType == featureType && this.featureSet == featureSet
      ensures this.layerVisible == layerVisible && this.ts == ts && this.priorityKey == priorityKey
      ensures this.createdLabels == createdLabels && this.createdIndexedLabels == createdIndexedLabels
      ensures drawnStates.None? && fastDrawnStates.None?
    {
      this.categories := categories;
      this.featureType := featureType;
      this.featureSet := featureSet;
      this.layerVisible := layerVisible;
      this.ts := ts;
      this.priorityKey := priorityKey;
      this.createdLabels := createdLabels;
      this.createdIndexedLabels := createdIndexedLabels;
      drawnStates := None;
      fastDrawnStates := None;
    }

    /** No category has an expression: a pass draws nothing. */
    predicate NoExpressions()
    {
      forall k :: 0 <= k < |categories| ==> IsNullOrEmpty(categories[k].expression)
    }

    // ----- Feature mode -----

    /** Every category of the symbology can place its labels on the feature, on a layer of this kind. */
    predicate CategoriesRead(kind: FeatureType, f: LabelFeature)
    {
      forall category :: category in categories ==> CategoryReads(kind, f, category)
    }

    /** Every feature of the list can be labelled as the kind of any of them (the pass takes the first one's). */
    predicate ReadAs(kind: FeatureType, features: seq<LabelFeature>)
    {
      forall f :: f in features ==> CategoriesRead(kind, f)
    }

    /**
     * Every feature has a visibility entry for each position a category list
     * can reach, and its labels can be placed whichever feature comes first.
     */
    predicate FeaturesFit(features: seq<LabelFeature>)
    {
      |features| <= |layerVisible| && forall h :: h in features ==> ReadAs(h.featureType, features)
    }

    /** The drawn states after CreateLabels when the first feature has none. */
    function RefreshedStates(states: Option<map<LabelFeature, LabelState>>, features: seq<LabelFeature>)
      : Option<map<LabelFeature, LabelState>>
      requires features != []
    {
      if states.None? || features[0] !in states.value then createdLabels else states
    }

    /** The drawn states a feature-mode pass leaves behind: refreshed unless the pass stops at the expression test. */
    function NextStates(states: Option<map<LabelFeature, LabelState>>, features: seq<LabelFeature>)
      : Option<map<LabelFeature, LabelState>>
      requires !NoExpressions() ==> features != []
    {
      if NoExpressions() then states else RefreshedStates(states, features)
    }

    /** The features whose drawn state has this category, in input order. */
    function CategoryMembers(category: LabelCategory, features: seq<LabelFeature>, states: map<LabelFeature, LabelState>)
      : (r: seq<LabelFeature>)
      ensures |r| <= |features|
      ensures forall f :: f in r ==> f in features && f in states && states[f].category == Some(category)
      decreases |features|
    {
      if features == [] then []
      else
        var rest := CategoryMembers(category, features[1..], states);
        if features[0] in states && states[features[0]].category == Some(category) then [features[0]] + rest else rest
    }

    /**
     * A category's list is the subsequence of the input of exactly those
     * features that have a drawn state of this category.
     */
    lemma {:induction false} CategoryMembersSpec(category: LabelCategory, features: seq<LabelFeature>,
                                                 states: map<LabelFeature, LabelState>)
      ensures IsSubsequence(CategoryMembers(category, features, states), features)
      ensures forall f :: f in features && f in states && states[f].category == Some(category) ==>
                            f in CategoryMembers(category, features, states)
      decreases |features|
    {
      if features != [] {
        CategoryMembersSpec(category, features[1..], states);
        var rest := CategoryMembers(category, features[1..], states);
        assert features == [features[0]] + features[1..];
        if features[0] in states && states[features[0]].category == Some(category) {
          SubsequenceCons(features[0], rest, features[1..]);
        } else {
          SubsequenceSkip(features[0], rest, features[1..]);
        }
      }
    }

    /** The priority order of a category's features. */
    function PriorityOrder(symb: LabelSymbolizer, members: seq<LabelFeature>): (r: seq<LabelFeature>)
      ensures |r| == |members| && multiset(r) == multiset(members)
    {
      if symb.priorityField == "FID" then members
      else
        var sorted := SortBy(members, priorityKey(symb.priorityField));
        ReverseMultiset(sorted);
        if symb.preventCollisions then (if !symb.prioritizeLowValues then Reverse(sorted) else sorted)
        else if symb.prioritizeLowValues then Reverse(sorted) else sorted
    }

    /**
     * "FID" keeps the input order; any other field sorts by priority, and the
     * order is reversed exactly when PreventCollisions differs from
     * PrioritizeLowValues: high values first when preventing collisions,
     * last otherwise, unless low values are prioritised.
     */
    lemma PriorityOrderRule(symb: LabelSymbolizer, members: seq<LabelFeature>)
      ensures symb.priorityField == "FID" ==> PriorityOrder(symb, members) == members
      ensures symb.priorityField != "FID" ==>
                PriorityOrder(symb, members) ==
                (if symb.preventCollisions != symb.prioritizeLowValues
                 then Reverse(SortBy(members, priorityKey(symb.priorityField)))
                 else SortBy(members, priorityKey(symb.priorityField)))
      ensures symb.priorityField != "FID" && symb.preventCollisions != symb.prioritizeLowValues ==>
                SortedDescendingBy(PriorityOrder(symb, members), priorityKey(symb.priorityField))
      ensures symb.priorityField != "FID" && symb.preventCollisions == symb.prioritizeLowValues ==>
                SortedBy(PriorityOrder(symb, members), priorityKey(symb.priorityField))
    {
      if symb.priorityField != "FID" {
        var key := priorityKey(symb.priorityField);
        SortBySorted(members, key);
        ReverseSorted(SortBy(members, key), key);
      }
    }

    /** The visible features of a category's list, from position i on (visibility is read at the position, i). */
    function VisibleLabels(c: Canvas, e: MapArgs, list: seq<LabelFeature>, i: nat, category: LabelCategory,
                           states: map<LabelFeature, LabelState>, kind: FeatureType): Canvas
      requires |list| <= |layerVisible|
      requires forall f :: f in list ==> f in states && CategoryReads(kind, f, category)
      decreases |list| - i
    {
      if i >= |list| then c
      else
        assert list[i] in list && CategoryReads(kind, list[i], category);
        var next := if layerVisible[i] then FeatureLabels(c, ts, e, list[i], category, states[list[i]].selected, kind) else c;
        VisibleLabels(next, e, list, i + 1, category, states, kind)
    }

    lemma {:induction false} VisibleLabelsGrows(c: Canvas, e: MapArgs, list: seq<LabelFeature>, i: nat,
                                                category: LabelCategory, states: map<LabelFeature, LabelState>,
                                                kind: FeatureType)
      requires |list| <= |layerVisible|
      requires forall f :: f in list ==> f in states && CategoryReads(kind, f, category)
      ensures Grows(c, VisibleLabels(c, e, list, i, category, states, kind))
      decreases |list| - i
    {
      if i >= |list| {
        GrowsRefl(c);
      } else {
        assert list[i] in list;
        var next := if layerVisible[i] then FeatureLabels(c, ts, e, list[i], category, states[list[i]].selected, kind) else c;
        if layerVisible[i] {
          FeatureLabelsGrows(c, ts, e, list[i], category, states[list[i]].selected, kind);
        } else {
          GrowsRefl(c);
        }
        VisibleLabelsGrows(next, e, list, i + 1, category, states, kind);
        GrowsTrans(c, next, VisibleLabels(next, e, list, i + 1, category, states, kind));
      }
    }

    /** The category's features in priority order. */
    function CategoryOrder(category: LabelCategory, features: seq<LabelFeature>, states: map<LabelFeature, LabelState>)
      : (r: seq<LabelFeature>)
      requires FeaturesFit(features)
      ensures |r| <= |layerVisible|
      ensures forall f :: f in r ==> f in states && f in features
    {
      var members := CategoryMembers(category, features, states);
      var r := PriorityOrder(category.symbolizer, members);
      assert forall f :: f in r ==> f in multiset(members);
      r
    }

    /** One category of a feature-mode pass. */
    function CategoryLabels(c: Canvas, e: MapArgs, category: LabelCategory, features: seq<LabelFeature>,
                            states: map<LabelFeature, LabelState>, kind: FeatureType): Canvas
      requires FeaturesFit(features) && ReadAs(kind, features) && category in categories
    {
      VisibleLabels(c, e, CategoryOrder(category, features, states), 0, category, states, kind)
    }

    /** The categories of a feature-mode pass from the k-th on, in symbology order. */
    function CategoriesLabels(c: Canvas, e: MapArgs, k: nat, features: seq<LabelFeature>,
                              states: map<LabelFeature, LabelState>, kind: FeatureType): Canvas
      requires FeaturesFit(features) && ReadAs(kind, features)
      decreases |categories| - k
    {
      if k >= |categories| then c
      else CategoriesLabels(CategoryLabels(c, e, categories[k], features, states, kind), e, k + 1, features, states, kind)
    }

    lemma {:induction false} CategoriesLabelsGrows(c: Canvas, e: MapArgs, k: nat, features: seq<LabelFeature>,
                                                   states: map<LabelFeature, LabelState>, kind: FeatureType)
      requires FeaturesFit(features) && ReadAs(kind, features)
      ensures Grows(c, CategoriesLabels(c, e, k, features, states, kind))
      decreases |categories| - k
    {
      if k >= |categories| {
        GrowsRefl(c);
      } else {
        var d := CategoryLabels(c, e, categories[k], features, states, kind);
        VisibleLabelsGrows(c, e, CategoryOrder(categories[k], features, states), 0, categories[k], states, kind);
        CategoriesLabelsGrows(d, e, k + 1, features, states, kind);
        GrowsTrans(c, d, CategoriesLabels(d, e, k + 1, features, states, kind));
      }
    }

    /**
     * What the private feature-mode DrawFeatures does to the canvas: nothing
     * when no category has an expression, no drawn states can be had, or the
     * first feature's type is not drawn; otherwise every category in turn.
     */
    function FeaturePassCanvas(c: Canvas, e: MapArgs, states0: Option<map<LabelFeature, LabelState>>,
                               features: seq<LabelFeature>): Canvas
      requires (!NoExpressions() ==> features != []) && FeaturesFit(features)
    {
      if NoExpressions() then c
      else
        var states := RefreshedStates(states0, features);
        assert features[0] in features;
        if states.None? || !Drawable(features[0].featureType) then c
        else CategoriesLabels(c, e, 0, features, states.value, features[0].featureType)
    }

    /** A feature-mode pass only draws, and never lets two labels of the list overlap. */
    lemma FeaturePassGrows(c: Canvas, e: MapArgs, states0: Option<map<LabelFeature, LabelState>>,
                           features: seq<LabelFeature>)
      requires (!NoExpressions() ==> features != []) && FeaturesFit(features)
      ensures Grows(c, FeaturePassCanvas(c, e, states0, features))
    {
      if NoExpressions() {
        GrowsRefl(c);
        return;
      }
      var states := RefreshedStates(states0, features);
      assert features[0] in features;
      if states.None? || !Drawable(features[0].featureType) {
        GrowsRefl(c);
      } else {
        CategoriesLabelsGrows(c, e, 0, features, states.value, features[0].featureType);
      }
    }

    /** The category filter loop of feature mode. */
    method SelectCategoryFeatures(category: LabelCategory, features: seq<LabelFeature>,
                                  states: map<LabelFeature, LabelState>)
      returns (catFeatures: seq<LabelFeature>)
      ensures catFeatures == CategoryMembers(category, features, states)
    {
      catFeatures := [];
      var i := 0;
      while i < |features|
        invariant 0 <= i <= |features|
        invariant catFeatures + CategoryMembers(category, features[i..], states) == CategoryMembers(category, features, states)
      {
        assert features[i..][0] == features[i] && features[i..][1..] == features[i + 1..];
        var rest := CategoryMembers(category, features[i + 1..], states);
        if features[i] in states && states[features[i]].category == Some(category) {
          AppendAssoc(catFeatures, [features[i]], rest);
          catFeatures := catFeatures + [features[i]];
        }
        i := i + 1;
      }
      assert features[|features|..] == [];
    }

    /** One category of the private feature-mode DrawFeatures: filter, priority order, then each visible feature. */
    method DrawCategoryFeatures(e: MapArgs, category: LabelCategory, features: seq<LabelFeature>,
                                states: map<LabelFeature, LabelState>, kind: FeatureType, existing: LabelList,
                                g: RenderLog)
      requires FeaturesFit(features) && ReadAs(kind, features) && category in categories && Drawable(kind)
      modifies existing, g
      ensures Canvas(g.events, existing.labels) ==
              CategoryLabels(Canvas(old(g.events), old(existing.labels)), e, category, features, states, kind)
    {
      var catFeatures := OrderCategoryFeatures(category, features, states);
      ghost var target := CategoryLabels(Canvas(g.events, existing.labels), e, category, features, states, kind);
      var i := 0;
      while i < |catFeatures|
        invariant 0 <= i <= |catFeatures|
        invariant target == VisibleLabels(Canvas(g.events, existing.labels), e, catFeatures, i, category, states, kind)
      {
        if !layerVisible[i] {
          i := i + 1;
          continue;
        }
        assert catFeatures[i] in catFeatures;
        DrawLabelFeature(kind, ts, e, catFeatures[i], category, states[catFeatures[i]].selected, existing, g);
        i := i + 1;
      }
    }

    /** The filter and the priority sort of one feature-mode category. */
    method OrderCategoryFeatures(category: LabelCategory, features: seq<LabelFeature>,
                                 states: map<LabelFeature, LabelState>)
      returns (catFeatures: seq<LabelFeature>)
      requires FeaturesFit(features)
      ensures catFeatures == CategoryOrder(category, features, states)
    {
      catFeatures := SelectCategoryFeatures(category, features, states);
      if category.symbolizer.priorityField != "FID" {
        catFeatures := SortBy(catFeatures, priorityKey(category.symbolizer.priorityField));
        if category.symbolizer.preventCollisions {
          if !category.symbolizer.prioritizeLowValues {
            catFeatures := Reverse(catFeatures);
          }
        } else {
          if category.symbolizer.prioritizeLowValues {
            catFeatures := Reverse(catFeatures);
          }
        }
      }
    }

    /** The private DrawFeatures(MapArgs, IEnumerable<IFeature>). */
    method DrawFeaturePass(e: MapArgs, features: seq<LabelFeature>, existing: LabelList, g: RenderLog)
      requires (!NoExpressions() ==> features != []) && FeaturesFit(features)
      modifies this, existing, g
      ensures drawnStates == NextStates(old(drawnStates), features) && fastDrawnStates == old(fastDrawnStates)
      ensures Canvas(g.events, existing.labels) ==
              FeaturePassCanvas(Canvas(old(g.events), old(existing.labels)), e, old(drawnStates), features)
    {
      if NoExpressions() {
        return;
      }
      if drawnStates.None? || features[0] !in drawnStates.value {
        drawnStates := createdLabels;
      }
      var drawStates := drawnStates;
      if drawStates.None? {
        return;
      }
      var kind := features[0].featureType;
      assert features[0] in features;
      if !Drawable(kind) {
        return;
      }
      DrawFeatureCategories(e, features, drawStates.value, kind, existing, g);
    }

    /** The loop over the symbology's categories of a feature-mode pass. */
    method DrawFeatureCategories(e: MapArgs, features: seq<LabelFeature>, states: map<LabelFeature, LabelState>,
                                 kind: FeatureType, existing: LabelList, g: RenderLog)
      requires FeaturesFit(features) && ReadAs(kind, features) && Drawable(kind)
      modifies existing, g
      ensures Canvas(g.events, existing.labels) ==
              CategoriesLabels(Canvas(old(g.events), old(existing.labels)), e, 0, features, states, kind)
    {
      var k := 0;
      while k < |categories|
        invariant 0 <= k <= |categories|
        invariant CategoriesLabels(Canvas(old(g.events), old(existing.labels)), e, 0, features, states, kind) ==
                  CategoriesLabels(Canvas(g.events, existing.labels), e, k, features, states, kind)
      {
        DrawCategoryFeatures(e, categories[k], features, states, kind, existing, g);
        k := k + 1;
      }
    }

    lemma ChunkFits(features: seq<LabelFeature>, k: nat)
      requires FeaturesFit(features) && k < NumChunks(|features|, chunkSize)
      ensures FeaturesFit(ChunkAt(features, chunkSize, k))
    {
      var part := ChunkAt(features, chunkSize, k);
      ChunkAtMembers(features, chunkSize, k);
      forall h | h in part ensures ReadAs(h.featureType, part) {
        assert ReadAs(h.featureType, features);
      }
    }

    /** The feature-mode pass as the pass of a chunked run (the slices a run hands it are nonempty and fit). */
    function FeatureChunkPass(e: MapArgs): (Stage<Option<map<LabelFeature, LabelState>>>, seq<LabelFeature>) -> Stage<Option<map<LabelFeature, LabelState>>>
    {
      (st: Stage<Option<map<LabelFeature, LabelState>>>, part: seq<LabelFeature>) =>
        if part != [] && FeaturesFit(part)
        then Stage(FeaturePassCanvas(st.canvas, e, st.states, part), NextStates(st.states, part))
        else st
    }

    lemma FeatureChunkPassOnlyDraws(e: MapArgs)
      ensures PassOnlyDraws(FeatureChunkPass(e))
    {
      forall st: Stage<Option<map<LabelFeature, LabelState>>>, part: seq<LabelFeature> ensures Grows(st.canvas, FeatureChunkPass(e)(st, part).canvas) {
        if part != [] && FeaturesFit(part) {
          FeaturePassGrows(st.canvas, e, st.states, part);
        } else {
          GrowsRefl(st.canvas);
        }
      }
    }

    /**
     * A chunk pass that does what the feature-mode pass does on the slices a
     * run hands it; it is only unfolded where a pass is drawn.
     */
    ghost predicate IsFeaturePass(pass: (Stage<Option<map<LabelFeature, LabelState>>>, seq<LabelFeature>) -> Stage<Option<map<LabelFeature, LabelState>>>, e: MapArgs)
    {
      forall st: Stage<Option<map<LabelFeature, LabelState>>>, part: seq<LabelFeature> {:trigger FeaturePassCanvas(st.canvas, e, st.states, part)} ::
        part != [] && FeaturesFit(part) ==>
          pass(st, part) == Stage(FeaturePassCanvas(st.canvas, e, st.states, part), NextStates(st.states, part))
    }

    lemma FeaturePassApplies(pass: (Stage<Option<map<LabelFeature, LabelState>>>, seq<LabelFeature>) -> Stage<Option<map<LabelFeature, LabelState>>>, e: MapArgs, st: Stage<Option<map<LabelFeature, LabelState>>>,
                             part: seq<LabelFeature>)
      requires IsFeaturePass(pass, e) && part != [] && FeaturesFit(part)
      ensures pass(st, part) == Stage(FeaturePassCanvas(st.canvas, e, st.states, part), NextStates(st.states, part))
    {
    }

    lemma FeatureChunkPassIs(e: MapArgs)
      ensures IsFeaturePass(FeatureChunkPass(e), e)
    {
    }

    /** The first k chunks of a chunked feature-mode run. */
    function FeatureRun(st: Stage<Option<map<LabelFeature, LabelState>>>, e: MapArgs, features: seq<LabelFeature>, clipRectangles: seq<Rect>, k: nat): Stage<Option<map<LabelFeature, LabelState>>>
      requires k <= NumChunks(|features|, chunkSize)
    {
      StageRun(st, FeatureChunkPass(e), features, chunkSize, clipRectangles, k)
    }

    /**
     * A finished chunked feature-mode run raises BufferChanged numChunks - 1
     * times (never after the last chunk, never for an empty list), swaps no
     * buffer, and leaves an overlap-free label list overlap-free.
     */
    lemma FeatureRunNotifies(st: Stage<Option<map<LabelFeature, LabelState>>>, e: MapArgs, features: seq<LabelFeature>, clipRectangles: seq<Rect>)
      ensures var n := NumChunks(|features|, chunkSize);
              var r := FeatureRun(st, e, features, clipRectangles, n);
              && (n > 0 ==> CountChanged(r.canvas.events) == CountChanged(st.canvas.events) + n - 1)
              && (n == 0 ==> r == st)
              && CountFinished(r.canvas.events) == CountFinished(st.canvas.events)
              && (Disjoint(st.canvas.labels) ==> Disjoint(r.canvas.labels))
    {
      FeatureChunkPassOnlyDraws(e);
      StageRunNotifies(st, FeatureChunkPass(e), features, chunkSize, clipRectangles);
    }

    /** One chunk of the feature-mode driver: the pass over that slice, then OnBufferChanged unless it is the last. */
    method DrawFeatureChunk(e: MapArgs, features: seq<LabelFeature>, chunk: nat, clipRectangles: seq<Rect>,
                            ghost st: Stage<Option<map<LabelFeature, LabelState>>>, ghost pass: (Stage<Option<map<LabelFeature, LabelState>>>, seq<LabelFeature>) -> Stage<Option<map<LabelFeature, LabelState>>>,
                            existing: LabelList, g: RenderLog)
      requires FeaturesFit(features) && chunk < NumChunks(|features|, chunkSize) && IsFeaturePass(pass, e)
      requires Stage(Canvas(g.events, existing.labels), drawnStates) ==
               StageRun(st, pass, features, chunkSize, clipRectangles, chunk)
      modifies this, existing, g
      ensures fastDrawnStates == old(fastDrawnStates)
      ensures Stage(Canvas(g.events, existing.labels), drawnStates) ==
              StageRun(st, pass, features, chunkSize, clipRectangles, chunk + 1)
    {
      ghost var before := Stage(Canvas(g.events, existing.labels), drawnStates);
      var numChunks := NumChunks(|features|, chunkSize);
      var part := ChunkAt(features, chunkSize, chunk);
      ChunkFits(features, chunk);
      DrawFeaturePass(e, part, existing, g);
      FeaturePassApplies(pass, e, before, part);
      if numChunks > 0 && chunk < numChunks - 1 {
        g.Emit(BufferChanged(clipRectangles));
      }
    }

    /**
     * DrawFeatures(args, features, clipRectangles, useChunks): one pass
     * without chunks; otherwise one pass per slice of ChunkSize features, with
     * BufferChanged between each two slices.
     */
    method DrawFeaturesChunked(e: MapArgs, features: seq<LabelFeature>, clipRectangles: seq<Rect>, useChunks: bool,
                               existing: LabelList, g: RenderLog)
      requires FeaturesFit(features) && (!useChunks && !NoExpressions() ==> features != [])
      modifies this, existing, g
      ensures fastDrawnStates == old(fastDrawnStates)
      ensures !useChunks ==>
                && drawnStates == NextStates(old(drawnStates), features)
                && Canvas(g.events, existing.labels) ==
                   FeaturePassCanvas(Canvas(old(g.events), old(existing.labels)), e, old(drawnStates), features)
      ensures useChunks ==>
                Stage(Canvas(g.events, existing.labels), drawnStates) ==
                FeatureRun(Stage(Canvas(old(g.events), old(existing.labels)), old(drawnStates)), e, features,
                           clipRectangles, NumChunks(|features|, chunkSize))
    {
      if !useChunks {
        DrawFeaturePass(e, features, existing, g);
      } else {
        FeatureChunkPassIs(e);
        DrawFeatureChunks(e, features, clipRectangles, FeatureChunkPass(e), existing, g);
      }
    }

    /** The chunk loop of the feature-mode driver. */
    method DrawFeatureChunks(e: MapArgs, features: seq<LabelFeature>, clipRectangles: seq<Rect>,
                             ghost pass: (Stage<Option<map<LabelFeature, LabelState>>>, seq<LabelFeature>) -> Stage<Option<map<LabelFeature, LabelState>>>,
                             existing: LabelList, g: RenderLog)
      requires FeaturesFit(features) && IsFeaturePass(pass, e)
      modifies this, existing, g
      ensures fastDrawnStates == old(fastDrawnStates)
      ensures Stage(Canvas(g.events, existing.labels), drawnStates) ==
              StageRun(Stage(Canvas(old(g.events), old(existing.labels)), old(drawnStates)), pass, features, chunkSize,
                       clipRectangles, NumChunks(|features|, chunkSize))
    {
      ghost var st := Stage(Canvas(g.events, existing.labels), drawnStates);
      var count := |features|;
      var numChunks := NumChunks(count, chunkSize);
      var chunk := 0;
      while chunk < numChunks
        invariant 0 <= chunk <= numChunks
        invariant fastDrawnStates == old(fastDrawnStates)
        invariant Stage(Canvas(g.events, existing.labels), drawnStates) ==
                  StageRun(st, pass, features, chunkSize, clipRectangles, chunk)
      {
        DrawFeatureChunk(e, features, chunk, clipRectangles, st, pass, existing, g);
        chunk := chunk + 1;
      }
    }

    // ----- Index mode -----

    /** A feature index the index-mode pass can read everywhere: feature, visibility, the parts its labels read. */
    predicate IndexFits(fid: int)
    {
      0 <= fid < |featureSet| && fid < |layerVisible| && CategoriesRead(featureType, featureSet[fid])
    }

    /** Fast drawn states with an entry per feature. */
    predicate StatesSized(states: Option<seq<Option<LabelState>>>)
    {
      states.Some? ==> |states.value| >= |featureSet|
    }

    /** Every index of the list can be drawn and has a state. */
    predicate IndexListFits(list: seq<int>, states: seq<Option<LabelState>>)
    {
      forall k :: 0 <= k < |list| ==> IndexFits(list[k]) && list[k] < |states| && states[list[k]].Some?
    }

    predicate IndicesFit(fids: seq<int>)
    {
      (forall fid :: fid in fids ==> IndexFits(fid)) && StatesSized(createdIndexedLabels)
    }

    /** The fast drawn states after CreateIndexedLabels when there were none. */
    function RefreshedFastStates(states: Option<seq<Option<LabelState>>>): Option<seq<Option<LabelState>>>
    {
      if states.None? then createdIndexedLabels else states
    }

    /** The fast drawn states an index-mode pass leaves behind. */
    function NextFastStates(states: Option<seq<Option<LabelState>>>): Option<seq<Option<LabelState>>>
    {
      if NoExpressions() then states else RefreshedFastStates(states)
    }

    /** The indices whose fast drawn state has this category, in input order. */
    function IndexMembers(category: LabelCategory, fids: seq<int>, states: seq<Option<LabelState>>): (r: seq<int>)
      requires forall k :: 0 <= k < |fids| ==> 0 <= fids[k] < |states|
      ensures |r| <= |fids|
      ensures forall fid :: fid in r ==>
                fid in fids && 0 <= fid < |states| && states[fid].Some? && states[fid].value.category == Some(category)
      decreases |fids|
    {
      if fids == [] then []
      else
        var rest := IndexMembers(category, fids[1..], states);
        var s := states[fids[0]];
        if s.Some? && s.value.category.Some? && s.value.category.value == category then [fids[0]] + rest else rest
    }

    /** A category's index list is the subsequence of the input of exactly the indices whose state has this category. */
    lemma {:induction false} IndexMembersSpec(category: LabelCategory, fids: seq<int>, states: seq<Option<LabelState>>)
      requires forall k :: 0 <= k < |fids| ==> 0 <= fids[k] < |states|
      ensures IsSubsequence(IndexMembers(category, fids, states), fids)
      ensures forall fid :: fid in fids && states[fid].Some? && states[fid].value.category == Some(category) ==>
                              fid in IndexMembers(category, fids, states)
      decreases |fids|
    {
      if fids != [] {
        IndexMembersSpec(category, fids[1..], states);
        var rest := IndexMembers(category, fids[1..], states);
        assert fids == [fids[0]] + fids[1..];
        var s := states[fids[0]];
        if s.Some? && s.value.category == Some(category) {
          SubsequenceCons(fids[0], rest, fids[1..]);
        } else {
          SubsequenceSkip(fids[0], rest, fids[1..]);
        }
      }
    }

    /** The priority order of a category's indices: List<int>.Sort sorts the indices themselves. */
    function IndexPriorityOrder(symb: LabelSymbolizer, members: seq<int>): (r: seq<int>)
      ensures |r| == |members| && multiset(r) == multiset(members)
    {
      if symb.priorityField == "FID" then members
      else
        var sorted := SortBy(members, IntKey);
        ReverseMultiset(sorted);
        if symb.preventCollisions then (if !symb.prioritizeLowValues then Reverse(sorted) else sorted)
        else if symb.prioritizeLowValues then Reverse(sorted) else sorted
    }

    /**
     * In index mode the priority field only decides whether to sort: the
     * indices come out ascending, or descending exactly when PreventCollisions
     * differs from PrioritizeLowValues; "FID" keeps the input order.
     */
    lemma IndexPriorityOrderRule(symb: LabelSymbolizer, members: seq<int>)
      ensures symb.priorityField == "FID" ==> IndexPriorityOrder(symb, members) == members
      ensures symb.priorityField != "FID" && symb.preventCollisions != symb.prioritizeLowValues ==>
                forall i, j :: 0 <= i < j < |members| ==> IndexPriorityOrder(symb, members)[i] >= IndexPriorityOrder(symb, members)[j]
      ensures symb.priorityField != "FID" && symb.preventCollisions == symb.prioritizeLowValues ==>
                SortedAscending(IndexPriorityOrder(symb, members))
    {
      if symb.priorityField != "FID" {
        SortBySorted(members, IntKey);
        ReverseSorted(SortBy(members, IntKey), IntKey);
      }
    }

    /** The visible indices of a category's list, from position i on (visibility is read at the index). */
    function IndexVisibleLabels(c: Canvas, e: MapArgs, list: seq<int>, i: nat, category: LabelCategory,
                                states: seq<Option<LabelState>>): Canvas
      requires IndexListFits(list, states) && category in categories
      decreases |list| - i
    {
      if i >= |list| then c
      else
        var fid := list[i];
        var next := if layerVisible[fid] then FeatureLabels(c, ts, e, featureSet[fid], category, states[fid].value.selected, featureType)
                    else c;
        IndexVisibleLabels(next, e, list, i + 1, category, states)
    }

    lemma {:induction false} IndexVisibleLabelsGrows(c: Canvas, e: MapArgs, list: seq<int>, i: nat,
                                                     category: LabelCategory, states: seq<Option<LabelState>>)
      requires IndexListFits(list, states) && category in categories
      ensures Grows(c, IndexVisibleLabels(c, e, list, i, category, states))
      decreases |list| - i
    {
      if i >= |list| {
        GrowsRefl(c);
      } else {
        var fid := list[i];
        var next := if layerVisible[fid] then FeatureLabels(c, ts, e, featureSet[fid], category, states[fid].value.selected, featureType)
                    else c;
        if layerVisible[fid] {
          FeatureLabelsGrows(c, ts, e, featureSet[fid], category, states[fid].value.selected, featureType);
        } else {
          GrowsRefl(c);
        }
        IndexVisibleLabelsGrows(next, e, list, i + 1, category, states);
        GrowsTrans(c, next, IndexVisibleLabels(next, e, list, i + 1, category, states));
      }
    }

    /** Drawable indices have a fast drawn state entry. */
    lemma IndicesBelow(fids: seq<int>, states: seq<Option<LabelState>>)
      requires IndicesFit(fids) && |states| >= |featureSet|
      ensures forall k :: 0 <= k < |fids| ==> 0 <= fids[k] < |states|
    {
      forall k | 0 <= k < |fids| ensures 0 <= fids[k] < |states| {
        assert fids[k] in fids;
      }
    }

    /** A reordering of indices taken from a drawable list is drawable. */
    lemma IndexOrderFits(fids: seq<int>, members: seq<int>, r: seq<int>, states: seq<Option<LabelState>>)
      requires IndicesFit(fids) && multiset(r) == multiset(members)
      requires forall fid :: fid in members ==> fid in fids && 0 <= fid < |states| && states[fid].Some?
      ensures IndexListFits(r, states)
    {
      forall k | 0 <= k < |r| ensures IndexFits(r[k]) && r[k] < |states| && states[r[k]].Some? {
        assert r[k] in multiset(members);
        assert r[k] in members;
        assert r[k] in fids;
        var j :| 0 <= j < |fids| && fids[j] == r[k];
      }
    }

    /** The category's indices in priority order. */
    function IndexCategoryOrder(category: LabelCategory, fids: seq<int>, states: seq<Option<LabelState>>): (r: seq<int>)
      requires IndicesFit(fids) && |states| >= |featureSet|
      ensures IndexListFits(r, states)
    {
      IndicesBelow(fids, states);
      var members := IndexMembers(category, fids, states);
      var r := IndexPriorityOrder(category.symbolizer, members);
      IndexOrderFits(fids, members, r, states);
      r
    }

    function IndexCategoryLabels(c: Canvas, e: MapArgs, category: LabelCategory, fids: seq<int>,
                                 states: seq<Option<LabelState>>): Canvas
      requires IndicesFit(fids) && |states| >= |featureSet| && category in categories
    {
      IndexVisibleLabels(c, e, IndexCategoryOrder(category, fids, states), 0, category, states)
    }

    /** The categories of an index-mode pass from the k-th on, in symbology order. */
    function IndexCategoriesLabels(c: Canvas, e: MapArgs, k: nat, fids: seq<int>, states: seq<Option<LabelState>>): Canvas
      requires IndicesFit(fids) && |states| >= |featureSet|
      decreases |categories| - k
    {
      if k >= |categories| then c
      else IndexCategoriesLabels(IndexCategoryLabels(c, e, categories[k], fids, states), e, k + 1, fids, states)
    }

    lemma {:induction false} IndexCategoriesLabelsGrows(c: Canvas, e: MapArgs, k: nat, fids: seq<int>,
                                                        states: seq<Option<LabelState>>)
      requires IndicesFit(fids) && |states| >= |featureSet|
      ensures Grows(c, IndexCategoriesLabels(c, e, k, fids, states))
      decreases |categories| - k
    {
      if k >= |categories| {
        GrowsRefl(c);
      } else {
        var d := IndexCategoryLabels(c, e, categories[k], fids, states);
        IndexVisibleLabelsGrows(c, e, IndexCategoryOrder(categories[k], fids, states), 0, categories[k], states);
        IndexCategoriesLabelsGrows(d, e, k + 1, fids, states);
        GrowsTrans(c, d, IndexCategoriesLabels(d, e, k + 1, fids, states));
      }
    }

    /**
     * What the private index-mode DrawFeatures does to the canvas: nothing
     * when no category has an expression, no fast drawn states can be had, or
     * the feature set's type is not drawn; otherwise every category in turn.
     */
    function IndexPassCanvas(c: Canvas, e: MapArgs, states0: Option<seq<Option<LabelState>>>, fids: seq<int>): Canvas
      requires IndicesFit(fids) && StatesSized(states0)
    {
      if NoExpressions() then c
      else
        var states := RefreshedFastStates(states0);
        if states.None? || !Drawable(featureType) then c
        else IndexCategoriesLabels(c, e, 0, fids, states.value)
    }

    /** An index-mode pass only draws, and never lets two labels of the list overlap. */
    lemma IndexPassGrows(c: Canvas, e: MapArgs, states0: Option<seq<Option<LabelState>>>, fids: seq<int>)
      requires IndicesFit(fids) && StatesSized(states0)
      ensures Grows(c, IndexPassCanvas(c, e, states0, fids))
    {
      var states := RefreshedFastStates(states0);
      if NoExpressions() || states.None? || !Drawable(featureType) {
        GrowsRefl(c);
      } else {
        IndexCategoriesLabelsGrows(c, e, 0, fids, states.value);
      }
    }

    /**
     * Without a category whose expression is non-empty, a pass of either mode
     * draws nothing, adds no label and leaves the drawn states as they were.
     */
    lemma NoExpressionsDrawNothing(c: Canvas, e: MapArgs, states0: Option<map<LabelFeature, LabelState>>,
                                   features: seq<LabelFeature>, fastStates0: Option<seq<Option<LabelState>>>,
                                   fids: seq<int>)
      requires NoExpressions()
      requires FeaturesFit(features) && IndicesFit(fids) && StatesSized(fastStates0)
      ensures FeaturePassCanvas(c, e, states0, features) == c && NextStates(states0, features) == states0
      ensures IndexPassCanvas(c, e, fastStates0, fids) == c && NextFastStates(fastStates0) == fastStates0
    {
    }

    /** The category filter loop of index mode. */
    method SelectCategoryIndices(category: LabelCategory, fids: seq<int>, states: seq<Option<LabelState>>)
      returns (catFeatures: seq<int>)
      requires forall k :: 0 <= k < |fids| ==> 0 <= fids[k] < |states|
      ensures catFeatures == IndexMembers(category, fids, states)
    {
      catFeatures := [];
      var i := 0;
      while i < |fids|
        invariant 0 <= i <= |fids|
        invariant catFeatures + IndexMembers(category, fids[i..], states) == IndexMembers(category, fids, states)
      {
        assert fids[i..][0] == fids[i] && fids[i..][1..] == fids[i + 1..];
        var rest := IndexMembers(category, fids[i + 1..], states);
        var fid := fids[i];
        if states[fid].None? || states[fid].value.category.None? {
          i := i + 1;
          continue;
        }
        if states[fid].value.category.value == category {
          AppendAssoc(catFeatures, [fid], rest);
          catFeatures := catFeatures + [fid];
        }
        i := i + 1;
      }
      assert fids[|fids|..] == [];
    }

    /** One category of the private index-mode DrawFeatures. */
    method DrawCategoryIndices(e: MapArgs, category: LabelCategory, fids: seq<int>, states: seq<Option<LabelState>>,
                               existing: LabelList, g: RenderLog)
      requires IndicesFit(fids) && |states| >= |featureSet| && category in categories && Drawable(featureType)
      modifies existing, g
      ensures Canvas(g.events, existing.labels) ==
              IndexCategoryLabels(Canvas(old(g.events), old(existing.labels)), e, category, fids, states)
    {
      var catFeatures := OrderCategoryIndices(category, fids, states);
      ghost var target := IndexCategoryLabels(Canvas(g.events, existing.labels), e, category, fids, states);
      var i := 0;
      while i < |catFeatures|
        invariant 0 <= i <= |catFeatures|
        invariant target == IndexVisibleLabels(Canvas(g.events, existing.labels), e, catFeatures, i, category, states)
      {
        var fid := catFeatures[i];
        if !layerVisible[fid] {
          i := i + 1;
          continue;
        }
        var feature := featureSet[fid];
        DrawLabelFeature(featureType, ts, e, feature, category, states[fid].value.selected, existing, g);
        i := i + 1;
      }
    }

    /** The filter and the sort of one index-mode category. */
    method OrderCategoryIndices(category: LabelCategory, fids: seq<int>, states: seq<Option<LabelState>>)
      returns (catFeatures: seq<int>)
      requires IndicesFit(fids) && |states| >= |featureSet|
      ensures catFeatures == IndexCategoryOrder(category, fids, states)
    {
      IndicesBelow(fids, states);
      catFeatures := SelectCategoryIndices(category, fids, states);
      if category.symbolizer.priorityField != "FID" {
        catFeatures := SortBy(catFeatures, IntKey);
        if category.symbolizer.preventCollisions {
          if !category.symbolizer.prioritizeLowValues {
            catFeatures := Reverse(catFeatures);
          }
        } else {
          if category.symbolizer.prioritizeLowValues {
            catFeatures := Reverse(catFeatures);
          }
        }
      }
    }

    /** The private DrawFeatures(MapArgs, IEnumerable<int>). */
    method DrawIndexPass(e: MapArgs, fids: seq<int>, existing: LabelList, g: RenderLog)
      requires IndicesFit(fids) && StatesSized(fastDrawnStates)
      modifies this, existing, g
      ensures fastDrawnStates == NextFastStates(old(fastDrawnStates)) && drawnStates == old(drawnStates)
      ensures Canvas(g.events, existing.labels) ==
              IndexPassCanvas(Canvas(old(g.events), old(existing.labels)), e, old(fastDrawnStates), fids)
    {
      if NoExpressions() {
        return;
      }
      if fastDrawnStates.None? {
        fastDrawnStates := createdIndexedLabels;
      }
      var drawStates := fastDrawnStates;
      if drawStates.None? {
        return;
      }
      if !Drawable(featureType) {
        return;
      }
      DrawIndexCategories(e, fids, drawStates.value, existing, g);
    }

    /** The loop over the symbology's categories of an index-mode pass. */
    method DrawIndexCategories(e: MapArgs, fids: seq<int>, states: seq<Option<LabelState>>, existing: LabelList,
                               g: RenderLog)
      requires IndicesFit(fids) && |states| >= |featureSet| && Drawable(featureType)
      modifies existing, g
      ensures Canvas(g.events, existing.labels) ==
              IndexCategoriesLabels(Canvas(old(g.events), old(existing.labels)), e, 0, fids, states)
    {
      var k := 0;
      while k < |categories|
        invariant 0 <= k <= |categories|
        invariant IndexCategoriesLabels(Canvas(old(g.events), old(existing.labels)), e, 0, fids, states) ==
                  IndexCategoriesLabels(Canvas(g.events, existing.labels), e, k, fids, states)
      {
        DrawCategoryIndices(e, categories[k], fids, states, existing, g);
        k := k + 1;
      }
    }

    lemma IndexChunkFits(fids: seq<int>, k: nat)
      requires IndicesFit(fids) && k < NumChunks(|fids|, chunkSize)
      ensures IndicesFit(ChunkAt(fids, chunkSize, k))
    {
      ChunkAtMembers(fids, chunkSize, k);
    }

    /** The index-mode pass as the pass of a chunked run (the slices a run hands it fit). */
    function IndexChunkPass(e: MapArgs): (Stage<Option<seq<Option<LabelState>>>>, seq<int>) -> Stage<Option<seq<Option<LabelState>>>>
    {
      (st: Stage<Option<seq<Option<LabelState>>>>, part: seq<int>) =>
        if IndicesFit(part) && StatesSized(st.states)
        then Stage(IndexPassCanvas(st.canvas, e, st.states, part), NextFastStates(st.states))
        else st
    }

    lemma IndexChunkPassOnlyDraws(e: MapArgs)
      ensures PassOnlyDraws(IndexChunkPass(e))
    {
      forall st: Stage<Option<seq<Option<LabelState>>>>, part: seq<int> ensures Grows(st.canvas, IndexChunkPass(e)(st, part).canvas) {
        if IndicesFit(part) && StatesSized(st.states) {
          IndexPassGrows(st.canvas, e, st.states, part);
        } else {
          GrowsRefl(st.canvas);
        }
      }
    }

    /** A chunk pass that does what the index-mode pass does on the slices a run hands it. */
    ghost predicate IsIndexPass(pass: (Stage<Option<seq<Option<LabelState>>>>, seq<int>) -> Stage<Option<seq<Option<LabelState>>>>, e: MapArgs)
    {
      forall st: Stage<Option<seq<Option<LabelState>>>>, part: seq<int> {:trigger IndexPassCanvas(st.canvas, e, st.states, part)} ::
        IndicesFit(part) && StatesSized(st.states) ==>
          pass(st, part) == Stage(IndexPassCanvas(st.canvas, e, st.states, part), NextFastStates(st.states))
    }

    lemma IndexPassApplies(pass: (Stage<Option<seq<Option<LabelState>>>>, seq<int>) -> Stage<Option<seq<Option<LabelState>>>>, e: MapArgs, st: Stage<Option<seq<Option<LabelState>>>>, part: seq<int>)
      requires IsIndexPass(pass, e) && IndicesFit(part) && StatesSized(st.states)
      ensures pass(st, part) == Stage(IndexPassCanvas(st.canvas, e, st.states, part), NextFastStates(st.states))
    {
    }

    lemma IndexChunkPassIs(e: MapArgs)
      ensures IsIndexPass(IndexChunkPass(e), e)
    {
    }

    /** The first k chunks of a chunked index-mode run. */
    function IndexRun(st: Stage<Option<seq<Option<LabelState>>>>, e: MapArgs, fids: seq<int>, clipRectangles: seq<Rect>, k: nat): Stage<Option<seq<Option<LabelState>>>>
      requires k <= NumChunks(|fids|, chunkSize)
    {
      StageRun(st, IndexChunkPass(e), fids, chunkSize, clipRectangles, k)
    }

    /**
     * A finished chunked index-mode run raises BufferChanged numChunks - 1
     * times (none for an empty list), swaps no buffer, and leaves an
     * overlap-free label list overlap-free.
     */
    lemma IndexRunNotifies(st: Stage<Option<seq<Option<LabelState>>>>, e: MapArgs, fids: seq<int>, clipRectangles: seq<Rect>)
      ensures var n := NumChunks(|fids|, chunkSize);
              var r := IndexRun(st, e, fids, clipRectangles, n);
              && (n > 0 ==> CountChanged(r.canvas.events) == CountChanged(st.canvas.events) + n - 1)
              && (n == 0 ==> r == st)
              && CountFinished(r.canvas.events) == CountFinished(st.canvas.events)
              && (Disjoint(st.canvas.labels) ==> Disjoint(r.canvas.labels))
    {
      IndexChunkPassOnlyDraws(e);
      StageRunNotifies(st, IndexChunkPass(e), fids, chunkSize, clipRectangles);
    }

    method DrawIndexChunk(e: MapArgs, fids: seq<int>, chunk: nat, clipRectangles: seq<Rect>,
                          ghost st: Stage<Option<seq<Option<LabelState>>>>, ghost pass: (Stage<Option<seq<Option<LabelState>>>>, seq<int>) -> Stage<Option<seq<Option<LabelState>>>>, existing: LabelList, g: RenderLog)
      requires IndicesFit(fids) && StatesSized(fastDrawnStates) && chunk < NumChunks(|fids|, chunkSize)
      requires IsIndexPass(pass, e)
      requires Stage(Canvas(g.events, existing.labels), fastDrawnStates) ==
               StageRun(st, pass, fids, chunkSize, clipRectangles, chunk)
      modifies this, existing, g
      ensures drawnStates == old(drawnStates) && StatesSized(fastDrawnStates)
      ensures Stage(Canvas(g.events, existing.labels), fastDrawnStates) ==
              StageRun(st, pass, fids, chunkSize, clipRectangles, chunk + 1)
    {
      ghost var before := Stage(Canvas(g.events, existing.labels), fastDrawnStates);
      var numChunks := NumChunks(|fids|, chunkSize);
      var part := ChunkAt(fids, chunkSize, chunk);
      IndexChunkFits(fids, chunk);
      DrawIndexPass(e, part, existing, g);
      IndexPassApplies(pass, e, before, part);
      if numChunks > 0 && chunk < numChunks - 1 {
        g.Emit(BufferChanged(clipRectangles));
      }
    }

    /** DrawFeatures(args, indices, clipRectangles, useChunks). */
    method DrawIndicesChunked(e: MapArgs, fids: seq<int>, clipRectangles: seq<Rect>, useChunks: bool,
                              existing: LabelList, g: RenderLog)
      requires IndicesFit(fids) && StatesSized(fastDrawnStates)
      modifies this, existing, g
      ensures drawnStates == old(drawnStates)
      ensures !useChunks ==>
                && fastDrawnStates == NextFastStates(old(fastDrawnStates))
                && Canvas(g.events, existing.labels) ==
                   IndexPassCanvas(Canvas(old(g.events), old(existing.labels)), e, old(fastDrawnStates), fids)
      ensures useChunks ==>
                Stage(Canvas(g.events, existing.labels), fastDrawnStates) ==
                IndexRun(Stage(Canvas(old(g.events), old(existing.labels)), old(fastDrawnStates)), e, fids, clipRectangles,
                         NumChunks(|fids|, chunkSize))
    {
      if !useChunks {
        DrawIndexPass(e, fids, existing, g);
      } else {
        IndexChunkPassIs(e);
        DrawIndexChunks(e, fids, clipRectangles, IndexChunkPass(e), existing, g);
      }
    }

    /** The chunk loop of the index-mode driver. */
    method DrawIndexChunks(e: MapArgs, fids: seq<int>, clipRectangles: seq<Rect>,
                           ghost pass: (Stage<Option<seq<Option<LabelState>>>>, seq<int>) -> Stage<Option<seq<Option<LabelState>>>>, existing: LabelList, g: RenderLog)
      requires IndicesFit(fids) && StatesSized(fastDrawnStates) && IsIndexPass(pass, e)
      modifies this, existing, g
      ensures drawnStates == old(drawnStates)
      ensures Stage(Canvas(g.events, existing.labels), fastDrawnStates) ==
              StageRun(Stage(Canvas(old(g.events), old(existing.labels)), old(fastDrawnStates)), pass, fids, chunkSize,
                       clipRectangles, NumChunks(|fids|, chunkSize))
    {
      ghost var st := Stage(Canvas(g.events, existing.labels), fastDrawnStates);
      var count := |fids|;
      var numChunks := NumChunks(count, chunkSize);
      var chunk := 0;
      while chunk < numChunks
        invariant 0 <= chunk <= numChunks
        invariant drawnStates == old(drawnStates) && StatesSized(fastDrawnStates)
        invariant Stage(Canvas(g.events, existing.labels), fastDrawnStates) ==
                  StageRun(st, pass, fids, chunkSize, clipRectangles, chunk)
      {
        DrawIndexChunk(e, fids, chunk, clipRectangles, st, pass, existing, g);
        chunk := chunk + 1;
      }
    }
  }
}
