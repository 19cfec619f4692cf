/**
 * MapPointLayer: which symbols a redraw stamps and in what order, and the
 * Buffer/BackBuffer pair the layer draws behind. Index mode walks the flat
 * vertex array through the fast drawn states, category by category; feature
 * mode walks the drawing filter's states and gives up on the whole call at the
 * first feature it cannot draw.
 */
module MapPointLayer {
  import opened Geometry
  import opened Sequences
  import opened Symbology
  import opened Rendering
  import opened ShapeParts
  import opened PointLayerHelper
  import opened LineLayerHelper
  import opened Chunking

  /** A feature of the point feature set with its coordinates (IFeature.Coordinates). */
  datatype PointFeature = PointFeature(id: nat, coordinates: seq<PointF>)

  /** What a feature-mode category loop leaves: the calls made, and whether it hit a `return`. */
  datatype Outcome = Outcome(events: seq<RenderEvent>, aborted: bool)

  /** The calls of `o` after `before`. */
  function Prepend(before: seq<RenderEvent>, o: Outcome): Outcome
  {
    Outcome(before + o.events, o.aborted)
  }

  /** The vertex (X, Y) of index i of a flat [x0, y0, x1, y1, ...] array. */
  function VertexAt(vertices: seq<Num>, i: int): PointF
    requires 0 <= i && 2 * i + 1 < |vertices|
  {
    PointF(vertices[2 * i], vertices[2 * i + 1])
  }

  /** The number of vertices StartIndex..EndIndex() of a shape (zero when the range is empty). */
  function RangeLength(s: ShapeRange): nat
  {
    if s.endIndex < s.startIndex then 0 else s.endIndex - s.startIndex + 1
  }

  /** Every vertex the shape's range visits has both co-ordinates in the array. */
  predicate RangeInBounds(s: ShapeRange, numValues: int)
  {
    s.endIndex < s.startIndex || (0 <= s.startIndex && 2 * s.endIndex + 1 < numValues)
  }

  /** IPointSymbolizer.Draw at the scale DefineScale gives, which divides by the extent width only for Geographic. */
  predicate ScaleOk(e: MapArgs, o: Option<PointSymbolizer>)
  {
    o.Some? && o.value.scaleMode == Geographic ==> ExtentWidth(e.geoExtent) != 0.0
  }

  /** A category whose symbolizers draw at defined scales. */
  predicate CategoryOk(e: MapArgs, c: PointCategory)
  {
    ScaleOk(e, c.symbolizer) && ScaleOk(e, c.selectionSymbolizer)
  }

  predicate CategoriesOk(e: MapArgs, cats: seq<PointCategory>)
  {
    forall k :: 0 <= k < |cats| ==> CategoryOk(e, cats[k])
  }

  /**
   * DrawCategory reads SelectionSymbolizer.GetSize() only once the normal
   * symbol is there and large enough: a selection symbolizer is needed just then.
   */
  predicate SelectionDefined(e: MapArgs, c: PointCategory)
  {
    (c.symbolizer.Some? && ScaleOk(e, c.symbolizer) &&
     !TooSmall(c.symbolizer.value, DefineScale(e, c.symbolizer.value.scaleMode))) ==> c.selectionSymbolizer.Some?
  }

  predicate SelectionsDefined(e: MapArgs, cats: seq<PointCategory>)
  {
    forall k :: 0 <= k < |cats| ==> SelectionDefined(e, cats[k])
  }

  class Image {
    /** The bitmap's size. */
    const width: int
    const height: int
    /** Image.Dispose has been called. */
    var disposed: bool
    /** What has been drawn onto the bitmap. */
    var content: seq<RenderEvent>

    /** new Bitmap(width, height): blank and live. */
    constructor (width: int, height: int)
      ensures this.width == width && this.height == height && !disposed && content == []
    {
      this.width := width;
      this.height := height;
      disposed := false;
      content := [];
    }

    method Dispose()
      modifies this
      ensures disposed && content == old(content)
    {
      disposed := true;
    }

    /** DrawImageUnscaled(source, 0, 0) onto this bitmap of the same size: this shows what the source shows. */
    method CopyFrom(source: Image)
      requires source != this
      modifies this
      ensures content == source.content && disposed == old(disposed)
    {
      content := source.content;
    }
  }

  class MapPointLayer {
    /** DataSet.Vertex, DataSet.ShapeIndices and DataSet.FeatureType. */
    const vertices: seq<Num>
    const shapes: seq<ShapeRange>
    const featureType: FeatureType
    /** Symbology.Categories. */
    const categories: seq<PointCategory>
    /** DrawnStatesNeeded, and DrawnStates (a null array behaves as an empty one). */
    const drawnStatesNeeded: bool
    const drawnStates: seq<DrawnState<PointCategory>>
    /** DrawingFilter.DrawnStates (null allowed); a state in it may itself be null. */
    const filterStates: Option<map<PointFeature, Option<DrawnState<PointCategory>>>>
    /** PointLayerHelper.CreatePoint, which is not part of this model. */
    const createPoint: (MapArgs, PointF) -> Point
    /** CreateSymbolizerFastDrawn on `new FastDrawnState(selected, category)`, which is not part of this model. */
    const fastSymbolizer: (bool, PointCategory) -> Option<PointSymbolizer>
    /** ChunkSize, as Configure sets it. */
    const chunkSize := 50000
    /** Buffer and BackBuffer (null allowed), and BufferRectangle. */
    var buffer: Image?
    var backBuffer: Image?
    var bufferRectangle: Rect

    constructor (vertices: seq<Num>, shapes: seq<ShapeRange>, featureType: FeatureType, categories: seq<PointCategory>,
                 drawnStatesNeeded: bool, drawnStates: seq<DrawnState<PointCategory>>,
                 filterStates: Option<map<PointFeature, Option<DrawnState<PointCategory>>>>,
                 createPoint: (MapArgs, PointF) -> Point, fastSymbolizer: (bool, PointCategory) -> Option<PointSymbolizer>,
                 bufferRectangle: Rect)
      ensures this.vertices == vertices && this.shapes == shapes && this.featureType == featureType
      ensures this.categories == categories && this.drawnStatesNeeded == drawnStatesNeeded
      ensures this.drawnStates == drawnStates && this.filterStates == filterStates
      ensures this.createPoint == createPoint && this.fastSymbolizer == fastSymbolizer
      ensures buffer == null && backBuffer == null && this.bufferRectangle == bufferRectangle
    {
      this.vertices := vertices;
      this.shapes := shapes;
      this.featureType := featureType;
      this.categories := categories;
      this.drawnStatesNeeded := drawnStatesNeeded;
      this.drawnStates := drawnStates;
      this.filterStates := filterStates;
      this.createPoint := createPoint;
      this.fastSymbolizer := fastSymbolizer;
      this.buffer := null;
      this.backBuffer := null;
      this.bufferRectangle := bufferRectangle;
    }

    // -------------------------------------------------------------------------
    // Buffer and BackBuffer
    // -------------------------------------------------------------------------

    /**
     * FinishDrawing: the back buffer becomes the front buffer, and the old
     * front buffer is disposed unless it was the back buffer itself.
     */
    method FinishDrawing(g: RenderLog)
      modifies this, g, if buffer != null && buffer != backBuffer then {buffer} else {}
      ensures buffer == old(backBuffer) && backBuffer == old(backBuffer) && bufferRectangle == old(bufferRectangle)
      ensures old(buffer) != null && old(buffer) != old(backBuffer) ==> old(buffer).disposed
      ensures g.events == old(g.events) + [DrawingFinished]
    {
      g.Emit(DrawingFinished);
      if buffer != null && buffer != backBuffer {
        buffer.Dispose();
      }
      buffer := backBuffer;
    }

    /**
     * StartDrawing(preserve): a fresh back buffer of BufferRectangle's size,
     * showing the front buffer only when asked to and the sizes agree; the
     * old back buffer is disposed unless it was the front buffer.
     */
    method StartDrawing(preserve: bool)
      modifies this, if backBuffer != null && backBuffer != buffer then {backBuffer} else {}
      ensures fresh(backBuffer) && !backBuffer.disposed
      ensures backBuffer.width == bufferRectangle.w && backBuffer.height == bufferRectangle.h
      ensures backBuffer.content ==
                if old(buffer) != null && old(buffer).width == bufferRectangle.w && old(buffer).height == bufferRectangle.h
                   && preserve
                then old(buffer.content) else []
      ensures buffer == old(buffer) && bufferRectangle == old(bufferRectangle)
      ensures old(backBuffer) != null && old(backBuffer) != old(buffer) ==> old(backBuffer).disposed
    {
      var bmp := new Image(bufferRectangle.w, bufferRectangle.h);
      if buffer != null {
        if buffer.width == bmp.width && buffer.height == bmp.height {
          if preserve {
            bmp.CopyFrom(buffer);
          }
        }
      }
      if backBuffer != null && backBuffer != buffer {
        backBuffer.Dispose();
      }
      backBuffer := bmp;
    }

    // -------------------------------------------------------------------------
    // Index mode
    // -------------------------------------------------------------------------

    /** Index `i` can be drawn: its vertex (or its shape's vertices) in the array, and its state when states are used. */
    predicate IndexOk(i: int)
    {
      && 0 <= i
      && (featureType == PointType ==> 2 * i + 1 < |vertices|)
      && (featureType != PointType ==> i < |shapes| && RangeInBounds(shapes[i], |vertices|))
      && (drawnStatesNeeded ==> i < |drawnStates|)
    }

    predicate IndicesOk(indices: seq<int>)
    {
      forall k :: 0 <= k < |indices| ==> IndexOk(indices[k])
    }

    /** The pixels of the shape's vertices, StartIndex to EndIndex() inclusive. */
    function RangePixels(e: MapArgs, s: ShapeRange): (pts: seq<Point>)
      requires RangeInBounds(s, |vertices|)
      ensures |pts| == RangeLength(s)
      ensures forall k :: 0 <= k < |pts| ==> pts[k] == createPoint(e, VertexAt(vertices, s.startIndex + k))
    {
      seq(RangeLength(s), k requires 0 <= k < RangeLength(s) => createPoint(e, VertexAt(vertices, s.startIndex + k)))
    }

    /** The pixels a point or multi-point index is drawn at. */
    function IndexPixels(e: MapArgs, i: int): (pts: seq<Point>)
      requires IndexOk(i)
    {
      if featureType == PointType then [createPoint(e, VertexAt(vertices, i))] else RangePixels(e, shapes[i])
    }

    /** DrawIndex: the category's bitmap, the normal or the selected one, stamped at each pixel of the index. */
    function IndexStamps(e: MapArgs, category: PointCategory, i: int): (es: seq<RenderEvent>)
      requires IndexOk(i) && drawnStatesNeeded
    {
      var state := drawnStates[i];
      if !state.visible || state.category.None? || !ValidateCategory(state.category, Some(category)) then []
      else Stamps(category, state.selected, IndexPixels(e, i))
    }

    /**
     * DrawIndex stamps nothing for an invisible state, a state without a
     * category or a state of another category; otherwise it stamps the
     * selected bitmap exactly when the state is selected, once per vertex.
     */
    lemma IndexStampsSpec(e: MapArgs, category: PointCategory, i: int)
      requires IndexOk(i) && drawnStatesNeeded
      ensures var state := drawnStates[i];
              var es := IndexStamps(e, category, i);
              && (!state.visible || state.category != Some(category) ==> es == [])
              && (state.visible && state.category == Some(category) ==>
                    && |es| == (if featureType == PointType then 1 else RangeLength(shapes[i]))
                    && forall k :: 0 <= k < |es| ==>
                         es[k] == SymbolStamp(category, state.selected, IndexPixels(e, i)[k]))
    {
    }

    /** The stamps DrawCategory makes over the indices, in index order. */
    function IndicesStamps(e: MapArgs, category: PointCategory, indices: seq<int>): seq<RenderEvent>
      requires IndicesOk(indices) && drawnStatesNeeded
      decreases |indices|
    {
      if indices == [] then []
      else
        var n := |indices| - 1;
        IndicesStamps(e, category, indices[..n]) + IndexStamps(e, category, indices[n])
    }

    /** DrawCategory draws only when both of the category's symbols are at least one pixel in each direction. */
    predicate SymbolsVisible(e: MapArgs, category: PointCategory)
      requires CategoryOk(e, category) && SelectionDefined(e, category)
    {
      && category.symbolizer.Some?
      && var scale := DefineScale(e, category.symbolizer.value.scaleMode);
         !TooSmall(category.symbolizer.value, scale) && !TooSmall(category.selectionSymbolizer.value, scale)
    }

    /** DrawCategory: nothing unless both symbols are visible, then every index's stamps for this category. */
    function CategoryStamps(e: MapArgs, category: PointCategory, indices: seq<int>): seq<RenderEvent>
      requires IndicesOk(indices) && drawnStatesNeeded && CategoryOk(e, category) && SelectionDefined(e, category)
    {
      if SymbolsVisible(e, category) then IndicesStamps(e, category, indices) else []
    }

    /** DrawStates: the categories in symbology order. */
    function StatesStamps(e: MapArgs, cats: seq<PointCategory>, indices: seq<int>): seq<RenderEvent>
      requires IndicesOk(indices) && drawnStatesNeeded && CategoriesOk(e, cats) && SelectionsDefined(e, cats)
      decreases |cats|
    {
      if cats == [] then []
      else
        var n := |cats| - 1;
        assert CategoriesOk(e, cats[..n]) && SelectionsDefined(e, cats[..n]);
        StatesStamps(e, cats[..n], indices) + CategoryStamps(e, cats[n], indices)
    }

    /** The symbols DrawWithoutStates draws for one index: none for a known invisible state. */
    function IndexSymbols(e: MapArgs, ps: PointSymbolizer, i: int): seq<RenderEvent>
      requires IndexOk(i) && ScaleOk(e, Some(ps))
    {
      if i < |drawnStates| && !drawnStates[i].visible then []
      else Symbols(ps, DefineScale(e, ps.scaleMode), IndexPixels(e, i))
    }

    function IndicesSymbols(e: MapArgs, ps: PointSymbolizer, indices: seq<int>): seq<RenderEvent>
      requires IndicesOk(indices) && ScaleOk(e, Some(ps))
      decreases |indices|
    {
      if indices == [] then []
      else
        var n := |indices| - 1;
        IndicesSymbols(e, ps, indices[..n]) + IndexSymbols(e, ps, indices[n])
    }

    /** Nothing to draw without states: no category, or no symbolizer for the first one. */
    predicate NothingWithoutStates()
    {
      |categories| == 0 || fastSymbolizer(false, categories[0]).None?
    }

    /** What a pass needs: drawable indices, defined scales, and selection symbols where DrawCategory reads them. */
    predicate PassOk(e: MapArgs, indices: seq<int>)
    {
      && IndicesOk(indices) && CategoriesOk(e, categories)
      && (drawnStatesNeeded ==> SelectionsDefined(e, categories))
      && (|categories| > 0 ==> ScaleOk(e, fastSymbolizer(false, categories[0])))
    }

    /** DrawWithoutStates: the first category's unselected symbolizer at every index not known to be invisible. */
    function WithoutStatesSymbols(e: MapArgs, indices: seq<int>): seq<RenderEvent>
      requires PassOk(e, indices)
    {
      if NothingWithoutStates() then [] else IndicesSymbols(e, fastSymbolizer(false, categories[0]).value, indices)
    }

    /** The private DrawFeatures(e, indices): by the states when they are needed, else without them. */
    function IndexPass(e: MapArgs, indices: seq<int>): seq<RenderEvent>
      requires PassOk(e, indices)
    {
      if drawnStatesNeeded then StatesStamps(e, categories, indices) else WithoutStatesSymbols(e, indices)
    }

    /**
     * Without states only a known invisible state hides an index: an index
     * past the end of DrawnStates is drawn whatever it is.
     */
    lemma IndexSymbolsShown(e: MapArgs, ps: PointSymbolizer, i: int)
      requires IndexOk(i) && ScaleOk(e, Some(ps))
      ensures i < |drawnStates| && !drawnStates[i].visible ==> IndexSymbols(e, ps, i) == []
      ensures (i >= |drawnStates| || drawnStates[i].visible) ==>
                var es := IndexSymbols(e, ps, i);
                && |es| == |IndexPixels(e, i)|
                && forall k :: 0 <= k < |es| ==>
                     es[k] == PointSymbol(ps, IndexPixels(e, i)[k], DefineScale(e, ps.scaleMode))
    {
    }

    // -------------------------------------------------------------------------
    // Index-mode drawing methods
    // -------------------------------------------------------------------------

    /** DrawMultiPoint(range, ..., bmp): the bitmap stamped at each vertex StartIndex..EndIndex(). */
    method DrawMultiPointStamps(e: MapArgs, range: ShapeRange, category: PointCategory, selected: bool, g: RenderLog)
      requires RangeInBounds(range, |vertices|)
      modifies g
      ensures g.events == old(g.events) + Stamps(category, selected, RangePixels(e, range))
    {
      ghost var all := Stamps(category, selected, RangePixels(e, range));
      var i := range.startIndex;
      while i <= range.endIndex
        invariant range.startIndex <= i && i - range.startIndex <= RangeLength(range)
        invariant g.events == old(g.events) + all[..i - range.startIndex]
        decreases range.endIndex + 1 - i
      {
        var pt := createPoint(e, VertexAt(vertices, i));
        g.Emit(SymbolStamp(category, selected, pt));
        assert all[..i + 1 - range.startIndex] == all[..i - range.startIndex] + [SymbolStamp(category, selected, pt)];
        i := i + 1;
      }
      assert i - range.startIndex == |all|;
      assert all[..|all|] == all;
    }

    /** DrawMultiPoint(e, range, ..., ps): the symbolizer drawn at each vertex StartIndex..EndIndex(). */
    method DrawMultiPointSymbols(e: MapArgs, range: ShapeRange, ps: PointSymbolizer, g: RenderLog)
      requires RangeInBounds(range, |vertices|) && ScaleOk(e, Some(ps))
      modifies g
      ensures g.events == old(g.events) + Symbols(ps, DefineScale(e, ps.scaleMode), RangePixels(e, range))
    {
      ghost var all := Symbols(ps, DefineScale(e, ps.scaleMode), RangePixels(e, range));
      var i := range.startIndex;
      while i <= range.endIndex
        invariant range.startIndex <= i && i - range.startIndex <= RangeLength(range)
        invariant g.events == old(g.events) + all[..i - range.startIndex]
        decreases range.endIndex + 1 - i
      {
        var ev := DrawCoordinate(e, ps, VertexAt(vertices, i), g);
        assert all[..i + 1 - range.startIndex] == all[..i - range.startIndex] + [ev];
        i := i + 1;
      }
      assert i - range.startIndex == |all|;
      assert all[..|all|] == all;
    }

    /** DrawCoordinate: the symbolizer drawn at the coordinate's pixel, at DefineScale's scale. */
    method DrawCoordinate(e: MapArgs, ps: PointSymbolizer, c: PointF, g: RenderLog) returns (ghost ev: RenderEvent)
      requires ScaleOk(e, Some(ps))
      modifies g
      ensures ev == PointSymbol(ps, createPoint(e, c), DefineScale(e, ps.scaleMode))
      ensures g.events == old(g.events) + [ev]
    {
      var pt := createPoint(e, c);
      var scaleSize := DefineScale(e, ps.scaleMode);
      ev := PointSymbol(ps, pt, scaleSize);
      g.Emit(PointSymbol(ps, pt, scaleSize));
    }

    /** DrawIndex. */
    method DrawIndex(e: MapArgs, i: int, category: PointCategory, g: RenderLog)
      requires IndexOk(i) && drawnStatesNeeded
      modifies g
      ensures g.events == old(g.events) + IndexStamps(e, category, i)
    {
      var state := drawnStates[i];
      if !state.visible {
        return;
      }
      if state.category.None? {
        return;
      }
      var pc := state.category;
      if !ValidateCategory(pc, Some(category)) {
        return;
      }
      var selected := state.selected;
      if featureType == PointType {
        var pt := createPoint(e, VertexAt(vertices, i));
        g.Emit(SymbolStamp(category, selected, pt));
      } else {
        DrawMultiPointStamps(e, shapes[i], category, selected, g);
      }
    }

    /** DrawCategory: the two symbols are built (if large enough), then every index is drawn for this category. */
    method DrawCategory(e: MapArgs, indices: seq<int>, category: PointCategory, g: RenderLog)
      requires IndicesOk(indices) && drawnStatesNeeded && CategoryOk(e, category) && SelectionDefined(e, category)
      modifies g
      ensures g.events == old(g.events) + CategoryStamps(e, category, indices)
    {
      if category.symbolizer.None? {
        return;
      }
      // The scale is computed inline, exactly as DefineScale computes it.
      var scaleSize := DefineScale(e, category.symbolizer.value.scaleMode);
      var size := category.symbolizer.value;
      if TooSmall(size, scaleSize) {
        return;
      }
      var selSize := category.selectionSymbolizer.value;
      if TooSmall(selSize, scaleSize) {
        return;
      }
      assert SymbolsVisible(e, category);
      var k := 0;
      while k < |indices|
        invariant 0 <= k <= |indices|
        invariant g.events == old(g.events) + IndicesStamps(e, category, indices[..k])
      {
        assert indices[..k + 1][..k] == indices[..k];
        ghost var before := g.events;
        DrawIndex(e, indices[k], category, g);
        AppendAssoc(old(g.events), IndicesStamps(e, category, indices[..k]), IndexStamps(e, category, indices[k]));
        k := k + 1;
      }
      assert indices[..k] == indices;
    }

    /** DrawStates: DrawCategory for every category, in symbology order. */
    method DrawStates(e: MapArgs, indices: seq<int>, g: RenderLog)
      requires IndicesOk(indices) && drawnStatesNeeded && CategoriesOk(e, categories) && SelectionsDefined(e, categories)
      modifies g
      ensures g.events == old(g.events) + StatesStamps(e, categories, indices)
    {
      var k := 0;
      while k < |categories|
        invariant 0 <= k <= |categories|
        invariant g.events == old(g.events) + StatesStamps(e, categories[..k], indices)
      {
        assert categories[..k + 1][..k] == categories[..k];
        assert CategoriesOk(e, categories[..k + 1]) && SelectionsDefined(e, categories[..k + 1]);
        DrawCategory(e, indices, categories[k], g);
        AppendAssoc(old(g.events), StatesStamps(e, categories[..k], indices), CategoryStamps(e, categories[k], indices));
        k := k + 1;
      }
      assert categories[..k] == categories;
    }

    /**
     * DrawWithoutStates: true, having drawn nothing, when there is nothing to
     * draw with; otherwise false, having drawn every index not known to be
     * invisible.
     */
    method DrawWithoutStates(e: MapArgs, indices: seq<int>, g: RenderLog) returns (nothingDrawn: bool)
      requires PassOk(e, indices)
      modifies g
      ensures nothingDrawn <==> NothingWithoutStates()
      ensures g.events == old(g.events) + WithoutStatesSymbols(e, indices)
    {
      if |categories| == 0 {
        return true;
      }
      var ops := fastSymbolizer(false, categories[0]);
      if ops.None? {
        return true;
      }
      var ps := ops.value;
      var k := 0;
      while k < |indices|
        invariant 0 <= k <= |indices|
        invariant g.events == old(g.events) + IndicesSymbols(e, ps, indices[..k])
      {
        assert indices[..k + 1][..k] == indices[..k];
        var index := indices[k];
        DrawIndexSymbols(e, ps, index, g);
        AppendAssoc(old(g.events), IndicesSymbols(e, ps, indices[..k]), IndexSymbols(e, ps, index));
        k := k + 1;
      }
      assert indices[..k] == indices;
      return false;
    }

    /** One index of DrawWithoutStates's loop. */
    method DrawIndexSymbols(e: MapArgs, ps: PointSymbolizer, index: int, g: RenderLog)
      requires IndexOk(index) && ScaleOk(e, Some(ps))
      modifies g
      ensures g.events == old(g.events) + IndexSymbols(e, ps, index)
    {
      if |drawnStates| > index {
        if !drawnStates[index].visible {
          return;
        }
      }
      if featureType == PointType {
        var ev := DrawCoordinate(e, ps, VertexAt(vertices, index), g);
      } else {
        DrawMultiPointSymbols(e, shapes[index], ps, g);
      }
    }

    /** The private DrawFeatures(e, indices). */
    method DrawIndexPass(e: MapArgs, indices: seq<int>, g: RenderLog)
      requires PassOk(e, indices)
      modifies g
      ensures g.events == old(g.events) + IndexPass(e, indices)
    {
      if !drawnStatesNeeded {
        var nothingDrawn := DrawWithoutStates(e, indices, g);
        if nothingDrawn {
          return;
        }
      } else {
        DrawStates(e, indices, g);
      }
    }

    // -------------------------------------------------------------------------
    // Feature mode
    // -------------------------------------------------------------------------

    /** The pixels of a feature's coordinates, in order. */
    function CoordinatePixels(e: MapArgs, coords: seq<PointF>): (pts: seq<Point>)
      ensures |pts| == |coords| && forall k :: 0 <= k < |pts| ==> pts[k] == createPoint(e, coords[k])
    {
      seq(|coords|, k requires 0 <= k < |coords| => createPoint(e, coords[k]))
    }

    /**
     * The checks of the feature-mode loop for one feature and category: the
     * symbolizer to draw it with, or None where the loop returns.
     */
    function FeatureSymbolizer(feature: PointFeature, category: PointCategory): (ps: Option<PointSymbolizer>)
      requires filterStates.Some?
      ensures var states := filterStates.value;
              ps.Some? <==> && feature in states && ValidateState(states[feature])
                            && states[feature].value.category == Some(category)
                            && CreatePointSymbolizer(category, states[feature].value).Some?
      ensures ps.Some? ==>
                ps == (if filterStates.value[feature].value.selected then category.selectionSymbolizer else category.symbolizer)
    {
      var states := filterStates.value;
      if feature !in states then None
      else
        var ds := states[feature];
        if !ValidateState(ds) then None
        else
          var pc := ds.value.category;
          if !ValidateCategory(pc, Some(category)) then None
          else CreatePointSymbolizer(pc.value, ds.value)
    }

    /** DrawFeature: the symbolizer at every coordinate of the feature. */
    function FeatureEvents(e: MapArgs, ps: PointSymbolizer, feature: PointFeature): seq<RenderEvent>
      requires ScaleOk(e, Some(ps))
    {
      Symbols(ps, DefineScale(e, ps.scaleMode), CoordinatePixels(e, feature.coordinates))
    }

    /** The inner loop of the feature-mode DrawFeatures for one category: it stops at the first feature it cannot draw. */
    function CategoryRun(e: MapArgs, category: PointCategory, features: seq<PointFeature>): Outcome
      requires filterStates.Some? && CategoryOk(e, category)
      decreases |features|
    {
      if features == [] then Outcome([], false)
      else
        match FeatureSymbolizer(features[0], category)
        case None => Outcome([], true)
        case Some(ps) => Prepend(FeatureEvents(e, ps, features[0]), CategoryRun(e, category, features[1..]))
    }

    /** The outer loop over the categories: a `return` inside ends the whole call. */
    function FeaturePassFrom(e: MapArgs, cats: seq<PointCategory>, features: seq<PointFeature>): seq<RenderEvent>
      requires filterStates.Some? && CategoriesOk(e, cats)
      decreases |cats|
    {
      if cats == [] then []
      else
        var o := CategoryRun(e, cats[0], features);
        if o.aborted then o.events else o.events + FeaturePassFrom(e, cats[1..], features)
    }

    /** The private DrawFeatures(e, features): nothing without a drawing filter. */
    function FeaturePass(e: MapArgs, features: seq<PointFeature>): seq<RenderEvent>
      requires CategoriesOk(e, categories)
    {
      if filterStates.None? then [] else FeaturePassFrom(e, categories, features)
    }

    /** A category loop that ran to the end drew every feature: each one passed the checks. */
    lemma {:induction false} CategoryRunCompleted(e: MapArgs, category: PointCategory, features: seq<PointFeature>)
      requires filterStates.Some? && CategoryOk(e, category)
      requires !CategoryRun(e, category, features).aborted
      ensures forall i :: 0 <= i < |features| ==> FeatureSymbolizer(features[i], category).Some?
      decreases |features|
    {
      if features != [] {
        CategoryRunCompleted(e, category, features[1..]);
        forall i | 0 < i < |features| ensures FeatureSymbolizer(features[i], category).Some? {
          assert features[i] == features[1..][i - 1];
        }
      }
    }

    /**
     * The category loop draws the features before the first one that fails
     * its checks, and that one ends the call.
     */
    lemma {:induction false} CategoryRunStops(e: MapArgs, category: PointCategory, features: seq<PointFeature>, i: nat)
      requires filterStates.Some? && CategoryOk(e, category)
      requires i < |features| && FeatureSymbolizer(features[i], category).None?
      requires forall j :: 0 <= j < i ==> FeatureSymbolizer(features[j], category).Some?
      ensures !CategoryRun(e, category, features[..i]).aborted
      ensures CategoryRun(e, category, features) == Outcome(CategoryRun(e, category, features[..i]).events, true)
      decreases i
    {
      if i > 0 {
        var rest := features[1..];
        forall j | 0 <= j < i - 1 ensures FeatureSymbolizer(rest[j], category).Some? {
          assert rest[j] == features[j + 1];
        }
        CategoryRunStops(e, category, rest, i - 1);
        assert features[..i][1..] == rest[..i - 1];
        assert features[..i][0] == features[0];
      }
    }

    /**
     * With distinct categories and at least one feature, feature mode never
     * gets past the first category: only features of the first category can
     * be drawn, because the first feature fails the next category's check.
     */
    lemma FeaturePassOnlyFirstCategory(e: MapArgs, features: seq<PointFeature>)
      requires filterStates.Some? && CategoriesOk(e, categories)
      requires features != [] && |categories| > 0
      requires forall k :: 0 < k < |categories| ==> categories[k] != categories[0]
      ensures FeaturePass(e, features) == CategoryRun(e, categories[0], features).events
    {
      var o := CategoryRun(e, categories[0], features);
      if !o.aborted && |categories| > 1 {
        CategoryRunCompleted(e, categories[0], features);
        assert FeatureSymbolizer(features[0], categories[0]).Some?;
        var rest := categories[1..];
        assert rest[0] == categories[1];
        assert CategoryRun(e, rest[0], features) == Outcome([], true);
        assert FeaturePassFrom(e, rest, features) == [];
      } else if !o.aborted {
        assert categories[1..] == [];
        assert FeaturePassFrom(e, categories[1..], features) == [];
      }
    }

    /** DrawFeature: DrawCoordinate for every coordinate of the feature. */
    method DrawFeature(e: MapArgs, feature: PointFeature, ps: PointSymbolizer, g: RenderLog)
      requires ScaleOk(e, Some(ps))
      modifies g
      ensures g.events == old(g.events) + FeatureEvents(e, ps, feature)
    {
      ghost var all := FeatureEvents(e, ps, feature);
      var i := 0;
      while i < |feature.coordinates|
        invariant 0 <= i <= |feature.coordinates|
        invariant g.events == old(g.events) + all[..i]
      {
        var ev := DrawCoordinate(e, ps, feature.coordinates[i], g);
        assert all[..i + 1] == all[..i] + [ev];
        i := i + 1;
      }
      assert all[..i] == all;
    }

    /** The inner loop of the feature-mode DrawFeatures for one category; `aborted` is its `return`. */
    method DrawFeatureCategory(e: MapArgs, features: seq<PointFeature>, category: PointCategory, g: RenderLog)
      returns (aborted: bool)
      requires filterStates.Some? && CategoryOk(e, category)
      modifies g
      ensures g.events == old(g.events) + CategoryRun(e, category, features).events
      ensures aborted == CategoryRun(e, category, features).aborted
    {
      var states := filterStates.value;
      ghost var drawn: seq<RenderEvent> := [];
      var i := 0;
      while i < |features|
        invariant 0 <= i <= |features|
        invariant g.events == old(g.events) + drawn
        invariant CategoryRun(e, category, features) == Prepend(drawn, CategoryRun(e, category, features[i..]))
      {
        var feature := features[i];
        assert features[i..][0] == feature && features[i..][1..] == features[i + 1..];
        if feature !in states {
          return true;
        }
        var ds := states[feature];
        if !ValidateState(ds) {
          return true;
        }
        var pc := ds.value.category;
        if !ValidateCategory(pc, Some(category)) {
          return true;
        }
        var ops := CreatePointSymbolizer(pc.value, ds.value);
        if ops.None? {
          return true;
        }
        var ps := ops.value;
        assert FeatureSymbolizer(feature, category) == Some(ps);
        ghost var evs := FeatureEvents(e, ps, feature);
        DrawFeature(e, feature, ps, g);
        AppendAssoc(old(g.events), drawn, evs);
        AppendAssoc(drawn, evs, CategoryRun(e, category, features[i + 1..]).events);
        drawn := drawn + evs;
        i := i + 1;
      }
      return false;
    }

    /** The private DrawFeatures(e, features). */
    method DrawFeaturePass(e: MapArgs, features: seq<PointFeature>, g: RenderLog)
      requires CategoriesOk(e, categories)
      modifies g
      ensures g.events == old(g.events) + FeaturePass(e, features)
    {
      if filterStates.None? {
        return;
      }
      ghost var drawn: seq<RenderEvent> := [];
      var k := 0;
      while k < |categories|
        invariant 0 <= k <= |categories|
        invariant g.events == old(g.events) + drawn
        invariant FeaturePass(e, features) == drawn + FeaturePassFrom(e, categories[k..], features)
      {
        var category := categories[k];
        assert categories[k..][0] == category && categories[k..][1..] == categories[k + 1..];
        ghost var o := CategoryRun(e, category, features);
        var aborted := DrawFeatureCategory(e, features, category, g);
        AppendAssoc(old(g.events), drawn, o.events);
        if aborted {
          return;
        }
        AppendAssoc(drawn, o.events, FeaturePassFrom(e, categories[k + 1..], features));
        drawn := drawn + o.events;
        k := k + 1;
      }
    }

    // -------------------------------------------------------------------------
    // Passes only draw
    // -------------------------------------------------------------------------

    lemma {:induction false} IndicesStampsDrawOnly(e: MapArgs, category: PointCategory, indices: seq<int>)
      requires IndicesOk(indices) && drawnStatesNeeded
      ensures DrawOnly(IndicesStamps(e, category, indices))
      decreases |indices|
    {
      if indices != [] {
        var n := |indices| - 1;
        IndicesStampsDrawOnly(e, category, indices[..n]);
        DrawOnlyConcat(IndicesStamps(e, category, indices[..n]), IndexStamps(e, category, indices[n]));
      }
    }

    lemma {:induction false} StatesStampsDrawOnly(e: MapArgs, cats: seq<PointCategory>, indices: seq<int>)
      requires IndicesOk(indices) && drawnStatesNeeded && CategoriesOk(e, cats) && SelectionsDefined(e, cats)
      ensures DrawOnly(StatesStamps(e, cats, indices))
      decreases |cats|
    {
      if cats != [] {
        var n := |cats| - 1;
        assert CategoriesOk(e, cats[..n]) && SelectionsDefined(e, cats[..n]);
        StatesStampsDrawOnly(e, cats[..n], indices);
        IndicesStampsDrawOnly(e, cats[n], indices);
        DrawOnlyConcat(StatesStamps(e, cats[..n], indices), CategoryStamps(e, cats[n], indices));
      }
    }

    lemma {:induction false} IndicesSymbolsDrawOnly(e: MapArgs, ps: PointSymbolizer, indices: seq<int>)
      requires IndicesOk(indices) && ScaleOk(e, Some(ps))
      ensures DrawOnly(IndicesSymbols(e, ps, indices))
      decreases |indices|
    {
      if indices != [] {
        var n := |indices| - 1;
        IndicesSymbolsDrawOnly(e, ps, indices[..n]);
        DrawOnlyConcat(IndicesSymbols(e, ps, indices[..n]), IndexSymbols(e, ps, indices[n]));
      }
    }

    /** An index pass only draws: it neither notifies nor swaps buffers. */
    lemma IndexPassDrawOnly(e: MapArgs, indices: seq<int>)
      requires PassOk(e, indices)
      ensures DrawOnly(IndexPass(e, indices))
    {
      if drawnStatesNeeded {
        StatesStampsDrawOnly(e, categories, indices);
      } else if !NothingWithoutStates() {
        IndicesSymbolsDrawOnly(e, fastSymbolizer(false, categories[0]).value, indices);
      }
    }

    lemma {:induction false} CategoryRunDrawOnly(e: MapArgs, category: PointCategory, features: seq<PointFeature>)
      requires filterStates.Some? && CategoryOk(e, category)
      ensures DrawOnly(CategoryRun(e, category, features).events)
      decreases |features|
    {
      if features != [] && FeatureSymbolizer(features[0], category).Some? {
        var ps := FeatureSymbolizer(features[0], category).value;
        CategoryRunDrawOnly(e, category, features[1..]);
        DrawOnlyConcat(FeatureEvents(e, ps, features[0]), CategoryRun(e, category, features[1..]).events);
      }
    }

    lemma {:induction false} FeaturePassFromDrawOnly(e: MapArgs, cats: seq<PointCategory>, features: seq<PointFeature>)
      requires filterStates.Some? && CategoriesOk(e, cats)
      ensures DrawOnly(FeaturePassFrom(e, cats, features))
      decreases |cats|
    {
      if cats != [] {
        var o := CategoryRun(e, cats[0], features);
        CategoryRunDrawOnly(e, cats[0], features);
        if !o.aborted {
          FeaturePassFromDrawOnly(e, cats[1..], features);
          DrawOnlyConcat(o.events, FeaturePassFrom(e, cats[1..], features));
        }
      }
    }

    /** A feature pass only draws: it neither notifies nor swaps buffers. */
    lemma FeaturePassDrawOnly(e: MapArgs, features: seq<PointFeature>)
      requires CategoriesOk(e, categories)
      ensures DrawOnly(FeaturePass(e, features))
    {
      if filterStates.Some? {
        FeaturePassFromDrawOnly(e, categories, features);
      }
    }

    // -------------------------------------------------------------------------
    // Chunked runs
    // -------------------------------------------------------------------------

    /** The feature passes over the first n of the slices `parts`, in order. */
    function FeatureChunkPasses(e: MapArgs, parts: seq<seq<PointFeature>>, n: nat): (ps: seq<seq<RenderEvent>>)
      requires n <= |parts| && CategoriesOk(e, categories)
      ensures |ps| == n
      decreases n
    {
      if n == 0 then [] else FeatureChunkPasses(e, parts, n - 1) + [FeaturePass(e, parts[n - 1])]
    }

    lemma {:induction false} FeatureChunkPassesAt(e: MapArgs, parts: seq<seq<PointFeature>>, n: nat, k: nat)
      requires k < n <= |parts| && CategoriesOk(e, categories)
      ensures FeatureChunkPasses(e, parts, n)[k] == FeaturePass(e, parts[k])
      decreases n
    {
      if k < n - 1 {
        FeatureChunkPassesAt(e, parts, n - 1, k);
      }
    }

    /** The k-th pass of a chunked feature-mode run is the feature pass over features.GetRange(k * ChunkSize, groupSize). */
    lemma FeatureChunkPassAt(e: MapArgs, features: seq<PointFeature>, k: nat)
      requires CategoriesOk(e, categories) && k < NumChunks(|features|, chunkSize)
      ensures var n := NumChunks(|features|, chunkSize);
              FeatureChunkPasses(e, Chunks(features, chunkSize, n), n)[k] == FeaturePass(e, ChunkAt(features, chunkSize, k))
    {
      var n := NumChunks(|features|, chunkSize);
      ChunksAt(features, chunkSize, n, k);
      FeatureChunkPassesAt(e, Chunks(features, chunkSize, n), n, k);
    }

    lemma FeatureChunkPassesDrawOnly(e: MapArgs, parts: seq<seq<PointFeature>>, n: nat)
      requires n <= |parts| && CategoriesOk(e, categories)
      ensures AllDrawOnly(FeatureChunkPasses(e, parts, n))
    {
      forall k | 0 <= k < n ensures DrawOnly(FeatureChunkPasses(e, parts, n)[k]) {
        FeatureChunkPassesAt(e, parts, n, k);
        FeaturePassDrawOnly(e, parts[k]);
      }
    }

    /**
     * A chunked feature-mode run (a list of ChunkSize features or more) swaps
     * the buffers and then raises BufferChanged once between each two
     * chunks: numChunks - 1 times each.
     */
    lemma FeatureRunCounts(e: MapArgs, features: seq<PointFeature>, clipRectangles: seq<Rect>)
      requires CategoriesOk(e, categories) && |features| >= chunkSize
      ensures var n := NumChunks(|features|, chunkSize);
              var run := ChunkRun(FeatureChunkPasses(e, Chunks(features, chunkSize, n), n), n,
                                  [DrawingFinished, BufferChanged(clipRectangles)]);
              CountFinished(run) == n - 1 && CountChanged(run) == n - 1
    {
      var n := NumChunks(|features|, chunkSize);
      var parts := Chunks(features, chunkSize, n);
      FeatureChunkPassesDrawOnly(e, parts, n);
      SwapSeparatorRunCount(FeatureChunkPasses(e, parts, n), clipRectangles);
    }

    /** The index pass over one slice; a slice the layer could not draw gets no events. */
    function IndexChunkPass(e: MapArgs, part: seq<int>): seq<RenderEvent>
    {
      if PassOk(e, part) then IndexPass(e, part) else []
    }

    /** The index passes over the first n of the slices `parts`, in order. */
    function IndexChunkPasses(e: MapArgs, parts: seq<seq<int>>, n: nat): (ps: seq<seq<RenderEvent>>)
      requires n <= |parts|
      ensures |ps| == n
      decreases n
    {
      if n == 0 then [] else IndexChunkPasses(e, parts, n - 1) + [IndexChunkPass(e, parts[n - 1])]
    }

    lemma {:induction false} IndexChunkPassesAt(e: MapArgs, parts: seq<seq<int>>, n: nat, k: nat)
      requires k < n <= |parts|
      ensures IndexChunkPasses(e, parts, n)[k] == IndexChunkPass(e, parts[k])
      decreases n
    {
      if k < n - 1 {
        IndexChunkPassesAt(e, parts, n - 1, k);
      }
    }

    /** Every slice of a drawable index list is drawable. */
    lemma IndexChunkOk(e: MapArgs, indices: seq<int>, k: nat)
      requires PassOk(e, indices) && k < NumChunks(|indices|, chunkSize)
      ensures PassOk(e, ChunkAt(indices, chunkSize, k))
    {
      IndicesChunkOk(indices, k);
    }

    lemma IndicesChunkOk(indices: seq<int>, k: nat)
      requires IndicesOk(indices) && k < NumChunks(|indices|, chunkSize)
      ensures IndicesOk(ChunkAt(indices, chunkSize, k))
    {
      var c := ChunkAt(indices, chunkSize, k);
      forall j | 0 <= j < |c| ensures IndexOk(c[j]) {
        var i := ChunkStart(chunkSize, k) + j;
        assert IndexOk(indices[i]);
        assert c[j] == indices[i];
      }
    }

    /** The k-th pass of a chunked index-mode run is the index pass over indices.GetRange(k * ChunkSize, numFeatures). */
    lemma IndexChunkPassAt(e: MapArgs, indices: seq<int>, k: nat)
      requires PassOk(e, indices) && k < NumChunks(|indices|, chunkSize)
      ensures PassOk(e, ChunkAt(indices, chunkSize, k))
      ensures var n := NumChunks(|indices|, chunkSize);
              IndexChunkPasses(e, Chunks(indices, chunkSize, n), n)[k] == IndexPass(e, ChunkAt(indices, chunkSize, k))
    {
      var n := NumChunks(|indices|, chunkSize);
      ChunksAt(indices, chunkSize, n, k);
      IndexChunkOk(e, indices, k);
      IndexChunkPassesAt(e, Chunks(indices, chunkSize, n), n, k);
    }

    lemma IndexChunkPassesDrawOnly(e: MapArgs, parts: seq<seq<int>>, n: nat)
      requires n <= |parts|
      ensures AllDrawOnly(IndexChunkPasses(e, parts, n))
    {
      forall k | 0 <= k < n ensures DrawOnly(IndexChunkPasses(e, parts, n)[k]) {
        IndexChunkPassesAt(e, parts, n, k);
        if PassOk(e, parts[k]) {
          IndexPassDrawOnly(e, parts[k]);
        }
      }
    }

    /**
     * A chunked index-mode run raises BufferChanged numChunks - 1 times and
     * never swaps the buffers; an empty list draws nothing at all.
     */
    lemma IndexRunCounts(e: MapArgs, indices: seq<int>, clipRectangles: seq<Rect>)
      ensures var n := NumChunks(|indices|, chunkSize);
              var run := ChunkRun(IndexChunkPasses(e, Chunks(indices, chunkSize, n), n), n, [BufferChanged(clipRectangles)]);
              && (indices != [] ==> CountChanged(run) == n - 1 && CountFinished(run) == 0)
              && (indices == [] ==> run == [])
    {
      var n := NumChunks(|indices|, chunkSize);
      var parts := Chunks(indices, chunkSize, n);
      IndexChunkPassesDrawOnly(e, parts, n);
      if indices != [] {
        SeparatorRunCount(IndexChunkPasses(e, parts, n), clipRectangles);
      }
    }

    /**
     * One chunk of the chunked feature-mode run: the feature pass over that
     * slice, then FinishDrawing and OnBufferChanged unless it is the last
     * chunk.
     */
    method DrawFeatureChunk(e: MapArgs, features: seq<PointFeature>, ghost parts: seq<seq<PointFeature>>, chunk: nat,
                            clipRectangles: seq<Rect>, ghost start: seq<RenderEvent>, g: RenderLog)
      requires chunk < NumChunks(|features|, chunkSize) && CategoriesOk(e, categories)
      requires parts == Chunks(features, chunkSize, NumChunks(|features|, chunkSize))
      requires g.events == start + ChunkRun(FeatureChunkPasses(e, parts, chunk), NumChunks(|features|, chunkSize),
                                            [DrawingFinished, BufferChanged(clipRectangles)])
      modifies this, g, if buffer != null && buffer != backBuffer then {buffer} else {}
      ensures backBuffer == old(backBuffer) && bufferRectangle == old(bufferRectangle)
      ensures buffer == if chunk < NumChunks(|features|, chunkSize) - 1 then old(backBuffer) else old(buffer)
      ensures chunk < NumChunks(|features|, chunkSize) - 1 && old(buffer) != null && old(buffer) != old(backBuffer) ==>
                old(buffer).disposed
      ensures g.events == start + ChunkRun(FeatureChunkPasses(e, parts, chunk + 1), NumChunks(|features|, chunkSize),
                                           [DrawingFinished, BufferChanged(clipRectangles)])
    {
      var numChunks := NumChunks(|features|, chunkSize);
      var subset := ChunkAt(features, chunkSize, chunk);
      ChunksAt(features, chunkSize, numChunks, chunk);
      ghost var separator := [DrawingFinished, BufferChanged(clipRectangles)];
      ghost var done := FeatureChunkPasses(e, parts, chunk);
      ghost var pass := FeaturePass(e, subset);
      assert FeatureChunkPasses(e, parts, chunk + 1) == done + [pass];
      ghost var before := g.events;
      DrawFeaturePass(e, subset, g);
      if chunk < numChunks - 1 {
        FinishDrawing(g);
        g.Emit(BufferChanged(clipRectangles));
      }
      ghost var tail := if chunk < numChunks - 1 then separator else [];
      assert g.events == before + pass + tail;
      ChunkRunAppend(start, done, pass, numChunks, separator, before, g.events);
    }

    /**
     * DrawFeatures(args, features, clipRectangles): fewer than ChunkSize
     * features are drawn in one pass with no swap and no notification;
     * otherwise one pass per slice of ChunkSize features, the back buffer
     * becoming the front buffer and BufferChanged being raised between each
     * two slices.
     */
    method DrawFeaturesChunked(e: MapArgs, features: seq<PointFeature>, clipRectangles: seq<Rect>, g: RenderLog)
      requires CategoriesOk(e, categories)
      modifies this, g, if buffer != null && buffer != backBuffer then {buffer} else {}
      ensures backBuffer == old(backBuffer) && bufferRectangle == old(bufferRectangle)
      ensures |features| < chunkSize ==> buffer == old(buffer) && g.events == old(g.events) + FeaturePass(e, features)
      ensures |features| >= chunkSize ==>
                var n := NumChunks(|features|, chunkSize);
                && g.events == old(g.events) + ChunkRun(FeatureChunkPasses(e, Chunks(features, chunkSize, n), n), n,
                                                        [DrawingFinished, BufferChanged(clipRectangles)])
                && buffer == (if n > 1 then old(backBuffer) else old(buffer))
                && (n > 1 && old(buffer) != null && old(buffer) != old(backBuffer) ==> old(buffer).disposed)
    {
      if |features| < chunkSize {
        DrawFeaturePass(e, features, g);
      } else {
        DrawFeatureChunks(e, features, clipRectangles, g);
      }
    }

    /** The chunked branch of DrawFeatures(args, features, clipRectangles). */
    method DrawFeatureChunks(e: MapArgs, features: seq<PointFeature>, clipRectangles: seq<Rect>, g: RenderLog)
      requires CategoriesOk(e, categories)
      modifies this, g, if buffer != null && buffer != backBuffer then {buffer} else {}
      ensures backBuffer == old(backBuffer) && bufferRectangle == old(bufferRectangle)
      ensures var n := NumChunks(|features|, chunkSize);
              && g.events == old(g.events) + ChunkRun(FeatureChunkPasses(e, Chunks(features, chunkSize, n), n), n,
                                                      [DrawingFinished, BufferChanged(clipRectangles)])
              && buffer == (if n > 1 then old(backBuffer) else old(buffer))
              && (n > 1 && old(buffer) != null && old(buffer) != old(backBuffer) ==> old(buffer).disposed)
    {
      var count := |features|;
      var numChunks := NumChunks(count, chunkSize);
      ghost var parts := Chunks(features, chunkSize, numChunks);
      assert g.events == old(g.events) + [];
      var chunk := 0;
      while chunk < numChunks
        invariant 0 <= chunk <= numChunks
        invariant backBuffer == old(backBuffer) && bufferRectangle == old(bufferRectangle)
        invariant buffer == if chunk > 0 && numChunks > 1 then old(backBuffer) else old(buffer)
        invariant chunk > 0 && numChunks > 1 && old(buffer) != null && old(buffer) != old(backBuffer) ==> old(buffer).disposed
        invariant g.events == old(g.events) + ChunkRun(FeatureChunkPasses(e, parts, chunk), numChunks,
                                                       [DrawingFinished, BufferChanged(clipRectangles)])
      {
        DrawFeatureChunk(e, features, parts, chunk, clipRectangles, old(g.events), g);
        chunk := chunk + 1;
      }
      assert chunk == numChunks;
    }

    /** One chunk of the chunked index-mode run: the index pass over that slice, then OnBufferChanged unless it is the last. */
    method DrawIndexChunk(e: MapArgs, indices: seq<int>, ghost parts: seq<seq<int>>, chunk: nat, clipRectangles: seq<Rect>,
                          ghost start: seq<RenderEvent>, g: RenderLog)
      requires PassOk(e, indices) && chunk < NumChunks(|indices|, chunkSize)
      requires parts == Chunks(indices, chunkSize, NumChunks(|indices|, chunkSize))
      requires g.events == start + ChunkRun(IndexChunkPasses(e, parts, chunk), NumChunks(|indices|, chunkSize),
                                            [BufferChanged(clipRectangles)])
      modifies g
      ensures g.events == start + ChunkRun(IndexChunkPasses(e, parts, chunk + 1), NumChunks(|indices|, chunkSize),
                                           [BufferChanged(clipRectangles)])
    {
      var numChunks := NumChunks(|indices|, chunkSize);
      var part := ChunkAt(indices, chunkSize, chunk);
      ChunksAt(indices, chunkSize, numChunks, chunk);
      IndexChunkOk(e, indices, chunk);
      ghost var separator := [BufferChanged(clipRectangles)];
      ghost var done := IndexChunkPasses(e, parts, chunk);
      ghost var pass := IndexPass(e, part);
      assert IndexChunkPasses(e, parts, chunk + 1) == done + [pass];
      ghost var before := g.events;
      DrawIndexPass(e, part, g);
      if chunk < numChunks - 1 {
        g.Emit(BufferChanged(clipRectangles));
      }
      ghost var tail := if chunk < numChunks - 1 then separator else [];
      assert g.events == before + pass + tail;
      ChunkRunAppend(start, done, pass, numChunks, separator, before, g.events);
    }

    /**
     * DrawFeatures(args, indices, clipRectangles): always in slices of
     * ChunkSize indices, with BufferChanged between each two slices and no
     * buffer swap.
     */
    method DrawIndicesChunked(e: MapArgs, indices: seq<int>, clipRectangles: seq<Rect>, g: RenderLog)
      requires PassOk(e, indices)
      modifies g
      ensures var n := NumChunks(|indices|, chunkSize);
              g.events == old(g.events) + ChunkRun(IndexChunkPasses(e, Chunks(indices, chunkSize, n), n), n,
                                                   [BufferChanged(clipRectangles)])
    {
      var numChunks := NumChunks(|indices|, chunkSize);
      ghost var parts := Chunks(indices, chunkSize, numChunks);
      assert g.events == old(g.events) + [];
      var chunk := 0;
      while chunk < numChunks
        invariant 0 <= chunk <= numChunks
        invariant g.events == old(g.events) + ChunkRun(IndexChunkPasses(e, parts, chunk), numChunks,
                                                       [BufferChanged(clipRectangles)])
      {
        DrawIndexChunk(e, indices, parts, chunk, clipRectangles, old(g.events), g);
        chunk := chunk + 1;
      }
    }
  }

  /** A symbol under one pixel wide or high at this scale, for which DrawCategory gives up. */
  predicate TooSmall(size: PointSymbolizer, scale: real)
  {
    size.width * scale < 1.0 || size.height * scale < 1.0
  }

  /** The category's bitmap, normal or selected, stamped at each pixel. */
  function Stamps(category: PointCategory, selected: bool, pts: seq<Point>): (es: seq<RenderEvent>)
    ensures |es| == |pts|
    ensures forall k :: 0 <= k < |es| ==> es[k] == SymbolStamp(category, selected, pts[k])
  {
    seq(|pts|, k requires 0 <= k < |pts| => SymbolStamp(category, selected, pts[k]))
  }

  /** The symbolizer drawn at each pixel at one scale. */
  function Symbols(ps: PointSymbolizer, scale: real, pts: seq<Point>): (es: seq<RenderEvent>)
    ensures |es| == |pts|
    ensures forall k :: 0 <= k < |es| ==> es[k] == PointSymbol(ps, pts[k], scale)
  {
    seq(|pts|, k requires 0 <= k < |pts| => PointSymbol(ps, pts[k], scale))
  }
}
