/**
 * MapLineLayer: which shapes a redraw covers, which of them each pass over the
 * categories draws, and the order of passes and chunks. A pass runs
 * selectState 0 (unselected) before 1 (selected) and the categories in
 * symbology order, building one GraphicsPath per category and stroking it with
 * every stroke of the chosen symbolizer.
 */
module MapLineLayer {
  import opened Geometry
  import opened Sequences
  import opened Symbology
  import opened Rendering
  import opened ShapeParts
  import opened LineLayerHelper
  import opened Chunking

  // ---------------------------------------------------------------------------
  // CreateIndiceList
  // ---------------------------------------------------------------------------

  /** Some region of the list meets the extent. */
  predicate MeetsAny(e: Extent, regions: seq<Extent>)
  {
    exists r :: 0 <= r < |regions| && Intersects(e, regions[r])
  }

  /** The indices below n of the shapes that meet some region, in ascending order. */
  function ShapesInRegions(shapes: seq<ShapeRange>, regions: seq<Extent>, n: nat): seq<int>
    requires n <= |shapes|
    decreases n
  {
    if n == 0 then []
    else ShapesInRegions(shapes, regions, n - 1) + (if MeetsAny(shapes[n - 1].extent, regions) then [n - 1] else [])
  }

  lemma {:induction false} ShapesInRegionsSpec(shapes: seq<ShapeRange>, regions: seq<Extent>, n: nat)
    requires n <= |shapes|
    ensures StrictlyIncreasing(ShapesInRegions(shapes, regions, n))
    ensures forall i :: i in ShapesInRegions(shapes, regions, n) <==> 0 <= i < n && MeetsAny(shapes[i].extent, regions)
    decreases n
  {
    if n > 0 {
      ShapesInRegionsSpec(shapes, regions, n - 1);
      var before := ShapesInRegions(shapes, regions, n - 1);
      if MeetsAny(shapes[n - 1].extent, regions) {
        var s := before + [n - 1];
        forall i, j | 0 <= i < j < |s| ensures s[i] < s[j] {
          if j == |s| - 1 {
            assert s[i] in before;
          }
        }
      }
    }
  }

  /**
   * CreateIndiceList: every shape index, in ascending order and once, whose
   * extent meets at least one of the regions.
   */
  method CreateIndiceList(shapes: seq<ShapeRange>, regions: seq<Extent>) returns (drawList: seq<int>)
    ensures drawList == ShapesInRegions(shapes, regions, |shapes|)
    ensures StrictlyIncreasing(drawList)
    ensures forall i :: i in drawList <==> 0 <= i < |shapes| && MeetsAny(shapes[i].extent, regions)
  {
    drawList := [];
    var shp := 0;
    while shp < |shapes|
      invariant 0 <= shp <= |shapes|
      invariant drawList == ShapesInRegions(shapes, regions, shp)
    {
      var r := 0;
      while r < |regions|
        invariant 0 <= r <= |regions|
        invariant drawList == ShapesInRegions(shapes, regions, shp)
        invariant forall j :: 0 <= j < r ==> !Intersects(shapes[shp].extent, regions[j])
      {
        if Intersects(shapes[shp].extent, regions[r]) {
          drawList := drawList + [shp];
          break;
        }
        r := r + 1;
      }
      shp := shp + 1;
    }
    ShapesInRegionsSpec(shapes, regions, |shapes|);
  }

  // ---------------------------------------------------------------------------
  // FilterFeaturesToDraw and IsMember
  // ---------------------------------------------------------------------------

  /** IsMember (and the index-mode test): the state's category, visible, and selected exactly in pass 1. */
  predicate IsMember(state: DrawnState<LineCategory>, category: LineCategory, selectState: int)
  {
    state.category == Some(category) && state.visible && state.selected == (selectState == Selected)
  }

  /** A state belongs to at most one (category, selectState) pass. */
  lemma IsMemberExclusive(state: DrawnState<LineCategory>, c1: LineCategory, s1: int, c2: LineCategory, s2: int)
    requires IsMember(state, c1, s1) && IsMember(state, c2, s2)
    ensures c1 == c2 && (s1 == Selected <==> s2 == Selected)
  {
  }

  predicate IndicesIn(indices: seq<int>, n: int)
  {
    forall k :: 0 <= k < |indices| ==> 0 <= indices[k] < n
  }

  /** The indices, in list order, whose state is a member of the pass. */
  function Members(indices: seq<int>, states: seq<DrawnState<LineCategory>>, category: LineCategory, selectState: int)
    : (r: seq<int>)
    requires IndicesIn(indices, |states|)
    ensures forall k :: 0 <= k < |r| ==> r[k] in indices
    decreases |indices|
  {
    if indices == [] then []
    else
      var rest := Members(indices[1..], states, category, selectState);
      if IsMember(states[indices[0]], category, selectState) then [indices[0]] + rest else rest
  }

  /**
   * The pass keeps an order-preserving subsequence of the indices, holding
   * exactly those whose state is a member.
   */
  lemma {:induction false} MembersSpec(indices: seq<int>, states: seq<DrawnState<LineCategory>>, category: LineCategory,
                                       selectState: int)
    requires IndicesIn(indices, |states|)
    ensures IsSubsequence(Members(indices, states, category, selectState), indices)
    ensures forall i :: i in Members(indices, states, category, selectState) <==>
                          i in indices && 0 <= i < |states| && IsMember(states[i], category, selectState)
    decreases |indices|
  {
    if indices != [] {
      MembersSpec(indices[1..], states, category, selectState);
      var rest := Members(indices[1..], states, category, selectState);
      assert indices == [indices[0]] + indices[1..];
      if IsMember(states[indices[0]], category, selectState) {
        SubsequenceCons(indices[0], rest, indices[1..]);
      } else {
        SubsequenceSkip(indices[0], rest, indices[1..]);
      }
    }
  }

  /** Two different passes never draw the same index. */
  lemma PassesDisjoint(indices: seq<int>, states: seq<DrawnState<LineCategory>>, c1: LineCategory, s1: int,
                       c2: LineCategory, s2: int)
    requires IndicesIn(indices, |states|)
    requires c1 != c2 || (s1 == Selected) != (s2 == Selected)
    ensures forall i :: i in Members(indices, states, c1, s1) ==> i !in Members(indices, states, c2, s2)
  {
    MembersSpec(indices, states, c1, s1);
    MembersSpec(indices, states, c2, s2);
  }

  /** FilterFeaturesToDraw (index mode): the members of the pass, in index order. */
  method FilterFeaturesToDraw(indices: seq<int>, states: seq<DrawnState<LineCategory>>, lineCategory: LineCategory,
                              selectedIndice: int) returns (drawnFeatures: seq<int>)
    requires IndicesIn(indices, |states|)
    ensures drawnFeatures == Members(indices, states, lineCategory, selectedIndice)
  {
    drawnFeatures := [];
    var i := 0;
    while i < |indices|
      invariant 0 <= i <= |indices|
      invariant drawnFeatures + Members(indices[i..], states, lineCategory, selectedIndice) ==
                Members(indices, states, lineCategory, selectedIndice)
    {
      assert indices[i..][1..] == indices[i + 1..];
      var index := indices[i];
      var state := states[index];
      if state.category == Some(lineCategory) && state.selected == (selectedIndice == Selected) && state.visible {
        drawnFeatures := drawnFeatures + [index];
      }
      i := i + 1;
    }
  }

  /** A feature of the line feature set with its shape range (IFeature.ShapeIndex). */
  datatype LineFeature = LineFeature(id: nat, shape: ShapeRange)

  /** FilterFeaturesToDraw (feature mode): the features whose drawing-filter state is a member, in list order. */
  function FeatureMembers(features: seq<LineFeature>, filter: map<LineFeature, DrawnState<LineCategory>>,
                          category: LineCategory, selectState: int): (r: seq<LineFeature>)
    requires forall k :: 0 <= k < |features| ==> features[k] in filter
    ensures forall k :: 0 <= k < |r| ==> r[k] in features
    decreases |features|
  {
    if features == [] then []
    else
      var rest := FeatureMembers(features[1..], filter, category, selectState);
      if IsMember(filter[features[0]], category, selectState) then [features[0]] + rest else rest
  }

  lemma {:induction false} FeatureMembersSpec(features: seq<LineFeature>, filter: map<LineFeature, DrawnState<LineCategory>>,
                                              category: LineCategory, selectState: int)
    requires forall k :: 0 <= k < |features| ==> features[k] in filter
    ensures IsSubsequence(FeatureMembers(features, filter, category, selectState), features)
    ensures forall f :: f in FeatureMembers(features, filter, category, selectState) <==>
                          f in features && f in filter && IsMember(filter[f], category, selectState)
    decreases |features|
  {
    if features != [] {
      FeatureMembersSpec(features[1..], filter, category, selectState);
      var rest := FeatureMembers(features[1..], filter, category, selectState);
      assert features == [features[0]] + features[1..];
      if IsMember(filter[features[0]], category, selectState) {
        SubsequenceCons(features[0], rest, features[1..]);
      } else {
        SubsequenceSkip(features[0], rest, features[1..]);
      }
    }
  }

  // ---------------------------------------------------------------------------
  // Paths and strokes
  // ---------------------------------------------------------------------------

  /** A shape BuildLineString can take: every part inside the vertex array. */
  predicate ShapeOk(s: ShapeRange, numValues: int)
  {
    forall i :: 0 <= i < |s.parts| ==>
      IndicesInBounds(s.parts[i], numValues) && s.parts[i].startIndex <= s.parts[i].endIndex + 1
  }

  predicate ShapesOk(shapes: seq<ShapeRange>, numValues: int)
  {
    forall k :: 0 <= k < |shapes| ==> ShapeOk(shapes[k], numValues)
  }

  function ShapesAt(shapes: seq<ShapeRange>, idx: seq<int>): (r: seq<ShapeRange>)
    requires IndicesIn(idx, |shapes|)
    ensures |r| == |idx| && forall k :: 0 <= k < |idx| ==> r[k] == shapes[idx[k]]
  {
    seq(|idx|, k requires 0 <= k < |idx| => shapes[idx[k]])
  }

  function ShapesOf(features: seq<LineFeature>): (r: seq<ShapeRange>)
    ensures |r| == |features| && forall k :: 0 <= k < |features| ==> r[k] == features[k].shape
  {
    seq(|features|, k requires 0 <= k < |features| => features[k].shape)
  }

  /** The figures of a path built from the shapes in order: each shape's line figures after the previous ones. */
  function PathFigures(vertices: seq<Num>, shapes: seq<ShapeRange>, args: MapArgs, clipRect: Rect, clip: LineClipper)
    : seq<seq<Point>>
    requires ShapesOk(shapes, |vertices|)
    decreases |shapes|
  {
    if shapes == [] then []
    else
      var n := |shapes| - 1;
      PathFigures(vertices, shapes[..n], args, clipRect, clip) +
      LineFigures(vertices, shapes[n].parts, shapes[n].extent, args, clipRect, clip)
  }

  /** The figures of one more shape follow those of the shapes before it. */
  lemma PathFiguresStep(vertices: seq<Num>, shapes: seq<ShapeRange>, i: nat, args: MapArgs, clipRect: Rect, clip: LineClipper)
    requires ShapesOk(shapes, |vertices|) && i < |shapes|
    ensures ShapesOk(shapes[..i], |vertices|) && ShapesOk(shapes[..i + 1], |vertices|)
    ensures PathFigures(vertices, shapes[..i + 1], args, clipRect, clip) ==
            PathFigures(vertices, shapes[..i], args, clipRect, clip) +
            LineFigures(vertices, shapes[i].parts, shapes[i].extent, args, clipRect, clip)
  {
    var done := shapes[..i + 1];
    assert done[..i] == shapes[..i] && done[i] == shapes[i];
  }

  /** Every figure of such a path has two pixels or more and no repeated neighbour. */
  lemma {:induction false} PathFiguresWellFormed(vertices: seq<Num>, shapes: seq<ShapeRange>, args: MapArgs, clipRect: Rect,
                                                 clip: LineClipper)
    requires ShapesOk(shapes, |vertices|)
    ensures WellFormedFigures(PathFigures(vertices, shapes, args, clipRect, clip))
    decreases |shapes|
  {
    if shapes != [] {
      var n := |shapes| - 1;
      PathFiguresWellFormed(vertices, shapes[..n], args, clipRect, clip);
      LineFiguresWellFormed(vertices, shapes[n].parts, shapes[n].extent, args, clipRect, clip);
    }
  }

  /** One DrawPath call per stroke of the symbolizer, in stroke order, all on the same path and scale. */
  function StrokeEvents(ls: LineSymbolizer, figures: seq<seq<Point>>, scale: real): (es: seq<RenderEvent>)
    ensures |es| == |ls.strokes|
    ensures forall k :: 0 <= k < |es| ==> es[k] == StrokePath(ls.strokes[k], figures, scale)
  {
    seq(|ls.strokes|, k requires 0 <= k < |ls.strokes| => StrokePath(ls.strokes[k], figures, scale))
  }

  /** DefineScale is defined for every symbolizer of the categories. */
  predicate ScalesDefined(e: MapArgs, categories: seq<LineCategory>)
  {
    ExtentWidth(e.geoExtent) != 0.0 ||
    forall k :: 0 <= k < |categories| ==>
      categories[k].symbolizer.scaleMode != Geographic && categories[k].selectionSymbolizer.scaleMode != Geographic
  }

  lemma ScaleOfCategory(e: MapArgs, categories: seq<LineCategory>, k: int, selectState: int)
    requires ScalesDefined(e, categories) && 0 <= k < |categories|
    ensures CreateLineSymbolizer(categories[k], selectState).scaleMode == Geographic ==> ExtentWidth(e.geoExtent) != 0.0
  {
  }

  /** What one category pass draws: the path of the given shapes, stroked with every stroke of ls. */
  function CategoryEvents(vertices: seq<Num>, clip: LineClipper, e: MapArgs, ls: LineSymbolizer, drawn: seq<ShapeRange>)
    : seq<RenderEvent>
    requires ShapesOk(drawn, |vertices|)
    requires ls.scaleMode == Geographic ==> ExtentWidth(e.geoExtent) != 0.0
  {
    StrokeEvents(ls, PathFigures(vertices, drawn, e, ComputeClippingRectangle(e, ls), clip), DefineScale(e, ls.scaleMode))
  }

  /** Which features a pass draws: by index through the fast drawn states, or by feature through the drawing filter. */
  datatype Selection =
    | ByIndex(indices: seq<int>, states: seq<DrawnState<LineCategory>>)
    | ByFeature(features: seq<LineFeature>, filter: map<LineFeature, DrawnState<LineCategory>>)

  /** The selection can be evaluated against a layer with these shapes and vertices. */
  predicate SelectionOk(sel: Selection, shapes: seq<ShapeRange>, numValues: int)
  {
    match sel
    case ByIndex(indices, states) =>
      IndicesIn(indices, |states|) && IndicesIn(indices, |shapes|) && ShapesOk(shapes, numValues)
    case ByFeature(features, filter) =>
      forall k :: 0 <= k < |features| ==> features[k] in filter && ShapeOk(features[k].shape, numValues)
  }

  /** The shapes a (category, selectState) pass draws, in list order. */
  function PassShapes(sel: Selection, shapes: seq<ShapeRange>, numValues: int, category: LineCategory, selectState: int)
    : (r: seq<ShapeRange>)
    requires SelectionOk(sel, shapes, numValues)
    ensures ShapesOk(r, numValues)
  {
    match sel
    case ByIndex(indices, states) =>
      var m := Members(indices, states, category, selectState);
      assert IndicesIn(m, |shapes|);
      ShapesAt(shapes, m)
    case ByFeature(features, filter) =>
      var m := FeatureMembers(features, filter, category, selectState);
      assert forall k :: 0 <= k < |m| ==> ShapeOk(m[k].shape, numValues) by {
        forall k | 0 <= k < |m| ensures ShapeOk(m[k].shape, numValues) {
          var j :| 0 <= j < |features| && features[j] == m[k];
        }
      }
      ShapesOf(m)
  }

  /** The events of one selectState over the given categories, in symbology order. */
  function SelectStateEvents(vertices: seq<Num>, shapes: seq<ShapeRange>, clip: LineClipper, e: MapArgs, sel: Selection,
                             categories: seq<LineCategory>, selectState: int): seq<RenderEvent>
    requires SelectionOk(sel, shapes, |vertices|) && ScalesDefined(e, categories)
    decreases |categories|
  {
    if categories == [] then []
    else
      var n := |categories| - 1;
      assert ScalesDefined(e, categories[..n]);
      ScaleOfCategory(e, categories, n, selectState);
      SelectStateEvents(vertices, shapes, clip, e, sel, categories[..n], selectState) +
      CategoryEvents(vertices, clip, e, CreateLineSymbolizer(categories[n], selectState),
                     PassShapes(sel, shapes, |vertices|, categories[n], selectState))
  }

  /** Every event is a DrawPath call on a path whose figures are well formed. */
  predicate StrokesWellFormed(es: seq<RenderEvent>)
  {
    forall k :: 0 <= k < |es| ==> es[k].StrokePath? && WellFormedFigures(es[k].figures)
  }

  /** Drawing one more category appends that category's pass. */
  lemma SelectStateEventsStep(vertices: seq<Num>, shapes: seq<ShapeRange>, clip: LineClipper, e: MapArgs, sel: Selection,
                              categories: seq<LineCategory>, k: int, selectState: int)
    requires SelectionOk(sel, shapes, |vertices|) && ScalesDefined(e, categories) && 0 <= k < |categories|
    ensures ScalesDefined(e, categories[..k]) && ScalesDefined(e, categories[..k + 1])
    ensures CreateLineSymbolizer(categories[k], selectState).scaleMode == Geographic ==> ExtentWidth(e.geoExtent) != 0.0
    ensures SelectStateEvents(vertices, shapes, clip, e, sel, categories[..k + 1], selectState) ==
            SelectStateEvents(vertices, shapes, clip, e, sel, categories[..k], selectState) +
            CategoryEvents(vertices, clip, e, CreateLineSymbolizer(categories[k], selectState),
                           PassShapes(sel, shapes, |vertices|, categories[k], selectState))
  {
    assert categories[..k + 1][..k] == categories[..k];
    ScaleOfCategory(e, categories, k, selectState);
  }

  /** Only DrawPath calls: a pass never notifies or swaps buffers. */
  lemma {:induction false} SelectStateEventsDrawOnly(vertices: seq<Num>, shapes: seq<ShapeRange>, clip: LineClipper, e: MapArgs,
                                                     sel: Selection, categories: seq<LineCategory>, selectState: int)
    requires SelectionOk(sel, shapes, |vertices|) && ScalesDefined(e, categories)
    ensures DrawOnly(SelectStateEvents(vertices, shapes, clip, e, sel, categories, selectState))
    ensures StrokesWellFormed(SelectStateEvents(vertices, shapes, clip, e, sel, categories, selectState))
    decreases |categories|
  {
    if categories != [] {
      var n := |categories| - 1;
      assert ScalesDefined(e, categories[..n]);
      ScaleOfCategory(e, categories, n, selectState);
      SelectStateEventsDrawOnly(vertices, shapes, clip, e, sel, categories[..n], selectState);
      var ls := CreateLineSymbolizer(categories[n], selectState);
      var drawn := PassShapes(sel, shapes, |vertices|, categories[n], selectState);
      var done := SelectStateEvents(vertices, shapes, clip, e, sel, categories[..n], selectState);
      var pass := CategoryEvents(vertices, clip, e, ls, drawn);
      CategoryEventsDrawOnly(vertices, clip, e, ls, drawn);
      DrawOnlyConcat(done, pass);
      StrokesConcat(done, pass);
    }
  }

  /** One category pass is only DrawPath calls, each on well-formed figures. */
  lemma CategoryEventsDrawOnly(vertices: seq<Num>, clip: LineClipper, e: MapArgs, ls: LineSymbolizer, drawn: seq<ShapeRange>)
    requires ShapesOk(drawn, |vertices|)
    requires ls.scaleMode == Geographic ==> ExtentWidth(e.geoExtent) != 0.0
    ensures DrawOnly(CategoryEvents(vertices, clip, e, ls, drawn))
    ensures StrokesWellFormed(CategoryEvents(vertices, clip, e, ls, drawn))
  {
    PathFiguresWellFormed(vertices, drawn, e, ComputeClippingRectangle(e, ls), clip);
  }

  lemma StrokesConcat(a: seq<RenderEvent>, b: seq<RenderEvent>)
    requires StrokesWellFormed(a) && StrokesWellFormed(b)
    ensures StrokesWellFormed(a + b)
  {
    forall k | 0 <= k < |a + b| ensures (a + b)[k].StrokePath? && WellFormedFigures((a + b)[k].figures) {
      if k >= |a| {
        assert (a + b)[k] == b[k - |a|];
      }
    }
  }

  // ---------------------------------------------------------------------------
  // Whole passes
  // ---------------------------------------------------------------------------

  /** indices.Max(). */
  function MaxOf(s: seq<int>): (m: int)
    requires s != []
    ensures m in s && forall k :: 0 <= k < |s| ==> s[k] <= m
    decreases |s|
  {
    if |s| == 1 then s[0] else var t := MaxOf(s[1..]); if s[0] < t then t else s[0]
  }

  /** The states an index pass filters with: rebuilt by AssignFastDrawnStates when an index falls beyond them. */
  function EffectiveStates(states: seq<DrawnState<LineCategory>>, rebuilt: seq<DrawnState<LineCategory>>, indices: seq<int>)
    : seq<DrawnState<LineCategory>>
    requires indices != []
  {
    if MaxOf(indices) >= |states| then rebuilt else states
  }

  /** The states are rebuilt exactly when some index falls beyond them, and kept when all indices fit. */
  lemma EffectiveStatesRule(states: seq<DrawnState<LineCategory>>, rebuilt: seq<DrawnState<LineCategory>>, indices: seq<int>)
    requires indices != []
    ensures (exists k :: 0 <= k < |indices| && indices[k] >= |states|) ==> EffectiveStates(states, rebuilt, indices) == rebuilt
    ensures (forall k :: 0 <= k < |indices| ==> indices[k] < |states|) ==> EffectiveStates(states, rebuilt, indices) == states
  {
    var m := MaxOf(indices);
    if exists k :: 0 <= k < |indices| && indices[k] >= |states| {
      var k :| 0 <= k < |indices| && indices[k] >= |states|;
      assert indices[k] <= m;
    } else {
      assert m in indices;
    }
  }

  /** The layer's states after an index pass over `indices`. */
  function NextStates(needed: bool, states: seq<DrawnState<LineCategory>>, rebuilt: seq<DrawnState<LineCategory>>,
                      indices: seq<int>): seq<DrawnState<LineCategory>>
  {
    if needed && indices != [] then EffectiveStates(states, rebuilt, indices) else states
  }

  /** What an index pass needs: valid shapes, defined scales, and every index inside the arrays it reads. */
  predicate IndexPassOk(vertices: seq<Num>, shapes: seq<ShapeRange>, categories: seq<LineCategory>, e: MapArgs,
                        indices: seq<int>, needed: bool, states: seq<DrawnState<LineCategory>>,
                        rebuilt: seq<DrawnState<LineCategory>>)
  {
    && ShapesOk(shapes, |vertices|) && IndicesIn(indices, |shapes|) && ScalesDefined(e, categories)
    && (needed ==> indices != [] && IndicesIn(indices, |EffectiveStates(states, rebuilt, indices)|))
    && (!needed ==> |categories| > 0)
  }

  /**
   * DrawFeatures(e, indices): with drawn states, every (selectState,
   * category) pass, unselected first; without, a single pass of the first
   * category's normal symbolizer over every index.
   */
  function IndexPass(vertices: seq<Num>, shapes: seq<ShapeRange>, categories: seq<LineCategory>, clip: LineClipper,
                     e: MapArgs, indices: seq<int>, needed: bool, states: seq<DrawnState<LineCategory>>,
                     rebuilt: seq<DrawnState<LineCategory>>): seq<RenderEvent>
    requires IndexPassOk(vertices, shapes, categories, e, indices, needed, states, rebuilt)
  {
    if needed then
      var sel := ByIndex(indices, EffectiveStates(states, rebuilt, indices));
      SelectStateEvents(vertices, shapes, clip, e, sel, categories, 0) +
      SelectStateEvents(vertices, shapes, clip, e, sel, categories, 1)
    else
      ScaleOfCategory(e, categories, 0, 0);
      CategoryEvents(vertices, clip, e, categories[0].symbolizer, ShapesAt(shapes, indices))
  }

  lemma IndexPassDrawOnly(vertices: seq<Num>, shapes: seq<ShapeRange>, categories: seq<LineCategory>, clip: LineClipper,
                          e: MapArgs, indices: seq<int>, needed: bool, states: seq<DrawnState<LineCategory>>,
                          rebuilt: seq<DrawnState<LineCategory>>)
    requires IndexPassOk(vertices, shapes, categories, e, indices, needed, states, rebuilt)
    ensures DrawOnly(IndexPass(vertices, shapes, categories, clip, e, indices, needed, states, rebuilt))
  {
    if needed {
      var sel := ByIndex(indices, EffectiveStates(states, rebuilt, indices));
      SelectStateEventsDrawOnly(vertices, shapes, clip, e, sel, categories, 0);
      SelectStateEventsDrawOnly(vertices, shapes, clip, e, sel, categories, 1);
    }
  }

  /**
   * Without drawn states every stroke drawn is one of the first category's
   * normal strokes, applied to the path of all the indices.
   */
  lemma IndexPassWithoutStates(vertices: seq<Num>, shapes: seq<ShapeRange>, categories: seq<LineCategory>, clip: LineClipper,
                               e: MapArgs, indices: seq<int>, states: seq<DrawnState<LineCategory>>,
                               rebuilt: seq<DrawnState<LineCategory>>)
    requires IndexPassOk(vertices, shapes, categories, e, indices, false, states, rebuilt)
    ensures var es := IndexPass(vertices, shapes, categories, clip, e, indices, false, states, rebuilt);
            var ls := categories[0].symbolizer;
            && |es| == |ls.strokes|
            && forall k :: 0 <= k < |es| ==>
                 es[k].stroke == ls.strokes[k] &&
                 es[k].figures == PathFigures(vertices, ShapesAt(shapes, indices), e, ComputeClippingRectangle(e, ls), clip)
  {
  }

  /** What a feature pass needs: its features known to the drawing filter, valid shapes and defined scales. */
  predicate FeaturePassOk(vertices: seq<Num>, categories: seq<LineCategory>, e: MapArgs, features: seq<LineFeature>,
                          filter: map<LineFeature, DrawnState<LineCategory>>)
  {
    SelectionOk(ByFeature(features, filter), [], |vertices|) && ScalesDefined(e, categories)
  }

  /** DrawFeatures(e, features): every (selectState, category) pass, unselected first. */
  function FeaturePass(vertices: seq<Num>, categories: seq<LineCategory>, clip: LineClipper, e: MapArgs,
                       features: seq<LineFeature>, filter: map<LineFeature, DrawnState<LineCategory>>): seq<RenderEvent>
    requires FeaturePassOk(vertices, categories, e, features, filter)
  {
    var sel := ByFeature(features, filter);
    SelectStateEvents(vertices, [], clip, e, sel, categories, 0) + SelectStateEvents(vertices, [], clip, e, sel, categories, 1)
  }

  lemma FeaturePassDrawOnly(vertices: seq<Num>, categories: seq<LineCategory>, clip: LineClipper, e: MapArgs,
                            features: seq<LineFeature>, filter: map<LineFeature, DrawnState<LineCategory>>)
    requires FeaturePassOk(vertices, categories, e, features, filter)
    ensures DrawOnly(FeaturePass(vertices, categories, clip, e, features, filter))
  {
    var sel := ByFeature(features, filter);
    SelectStateEventsDrawOnly(vertices, [], clip, e, sel, categories, 0);
    SelectStateEventsDrawOnly(vertices, [], clip, e, sel, categories, 1);
  }

  // ---------------------------------------------------------------------------
  // The methods that draw
  // ---------------------------------------------------------------------------

  /** foreach (IStroke stroke in ls.Strokes) stroke.DrawPath(g, graphPath, scale). */
  method DrawStrokes(g: RenderLog, ls: LineSymbolizer, graphPath: GraphicsPath, scale: real)
    modifies g
    ensures g.events == old(g.events) + StrokeEvents(ls, graphPath.figures, scale)
  {
    var k := 0;
    while k < |ls.strokes|
      invariant 0 <= k <= |ls.strokes|
      invariant g.events == old(g.events) + StrokeEvents(ls, graphPath.figures, scale)[..k]
    {
      g.Emit(StrokePath(ls.strokes[k], graphPath.figures, scale));
      assert StrokeEvents(ls, graphPath.figures, scale)[..k + 1] ==
             StrokeEvents(ls, graphPath.figures, scale)[..k] + [StrokePath(ls.strokes[k], graphPath.figures, scale)];
      k := k + 1;
    }
    assert StrokeEvents(ls, graphPath.figures, scale)[..k] == StrokeEvents(ls, graphPath.figures, scale);
  }

  /** CreateGraphPath / CreateGraphicsPath (index mode): a new path holding each listed shape's figures in turn. */
  method CreateGraphPath(vertices: seq<Num>, shapes: seq<ShapeRange>, clip: LineClipper, e: MapArgs, drawnFeatures: seq<int>,
                         clipRect: Rect) returns (graphPath: GraphicsPath)
    requires ShapesOk(shapes, |vertices|) && IndicesIn(drawnFeatures, |shapes|)
    ensures fresh(graphPath)
    ensures graphPath.figures == PathFigures(vertices, ShapesAt(shapes, drawnFeatures), e, clipRect, clip)
  {
    graphPath := new GraphicsPath();
    ghost var drawn := ShapesAt(shapes, drawnFeatures);
    var i := 0;
    while i < |drawnFeatures|
      invariant 0 <= i <= |drawnFeatures|
      invariant graphPath.figures == PathFigures(vertices, drawn[..i], e, clipRect, clip)
    {
      var shape := shapes[drawnFeatures[i]];
      PathFiguresStep(vertices, drawn, i, e, clipRect, clip);
      BuildLineString(graphPath, vertices, shape, e, clipRect, clip);
      i := i + 1;
    }
    assert i == |drawn|;
    assert drawn[..i] == drawn;
  }

  /** CreateGraphPath (feature mode): the same, taking each feature's own shape range. */
  method CreateFeatureGraphPath(vertices: seq<Num>, clip: LineClipper, e: MapArgs, drawnFeatures: seq<LineFeature>,
                                clipRect: Rect) returns (graphPath: GraphicsPath)
    requires ShapesOk(ShapesOf(drawnFeatures), |vertices|)
    ensures fresh(graphPath)
    ensures graphPath.figures == PathFigures(vertices, ShapesOf(drawnFeatures), e, clipRect, clip)
  {
    graphPath := new GraphicsPath();
    var i := 0;
    ghost var drawn := ShapesOf(drawnFeatures);
    while i < |drawnFeatures|
      invariant 0 <= i <= |drawnFeatures|
      invariant graphPath.figures == PathFigures(vertices, drawn[..i], e, clipRect, clip)
    {
      assert drawn[i] == drawnFeatures[i].shape;
      PathFiguresStep(vertices, drawn, i, e, clipRect, clip);
      BuildLineString(graphPath, vertices, drawnFeatures[i].shape, e, clipRect, clip);
      i := i + 1;
    }
    assert i == |drawn|;
    assert drawn[..i] == drawn;
  }

  class MapLineLayer {
    /** DataSet.Vertex and DataSet.ShapeIndices. */
    const vertices: seq<Num>
    const shapes: seq<ShapeRange>
    /** Symbology.Categories. */
    const categories: seq<LineCategory>
    /** CohenSutherland.ClipLinestring, which is not part of this model. */
    const clip: LineClipper
    /** DrawnStatesNeeded. */
    const drawnStatesNeeded: bool
    /** DrawnStates (the fast drawn states of index mode). */
    var drawnStates: seq<DrawnState<LineCategory>>
    /** The states AssignFastDrawnStates builds, which is not part of this model. */
    const assignedStates: seq<DrawnState<LineCategory>>
    /** DrawingFilter's states, by feature. */
    const drawingFilter: map<LineFeature, DrawnState<LineCategory>>
    /** ChunkSize, 50000 after Configure. */
    const chunkSize: int

    constructor (vertices: seq<Num>, shapes: seq<ShapeRange>, categories: seq<LineCategory>, clip: LineClipper,
                 drawnStatesNeeded: bool, drawnStates: seq<DrawnState<LineCategory>>,
                 assignedStates: seq<DrawnState<LineCategory>>, drawingFilter: map<LineFeature, DrawnState<LineCategory>>)
      ensures this.vertices == vertices && this.shapes == shapes && this.categories == categories && this.clip == clip
      ensures this.drawnStatesNeeded == drawnStatesNeeded && this.drawnStates == drawnStates
      ensures this.assignedStates == assignedStates && this.drawingFilter == drawingFilter
      ensures chunkSize == 50000
    {
      this.vertices := vertices;
      this.shapes := shapes;
      this.categories := categories;
      this.clip := clip;
      this.drawnStatesNeeded := drawnStatesNeeded;
      this.drawnStates := drawnStates;
      this.assignedStates := assignedStates;
      this.drawingFilter := drawingFilter;
      this.chunkSize := 50000;
    }

    /** One (category, selectState) pass of index mode. */
    method DrawCategoryPass(e: MapArgs, indices: seq<int>, states: seq<DrawnState<LineCategory>>, k: int, selectState: int,
                            g: RenderLog)
      requires 0 <= k < |categories| && ScalesDefined(e, categories)
      requires SelectionOk(ByIndex(indices, states), shapes, |vertices|)
      modifies g
      ensures g.events == old(g.events) +
                CategoryEvents(vertices, clip, e, CreateLineSymbolizer(categories[k], selectState),
                               PassShapes(ByIndex(indices, states), shapes, |vertices|, categories[k], selectState))
    {
      var category := categories[k];
      var ls := CreateLineSymbolizer(category, selectState);
      ScaleOfCategory(e, categories, k, selectState);
      var clipRect := ComputeClippingRectangle(e, ls);
      var drawnFeatures := FilterFeaturesToDraw(indices, states, category, selectState);
      var graphPath := CreateGraphPath(vertices, shapes, clip, e, drawnFeatures, clipRect);
      var scale := DefineScale(e, ls.scaleMode);
      DrawStrokes(g, ls, graphPath, scale);
    }

    /** The categories of one selectState in symbology order (index mode). */
    method DrawSelectState(e: MapArgs, indices: seq<int>, states: seq<DrawnState<LineCategory>>, selectState: int,
                           g: RenderLog)
      requires ScalesDefined(e, categories)
      requires SelectionOk(ByIndex(indices, states), shapes, |vertices|)
      modifies g
      ensures g.events == old(g.events) +
                SelectStateEvents(vertices, shapes, clip, e, ByIndex(indices, states), categories, selectState)
    {
      var k := 0;
      while k < |categories|
        invariant 0 <= k <= |categories|
        invariant g.events == old(g.events) +
                    SelectStateEvents(vertices, shapes, clip, e, ByIndex(indices, states), categories[..k], selectState)
      {
        SelectStateEventsStep(vertices, shapes, clip, e, ByIndex(indices, states), categories, k, selectState);
        ghost var drawn := SelectStateEvents(vertices, shapes, clip, e, ByIndex(indices, states), categories[..k], selectState);
        ghost var next := SelectStateEvents(vertices, shapes, clip, e, ByIndex(indices, states), categories[..k + 1], selectState);
        ghost var pass := CategoryEvents(vertices, clip, e, CreateLineSymbolizer(categories[k], selectState),
                                         PassShapes(ByIndex(indices, states), shapes, |vertices|, categories[k], selectState));
        ghost var before := g.events;
        assert before == old(g.events) + drawn;
        assert next == drawn + pass;
        DrawCategoryPass(e, indices, states, k, selectState, g);
        assert g.events == before + pass;
        AppendAssoc(old(g.events), drawn, pass);
        k := k + 1;
      }
      assert categories[..k] == categories;
    }

    /** The private DrawFeatures(e, indices). */
    method DrawIndexPass(e: MapArgs, indices: seq<int>, g: RenderLog)
      requires IndexPassOk(vertices, shapes, categories, e, indices, drawnStatesNeeded, drawnStates, assignedStates)
      modifies this, g
      ensures drawnStates == NextStates(drawnStatesNeeded, old(drawnStates), assignedStates, indices)
      ensures g.events == old(g.events) +
                IndexPass(vertices, shapes, categories, clip, e, indices, drawnStatesNeeded, old(drawnStates), assignedStates)
    {
      if drawnStatesNeeded {
        var states := drawnStates;
        var max := MaxOf(indices);
        if max >= |states| {
          drawnStates := assignedStates;
          states := drawnStates;
        }
        assert states == EffectiveStates(old(drawnStates), assignedStates, indices);
        ghost var pass0 := SelectStateEvents(vertices, shapes, clip, e, ByIndex(indices, states), categories, 0);
        ghost var pass1 := SelectStateEvents(vertices, shapes, clip, e, ByIndex(indices, states), categories, 1);
        assert IndexPass(vertices, shapes, categories, clip, e, indices, true, old(drawnStates), assignedStates) == pass0 + pass1;
        DrawWithStates(e, indices, states, g);
      } else {
        DrawAllIndices(e, indices, g);
      }
    }

    /** With drawn states: selectState 0, then 1, over the given states. */
    method DrawWithStates(e: MapArgs, indices: seq<int>, states: seq<DrawnState<LineCategory>>, g: RenderLog)
      requires ScalesDefined(e, categories)
      requires SelectionOk(ByIndex(indices, states), shapes, |vertices|)
      modifies g
      ensures g.events == old(g.events) +
                (SelectStateEvents(vertices, shapes, clip, e, ByIndex(indices, states), categories, 0) +
                 SelectStateEvents(vertices, shapes, clip, e, ByIndex(indices, states), categories, 1))
    {
      ghost var pass0 := SelectStateEvents(vertices, shapes, clip, e, ByIndex(indices, states), categories, 0);
      ghost var pass1 := SelectStateEvents(vertices, shapes, clip, e, ByIndex(indices, states), categories, 1);
      DrawSelectState(e, indices, states, 0, g);
      ghost var mid := g.events;
      assert mid == old(g.events) + pass0;
      DrawSelectState(e, indices, states, 1, g);
      assert g.events == mid + pass1;
      AppendAssoc(old(g.events), pass0, pass1);
    }

    /** Without drawn states: one path of every index, stroked with the first category's symbolizer. */
    method DrawAllIndices(e: MapArgs, indices: seq<int>, g: RenderLog)
      requires ShapesOk(shapes, |vertices|) && IndicesIn(indices, |shapes|) && ScalesDefined(e, categories)
      requires |categories| > 0
      modifies g
      ensures g.events == old(g.events) + CategoryEvents(vertices, clip, e, categories[0].symbolizer, ShapesAt(shapes, indices))
    {
      var category := categories[0];
      var ls := category.symbolizer;
      ScaleOfCategory(e, categories, 0, 0);
      var clipRect := ComputeClippingRectangle(e, ls);
      var graphPath := CreateGraphPath(vertices, shapes, clip, e, indices, clipRect);
      var scale := DefineScale(e, ls.scaleMode);
      DrawStrokes(g, ls, graphPath, scale);
    }

    /** One (category, selectState) pass of feature mode: DrawPath over the filtered features. */
    method DrawFeatureCategoryPass(e: MapArgs, features: seq<LineFeature>, k: int, selectState: int, g: RenderLog)
      requires 0 <= k < |categories| && FeaturePassOk(vertices, categories, e, features, drawingFilter)
      modifies g
      ensures g.events == old(g.events) +
                CategoryEvents(vertices, clip, e, CreateLineSymbolizer(categories[k], selectState),
                               PassShapes(ByFeature(features, drawingFilter), [], |vertices|, categories[k], selectState))
    {
      var category := categories[k];
      var ls := CreateLineSymbolizer(category, selectState);
      ScaleOfCategory(e, categories, k, selectState);
      var clipRect := ComputeClippingRectangle(e, ls);
      var drawnFeatures := FeatureMembers(features, drawingFilter, category, selectState);
      ghost var shapesDrawn := PassShapes(ByFeature(features, drawingFilter), [], |vertices|, category, selectState);
      assert shapesDrawn == ShapesOf(drawnFeatures);
      var graphPath := CreateFeatureGraphPath(vertices, clip, e, drawnFeatures, clipRect);
      var scale := DefineScale(e, ls.scaleMode);
      DrawStrokes(g, ls, graphPath, scale);
    }

    /** The categories of one selectState in symbology order (feature mode). */
    method DrawFeatureSelectState(e: MapArgs, features: seq<LineFeature>, selectState: int, g: RenderLog)
      requires FeaturePassOk(vertices, categories, e, features, drawingFilter)
      modifies g
      ensures g.events == old(g.events) +
                SelectStateEvents(vertices, [], clip, e, ByFeature(features, drawingFilter), categories, selectState)
    {
      var sel := ByFeature(features, drawingFilter);
      var k := 0;
      while k < |categories|
        invariant 0 <= k <= |categories|
        invariant g.events == old(g.events) + SelectStateEvents(vertices, [], clip, e, sel, categories[..k], selectState)
      {
        SelectStateEventsStep(vertices, [], clip, e, sel, categories, k, selectState);
        ghost var drawn := SelectStateEvents(vertices, [], clip, e, sel, categories[..k], selectState);
        ghost var next := SelectStateEvents(vertices, [], clip, e, sel, categories[..k + 1], selectState);
        ghost var pass := CategoryEvents(vertices, clip, e, CreateLineSymbolizer(categories[k], selectState),
                                         PassShapes(sel, [], |vertices|, categories[k], selectState));
        ghost var before := g.events;
        assert before == old(g.events) + drawn;
        assert next == drawn + pass;
        DrawFeatureCategoryPass(e, features, k, selectState, g);
        assert g.events == before + pass;
        AppendAssoc(old(g.events), drawn, pass);
        k := k + 1;
      }
      assert categories[..k] == categories;
    }

    /** The private DrawFeatures(e, features): selectState 0, then 1. */
    method DrawFeaturePass(e: MapArgs, features: seq<LineFeature>, g: RenderLog)
      requires FeaturePassOk(vertices, categories, e, features, drawingFilter)
      modifies g
      ensures g.events == old(g.events) + FeaturePass(vertices, categories, clip, e, features, drawingFilter)
    {
      var sel := ByFeature(features, drawingFilter);
      ghost var pass0 := SelectStateEvents(vertices, [], clip, e, sel, categories, 0);
      ghost var pass1 := SelectStateEvents(vertices, [], clip, e, sel, categories, 1);
      DrawFeatureSelectState(e, features, 0, g);
      ghost var mid := g.events;
      assert mid == old(g.events) + pass0;
      DrawFeatureSelectState(e, features, 1, g);
      assert g.events == mid + pass1;
      AppendAssoc(old(g.events), pass0, pass1);
    }

    /**
     * The state of a chunked index-mode run after `chunk` of its slices `parts`:
     * the drawn states `states` and the log `events` are what those chunks left,
     * starting from states0 and the log `start`.
     */
    ghost predicate IndexRunAt(e: MapArgs, indices: seq<int>, parts: seq<seq<int>>, chunk: nat, clipRectangles: seq<Rect>,
                               states0: seq<DrawnState<LineCategory>>, start: seq<RenderEvent>,
                               states: seq<DrawnState<LineCategory>>, events: seq<RenderEvent>)
    {
      && chunkSize > 0 && chunk <= NumChunks(|indices|, chunkSize)
      && parts == Chunks(indices, chunkSize, NumChunks(|indices|, chunkSize))
      && ShapesOk(shapes, |vertices|) && IndicesIn(indices, |shapes|) && ScalesDefined(e, categories)
      && (drawnStatesNeeded ==> StatesCover(indices, states0, assignedStates))
      && (!drawnStatesNeeded ==> |categories| > 0)
      && states == StatesBefore(drawnStatesNeeded, states0, assignedStates, parts, chunk)
      && events == start +
           ChunkRun(IndexChunkPasses(vertices, shapes, categories, clip, e, parts, drawnStatesNeeded, states0,
                                     assignedStates, chunk),
                    NumChunks(|indices|, chunkSize), [BufferChanged(clipRectangles)])
    }

    /** Slice `chunk` of a run in state IndexRunAt is drawable from the states the earlier slices left. */
    lemma IndexChunkReady(e: MapArgs, indices: seq<int>, parts: seq<seq<int>>, chunk: nat, clipRectangles: seq<Rect>,
                          states0: seq<DrawnState<LineCategory>>, start: seq<RenderEvent>,
                          states: seq<DrawnState<LineCategory>>, events: seq<RenderEvent>)
      requires chunkSize > 0 && chunk < NumChunks(|indices|, chunkSize)
      requires IndexRunAt(e, indices, parts, chunk, clipRectangles, states0, start, states, events)
      ensures IndexPassOk(vertices, shapes, categories, e, ChunkAt(indices, chunkSize, chunk), drawnStatesNeeded, states,
                          assignedStates)
    {
      StatesBeforeCover(drawnStatesNeeded, states0, assignedStates, indices, chunkSize, chunk);
      IndexChunkOk(vertices, shapes, categories, e, indices, chunkSize, chunk, drawnStatesNeeded, states, assignedStates);
    }

    /**
     * Drawing slice `chunk` from a run in state IndexRunAt, then the separator
     * unless it is the last slice, brings the run to state IndexRunAt of the
     * next chunk.
     */
    lemma IndexChunkStep(e: MapArgs, indices: seq<int>, parts: seq<seq<int>>, chunk: nat, clipRectangles: seq<Rect>,
                         states0: seq<DrawnState<LineCategory>>, start: seq<RenderEvent>,
                         states: seq<DrawnState<LineCategory>>, events: seq<RenderEvent>,
                         states': seq<DrawnState<LineCategory>>, events': seq<RenderEvent>)
      requires chunkSize > 0 && chunk < NumChunks(|indices|, chunkSize)
      requires IndexRunAt(e, indices, parts, chunk, clipRectangles, states0, start, states, events)
      requires IndexPassOk(vertices, shapes, categories, e, ChunkAt(indices, chunkSize, chunk), drawnStatesNeeded, states,
                           assignedStates)
      requires states' == NextStates(drawnStatesNeeded, states, assignedStates, ChunkAt(indices, chunkSize, chunk))
      requires events' == events +
                 IndexPass(vertices, shapes, categories, clip, e, ChunkAt(indices, chunkSize, chunk), drawnStatesNeeded,
                           states, assignedStates) +
                 (if chunk < NumChunks(|indices|, chunkSize) - 1 then [BufferChanged(clipRectangles)] else [])
      ensures IndexRunAt(e, indices, parts, chunk + 1, clipRectangles, states0, start, states', events')
    {
      var numChunks := NumChunks(|indices|, chunkSize);
      var part := ChunkAt(indices, chunkSize, chunk);
      ChunksAt(indices, chunkSize, numChunks, chunk);
      var done := IndexChunkPasses(vertices, shapes, categories, clip, e, parts, drawnStatesNeeded, states0,
                                   assignedStates, chunk);
      var pass := IndexPass(vertices, shapes, categories, clip, e, part, drawnStatesNeeded, states, assignedStates);
      assert IndexChunkPasses(vertices, shapes, categories, clip, e, parts, drawnStatesNeeded, states0, assignedStates,
                              chunk + 1) == done + [pass];
      ChunkRunAppend(start, done, pass, numChunks, [BufferChanged(clipRectangles)], events, events');
    }

    /**
     * One chunk of the chunked index-mode run: the pass over that slice from
     * the states the earlier chunks left, then OnBufferChanged unless it is
     * the last chunk. `parts` are all the slices and `start` is the log as it
     * was before the first chunk.
     */
    method DrawIndexChunk(e: MapArgs, indices: seq<int>, ghost parts: seq<seq<int>>, chunk: nat, clipRectangles: seq<Rect>,
                          ghost states0: seq<DrawnState<LineCategory>>, ghost start: seq<RenderEvent>, g: RenderLog)
      requires chunkSize > 0 && chunk < NumChunks(|indices|, chunkSize)
      requires IndexRunAt(e, indices, parts, chunk, clipRectangles, states0, start, drawnStates, g.events)
      modifies this, g
      ensures IndexRunAt(e, indices, parts, chunk + 1, clipRectangles, states0, start, drawnStates, g.events)
    {
      var numChunks := NumChunks(|indices|, chunkSize);
      var part := ChunkAt(indices, chunkSize, chunk);
      IndexChunkReady(e, indices, parts, chunk, clipRectangles, states0, start, drawnStates, g.events);
      ghost var states := drawnStates;
      ghost var before := g.events;
      DrawIndexPass(e, part, g);
      if chunk < numChunks - 1 {
        g.Emit(BufferChanged(clipRectangles));
      }
      IndexChunkStep(e, indices, parts, chunk, clipRectangles, states0, start, states, before, drawnStates, g.events);
    }

    /**
     * DrawFeatures(args, indices, clipRectangles, useChunks): without chunks a
     * single pass; with chunks, one pass per slice of ChunkSize indices, each
     * starting from the states the previous one left, with one BufferChanged
     * between consecutive slices.
     */
    method DrawIndicesChunked(e: MapArgs, indices: seq<int>, clipRectangles: seq<Rect>, useChunks: bool, g: RenderLog)
      requires chunkSize > 0
      requires ShapesOk(shapes, |vertices|) && IndicesIn(indices, |shapes|) && ScalesDefined(e, categories)
      requires drawnStatesNeeded ==> StatesCover(indices, drawnStates, assignedStates)
      requires drawnStatesNeeded && !useChunks ==> indices != []
      requires !drawnStatesNeeded ==> |categories| > 0
      modifies this, g
      ensures !useChunks ==>
                && drawnStates == NextStates(drawnStatesNeeded, old(drawnStates), assignedStates, indices)
                && g.events == old(g.events) + IndexPass(vertices, shapes, categories, clip, e, indices, drawnStatesNeeded,
                                                         old(drawnStates), assignedStates)
      ensures useChunks ==>
                var n := NumChunks(|indices|, chunkSize);
                var parts := Chunks(indices, chunkSize, n);
                && drawnStates == StatesBefore(drawnStatesNeeded, old(drawnStates), assignedStates, parts, n)
                && g.events == old(g.events) +
                     ChunkRun(IndexChunkPasses(vertices, shapes, categories, clip, e, parts, drawnStatesNeeded,
                                               old(drawnStates), assignedStates, n),
                              n, [BufferChanged(clipRectangles)])
    {
      if !useChunks {
        DrawIndexPass(e, indices, g);
      } else {
        DrawIndexChunks(e, indices, clipRectangles, g);
      }
    }

    /** The chunked branch of DrawFeatures(args, indices, clipRectangles, useChunks). */
    method DrawIndexChunks(e: MapArgs, indices: seq<int>, clipRectangles: seq<Rect>, g: RenderLog)
      requires chunkSize > 0
      requires ShapesOk(shapes, |vertices|) && IndicesIn(indices, |shapes|) && ScalesDefined(e, categories)
      requires drawnStatesNeeded ==> StatesCover(indices, drawnStates, assignedStates)
      requires !drawnStatesNeeded ==> |categories| > 0
      modifies this, g
      ensures var n := NumChunks(|indices|, chunkSize);
              var parts := Chunks(indices, chunkSize, n);
              && drawnStates == StatesBefore(drawnStatesNeeded, old(drawnStates), assignedStates, parts, n)
              && g.events == old(g.events) +
                   ChunkRun(IndexChunkPasses(vertices, shapes, categories, clip, e, parts, drawnStatesNeeded,
                                             old(drawnStates), assignedStates, n),
                            n, [BufferChanged(clipRectangles)])
    {
      var count := |indices|;
      var numChunks := NumChunks(count, chunkSize);
      ghost var parts := Chunks(indices, chunkSize, numChunks);
      ghost var states0 := drawnStates;
      ghost var start := g.events;
      assert g.events == start + [];
      DrawIndexChunksFrom(e, indices, parts, clipRectangles, states0, start, g);
    }

    /** The loop over the chunks of DrawFeatures(args, indices, clipRectangles, true). */
    method DrawIndexChunksFrom(e: MapArgs, indices: seq<int>, ghost parts: seq<seq<int>>, clipRectangles: seq<Rect>,
                               ghost states0: seq<DrawnState<LineCategory>>, ghost start: seq<RenderEvent>, g: RenderLog)
      requires IndexRunAt(e, indices, parts, 0, clipRectangles, states0, start, drawnStates, g.events)
      modifies this, g
      ensures IndexRunAt(e, indices, parts, NumChunks(|indices|, chunkSize), clipRectangles, states0, start,
                         drawnStates, g.events)
    {
      var numChunks := NumChunks(|indices|, chunkSize);
      var chunk := 0;
      while chunk < numChunks
        invariant chunk <= numChunks
        invariant IndexRunAt(e, indices, parts, chunk, clipRectangles, states0, start, drawnStates, g.events)
      {
        DrawIndexChunk(e, indices, parts, chunk, clipRectangles, states0, start, g);
        chunk := chunk + 1;
      }
      assert chunk == numChunks;
    }

    /**
     * The state of a chunked feature-mode run after `chunk` of its slices
     * `parts`: the log `events` is `start` followed by those chunks' passes.
     */
    ghost predicate FeatureRunAt(e: MapArgs, features: seq<LineFeature>, parts: seq<seq<LineFeature>>, chunk: nat,
                                 clipRectangles: seq<Rect>, start: seq<RenderEvent>, events: seq<RenderEvent>)
    {
      && chunkSize > 0 && chunk <= NumChunks(|features|, chunkSize)
      && parts == Chunks(features, chunkSize, NumChunks(|features|, chunkSize))
      && FeaturePassOk(vertices, categories, e, features, drawingFilter)
      && events == start +
           ChunkRun(FeatureChunkPasses(vertices, categories, clip, e, parts, drawingFilter, chunk),
                    NumChunks(|features|, chunkSize), [BufferChanged(clipRectangles)])
    }

    /**
     * One chunk of the chunked feature-mode run: the feature pass over that
     * slice, then OnBufferChanged unless it is the last chunk.
     */
    method DrawFeatureChunk(e: MapArgs, features: seq<LineFeature>, ghost parts: seq<seq<LineFeature>>, chunk: nat,
                            clipRectangles: seq<Rect>, ghost start: seq<RenderEvent>, g: RenderLog)
      requires chunkSize > 0 && chunk < NumChunks(|features|, chunkSize)
      requires FeatureRunAt(e, features, parts, chunk, clipRectangles, start, g.events)
      modifies g
      ensures FeatureRunAt(e, features, parts, chunk + 1, clipRectangles, start, g.events)
    {
      var numChunks := NumChunks(|features|, chunkSize);
      var part := ChunkAt(features, chunkSize, chunk);
      FeatureChunkInherits(features, chunkSize, chunk, drawingFilter, |vertices|);
      ghost var before := g.events;
      DrawFeaturePass(e, part, g);
      if chunk < numChunks - 1 {
        g.Emit(BufferChanged(clipRectangles));
      }
      FeatureChunkStep(e, features, parts, chunk, clipRectangles, start, before, g.events);
    }

    /** The bookkeeping of one feature-mode chunk: its pass, and the separator unless it is the last, extend the run. */
    lemma FeatureChunkStep(e: MapArgs, features: seq<LineFeature>, parts: seq<seq<LineFeature>>, chunk: nat,
                           clipRectangles: seq<Rect>, start: seq<RenderEvent>, events: seq<RenderEvent>,
                           events': seq<RenderEvent>)
      requires chunkSize > 0 && chunk < NumChunks(|features|, chunkSize)
      requires FeatureRunAt(e, features, parts, chunk, clipRectangles, start, events)
      requires FeaturePassOk(vertices, categories, e, ChunkAt(features, chunkSize, chunk), drawingFilter)
      requires events' == events +
                 FeaturePass(vertices, categories, clip, e, ChunkAt(features, chunkSize, chunk), drawingFilter) +
                 (if chunk < NumChunks(|features|, chunkSize) - 1 then [BufferChanged(clipRectangles)] else [])
      ensures FeatureRunAt(e, features, parts, chunk + 1, clipRectangles, start, events')
    {
      var numChunks := NumChunks(|features|, chunkSize);
      var part := ChunkAt(features, chunkSize, chunk);
      ChunksAt(features, chunkSize, numChunks, chunk);
      var done := FeatureChunkPasses(vertices, categories, clip, e, parts, drawingFilter, chunk);
      var pass := FeaturePass(vertices, categories, clip, e, part, drawingFilter);
      assert FeatureChunkPasses(vertices, categories, clip, e, parts, drawingFilter, chunk + 1) == done + [pass];
      ChunkRunAppend(start, done, pass, numChunks, [BufferChanged(clipRectangles)], events, events');
    }

    /** DrawFeatures(args, features, clipRectangles, useChunks). */
    method DrawFeaturesChunked(e: MapArgs, features: seq<LineFeature>, clipRectangles: seq<Rect>, useChunks: bool,
                               g: RenderLog)
      requires chunkSize > 0 && FeaturePassOk(vertices, categories, e, features, drawingFilter)
      modifies g
      ensures !useChunks ==> g.events == old(g.events) + FeaturePass(vertices, categories, clip, e, features, drawingFilter)
      ensures useChunks ==>
                var n := NumChunks(|features|, chunkSize);
                g.events == old(g.events) +
                  ChunkRun(FeatureChunkPasses(vertices, categories, clip, e, Chunks(features, chunkSize, n), drawingFilter, n),
                           n, [BufferChanged(clipRectangles)])
    {
      if !useChunks {
        DrawFeaturePass(e, features, g);
        return;
      }
      ghost var parts := Chunks(features, chunkSize, NumChunks(|features|, chunkSize));
      assert g.events == old(g.events) + [];
      DrawFeatureChunksFrom(e, features, parts, clipRectangles, old(g.events), g);
    }

    /** The loop over the chunks of a feature-mode run, from its first chunk to its last. */
    method DrawFeatureChunksFrom(e: MapArgs, features: seq<LineFeature>, ghost parts: seq<seq<LineFeature>>,
                                 clipRectangles: seq<Rect>, ghost start: seq<RenderEvent>, g: RenderLog)
      requires FeatureRunAt(e, features, parts, 0, clipRectangles, start, g.events)
      modifies g
      ensures FeatureRunAt(e, features, parts, NumChunks(|features|, chunkSize), clipRectangles, start, g.events)
    {
      var count := |features|;
      var numChunks := NumChunks(count, chunkSize);
      var chunk := 0;
      while chunk < numChunks
        invariant chunk <= numChunks
        invariant FeatureRunAt(e, features, parts, chunk, clipRectangles, start, g.events)
      {
        DrawFeatureChunk(e, features, parts, chunk, clipRectangles, start, g);
        chunk := chunk + 1;
      }
      assert chunk == numChunks;
    }
  }

  // ---------------------------------------------------------------------------
  // Chunked runs
  // ---------------------------------------------------------------------------

  /** The feature pass over one slice; a slice the layer could not draw gets no events. */
  function FeatureChunkPass(vertices: seq<Num>, categories: seq<LineCategory>, clip: LineClipper, e: MapArgs,
                            part: seq<LineFeature>, filter: map<LineFeature, DrawnState<LineCategory>>): seq<RenderEvent>
  {
    if FeaturePassOk(vertices, categories, e, part, filter) then FeaturePass(vertices, categories, clip, e, part, filter) else []
  }

  /** The passes over the first n of the slices `parts` of a feature-mode run, in order. */
  function FeatureChunkPasses(vertices: seq<Num>, categories: seq<LineCategory>, clip: LineClipper, e: MapArgs,
                              parts: seq<seq<LineFeature>>, filter: map<LineFeature, DrawnState<LineCategory>>,
                              n: nat): (ps: seq<seq<RenderEvent>>)
    requires n <= |parts|
    ensures |ps| == n
    decreases n
  {
    if n == 0 then []
    else
      FeatureChunkPasses(vertices, categories, clip, e, parts, filter, n - 1) +
      [FeatureChunkPass(vertices, categories, clip, e, parts[n - 1], filter)]
  }

  lemma {:induction false} FeatureChunkPassesAt(vertices: seq<Num>, categories: seq<LineCategory>, clip: LineClipper,
                                                e: MapArgs, parts: seq<seq<LineFeature>>,
                                                filter: map<LineFeature, DrawnState<LineCategory>>, n: nat, k: nat)
    requires k < n <= |parts|
    ensures FeatureChunkPasses(vertices, categories, clip, e, parts, filter, n)[k] ==
            FeatureChunkPass(vertices, categories, clip, e, parts[k], filter)
    decreases n
  {
    var before := FeatureChunkPasses(vertices, categories, clip, e, parts, filter, n - 1);
    var last := FeatureChunkPass(vertices, categories, clip, e, parts[n - 1], filter);
    assert FeatureChunkPasses(vertices, categories, clip, e, parts, filter, n) == before + [last];
    if k < n - 1 {
      FeatureChunkPassesAt(vertices, categories, clip, e, parts, filter, n - 1, k);
      assert (before + [last])[k] == before[k];
    }
  }

  /**
   * The k-th pass of a chunked feature-mode run is the feature pass over
   * features.GetRange(k * ChunkSize, numFeatures), which the layer can draw.
   */
  lemma FeatureChunkPassAt(vertices: seq<Num>, categories: seq<LineCategory>, clip: LineClipper, e: MapArgs,
                           features: seq<LineFeature>, filter: map<LineFeature, DrawnState<LineCategory>>,
                           chunkSize: nat, k: nat)
    requires chunkSize > 0 && k < NumChunks(|features|, chunkSize)
    requires FeaturePassOk(vertices, categories, e, features, filter)
    ensures FeaturePassOk(vertices, categories, e, ChunkAt(features, chunkSize, k), filter)
    ensures var n := NumChunks(|features|, chunkSize);
            FeatureChunkPasses(vertices, categories, clip, e, Chunks(features, chunkSize, n), filter, n)[k] ==
            FeaturePass(vertices, categories, clip, e, ChunkAt(features, chunkSize, k), filter)
  {
    var n := NumChunks(|features|, chunkSize);
    ChunksAt(features, chunkSize, n, k);
    FeatureChunkPassesAt(vertices, categories, clip, e, Chunks(features, chunkSize, n), filter, n, k);
    FeatureChunkInherits(features, chunkSize, k, filter, |vertices|);
  }

  /** Whatever the slices, a chunked feature-mode run draws and never notifies inside a chunk. */
  lemma FeatureChunkPassesDrawOnly(vertices: seq<Num>, categories: seq<LineCategory>, clip: LineClipper, e: MapArgs,
                                   parts: seq<seq<LineFeature>>, filter: map<LineFeature, DrawnState<LineCategory>>, n: nat)
    requires n <= |parts|
    ensures AllDrawOnly(FeatureChunkPasses(vertices, categories, clip, e, parts, filter, n))
  {
    var ps := FeatureChunkPasses(vertices, categories, clip, e, parts, filter, n);
    forall k | 0 <= k < |ps| ensures DrawOnly(ps[k]) {
      FeatureChunkPassesAt(vertices, categories, clip, e, parts, filter, n, k);
      if FeaturePassOk(vertices, categories, e, parts[k], filter) {
        FeaturePassDrawOnly(vertices, categories, clip, e, parts[k], filter);
      }
    }
  }

  /** A chunked feature-mode run over a non-empty list raises BufferChanged once less than it has chunks. */
  lemma FeatureRunNotifies(vertices: seq<Num>, categories: seq<LineCategory>, clip: LineClipper, e: MapArgs,
                           features: seq<LineFeature>, filter: map<LineFeature, DrawnState<LineCategory>>,
                           chunkSize: nat, clipRectangles: seq<Rect>)
    requires chunkSize > 0 && features != []
    ensures var n := NumChunks(|features|, chunkSize);
            CountChanged(ChunkRun(FeatureChunkPasses(vertices, categories, clip, e, Chunks(features, chunkSize, n), filter, n),
                                  n, [BufferChanged(clipRectangles)])) == n - 1
  {
    var n := NumChunks(|features|, chunkSize);
    var parts := Chunks(features, chunkSize, n);
    FeatureChunkPassesDrawOnly(vertices, categories, clip, e, parts, filter, n);
    SeparatorRunCount(FeatureChunkPasses(vertices, categories, clip, e, parts, filter, n), clipRectangles);
  }

  /** Some index falls beyond the layer's states only if every index lies inside the rebuilt ones. */
  predicate StatesCover(indices: seq<int>, states: seq<DrawnState<LineCategory>>, rebuilt: seq<DrawnState<LineCategory>>)
  {
    IndicesIn(indices, |states|) || IndicesIn(indices, |rebuilt|)
  }

  /** The index pass over one slice from the given states; a slice it could not draw gets no events. */
  function IndexChunkPass(vertices: seq<Num>, shapes: seq<ShapeRange>, categories: seq<LineCategory>, clip: LineClipper,
                          e: MapArgs, part: seq<int>, needed: bool, states: seq<DrawnState<LineCategory>>,
                          rebuilt: seq<DrawnState<LineCategory>>): seq<RenderEvent>
  {
    if IndexPassOk(vertices, shapes, categories, e, part, needed, states, rebuilt)
    then IndexPass(vertices, shapes, categories, clip, e, part, needed, states, rebuilt)
    else []
  }

  /** The layer's states before slice k of an index-mode run over `parts` that started from states0. */
  function StatesBefore(needed: bool, states0: seq<DrawnState<LineCategory>>, rebuilt: seq<DrawnState<LineCategory>>,
                        parts: seq<seq<int>>, k: nat): seq<DrawnState<LineCategory>>
    requires k <= |parts|
    decreases k
  {
    if k == 0 then states0
    else NextStates(needed, StatesBefore(needed, states0, rebuilt, parts, k - 1), rebuilt, parts[k - 1])
  }

  /** The states a run reaches are always the initial ones or the rebuilt ones, and never change without drawn states. */
  lemma {:induction false} StatesBeforeCases(needed: bool, states0: seq<DrawnState<LineCategory>>,
                                             rebuilt: seq<DrawnState<LineCategory>>, parts: seq<seq<int>>, k: nat)
    requires k <= |parts|
    ensures StatesBefore(needed, states0, rebuilt, parts, k) in {states0, rebuilt}
    ensures !needed ==> StatesBefore(needed, states0, rebuilt, parts, k) == states0
    decreases k
  {
    if k > 0 {
      StatesBeforeCases(needed, states0, rebuilt, parts, k - 1);
    }
  }

  /**
   * Over the slices of an index list: once the states were rebuilt they
   * stay rebuilt, and when the initial states cover every index they are
   * never rebuilt.
   */
  lemma {:induction false} StatesBeforeCover(needed: bool, states0: seq<DrawnState<LineCategory>>,
                                             rebuilt: seq<DrawnState<LineCategory>>, indices: seq<int>, chunkSize: nat, k: nat)
    requires chunkSize > 0 && k <= NumChunks(|indices|, chunkSize)
    requires needed ==> StatesCover(indices, states0, rebuilt)
    ensures var parts := Chunks(indices, chunkSize, NumChunks(|indices|, chunkSize));
            && (needed ==> StatesCover(indices, StatesBefore(needed, states0, rebuilt, parts, k), rebuilt))
            && (IndicesIn(indices, |states0|) ==> StatesBefore(needed, states0, rebuilt, parts, k) == states0)
    decreases k
  {
    if k > 0 {
      var n := NumChunks(|indices|, chunkSize);
      var parts := Chunks(indices, chunkSize, n);
      StatesBeforeCover(needed, states0, rebuilt, indices, chunkSize, k - 1);
      var s := StatesBefore(needed, states0, rebuilt, parts, k - 1);
      ChunksAt(indices, chunkSize, n, k - 1);
      var c := ChunkAt(indices, chunkSize, k - 1);
      assert StatesBefore(needed, states0, rebuilt, parts, k) == NextStates(needed, s, rebuilt, c);
      if IndicesIn(indices, |s|) {
        ChunkInherits(indices, chunkSize, k - 1, |s|);
        assert MaxOf(c) in c;
        assert NextStates(needed, s, rebuilt, c) == s;
      }
    }
  }

  /** The passes over the first n of the slices `parts` of an index-mode run that started from states0, in order. */
  function IndexChunkPasses(vertices: seq<Num>, shapes: seq<ShapeRange>, categories: seq<LineCategory>, clip: LineClipper,
                            e: MapArgs, parts: seq<seq<int>>, needed: bool, states0: seq<DrawnState<LineCategory>>,
                            rebuilt: seq<DrawnState<LineCategory>>, n: nat): (ps: seq<seq<RenderEvent>>)
    requires n <= |parts|
    ensures |ps| == n
    decreases n
  {
    if n == 0 then []
    else
      IndexChunkPasses(vertices, shapes, categories, clip, e, parts, needed, states0, rebuilt, n - 1) +
      [IndexChunkPass(vertices, shapes, categories, clip, e, parts[n - 1], needed,
                      StatesBefore(needed, states0, rebuilt, parts, n - 1), rebuilt)]
  }

  lemma {:induction false} IndexChunkPassesAt(vertices: seq<Num>, shapes: seq<ShapeRange>, categories: seq<LineCategory>,
                                              clip: LineClipper, e: MapArgs, parts: seq<seq<int>>, needed: bool,
                                              states0: seq<DrawnState<LineCategory>>, rebuilt: seq<DrawnState<LineCategory>>,
                                              n: nat, k: nat)
    requires k < n <= |parts|
    ensures IndexChunkPasses(vertices, shapes, categories, clip, e, parts, needed, states0, rebuilt, n)[k] ==
            IndexChunkPass(vertices, shapes, categories, clip, e, parts[k], needed,
                           StatesBefore(needed, states0, rebuilt, parts, k), rebuilt)
    decreases n
  {
    if k < n - 1 {
      IndexChunkPassesAt(vertices, shapes, categories, clip, e, parts, needed, states0, rebuilt, n - 1, k);
    }
  }

  /**
   * The k-th pass of a chunked index-mode run is the index pass over
   * indices.GetRange(k * ChunkSize, numIndices), from the states the earlier
   * chunks left, which cover that slice.
   */
  lemma IndexChunkPassAt(vertices: seq<Num>, shapes: seq<ShapeRange>, categories: seq<LineCategory>,
                         clip: LineClipper, e: MapArgs, indices: seq<int>, needed: bool,
                         states0: seq<DrawnState<LineCategory>>, rebuilt: seq<DrawnState<LineCategory>>,
                         chunkSize: nat, k: nat)
    requires chunkSize > 0 && k < NumChunks(|indices|, chunkSize)
    requires ShapesOk(shapes, |vertices|) && IndicesIn(indices, |shapes|) && ScalesDefined(e, categories)
    requires needed ==> StatesCover(indices, states0, rebuilt)
    requires !needed ==> |categories| > 0
    ensures var n := NumChunks(|indices|, chunkSize);
            var parts := Chunks(indices, chunkSize, n);
            var states := StatesBefore(needed, states0, rebuilt, parts, k);
            && IndexPassOk(vertices, shapes, categories, e, ChunkAt(indices, chunkSize, k), needed, states, rebuilt)
            && IndexChunkPasses(vertices, shapes, categories, clip, e, parts, needed, states0, rebuilt, n)[k] ==
               IndexPass(vertices, shapes, categories, clip, e, ChunkAt(indices, chunkSize, k), needed, states, rebuilt)
  {
    var n := NumChunks(|indices|, chunkSize);
    var parts := Chunks(indices, chunkSize, n);
    var states := StatesBefore(needed, states0, rebuilt, parts, k);
    ChunksAt(indices, chunkSize, n, k);
    StatesBeforeCover(needed, states0, rebuilt, indices, chunkSize, k);
    IndexChunkOk(vertices, shapes, categories, e, indices, chunkSize, k, needed, states, rebuilt);
    IndexChunkPassesAt(vertices, shapes, categories, clip, e, parts, needed, states0, rebuilt, n, k);
  }

  /** Whatever the slices, a chunked index-mode run draws and never notifies inside a chunk. */
  lemma IndexChunkPassesDrawOnly(vertices: seq<Num>, shapes: seq<ShapeRange>, categories: seq<LineCategory>,
                                 clip: LineClipper, e: MapArgs, parts: seq<seq<int>>, needed: bool,
                                 states0: seq<DrawnState<LineCategory>>, rebuilt: seq<DrawnState<LineCategory>>, n: nat)
    requires n <= |parts|
    ensures AllDrawOnly(IndexChunkPasses(vertices, shapes, categories, clip, e, parts, needed, states0, rebuilt, n))
  {
    var ps := IndexChunkPasses(vertices, shapes, categories, clip, e, parts, needed, states0, rebuilt, n);
    forall k | 0 <= k < |ps| ensures DrawOnly(ps[k]) {
      IndexChunkPassesAt(vertices, shapes, categories, clip, e, parts, needed, states0, rebuilt, n, k);
      var states := StatesBefore(needed, states0, rebuilt, parts, k);
      if IndexPassOk(vertices, shapes, categories, e, parts[k], needed, states, rebuilt) {
        IndexPassDrawOnly(vertices, shapes, categories, clip, e, parts[k], needed, states, rebuilt);
      }
    }
  }

  /** A chunked index-mode run over a non-empty list raises BufferChanged once less than it has chunks. */
  lemma IndexRunNotifies(vertices: seq<Num>, shapes: seq<ShapeRange>, categories: seq<LineCategory>,
                         clip: LineClipper, e: MapArgs, indices: seq<int>, needed: bool,
                         states0: seq<DrawnState<LineCategory>>, rebuilt: seq<DrawnState<LineCategory>>,
                         chunkSize: nat, clipRectangles: seq<Rect>)
    requires chunkSize > 0 && indices != []
    ensures var n := NumChunks(|indices|, chunkSize);
            var parts := Chunks(indices, chunkSize, n);
            CountChanged(ChunkRun(IndexChunkPasses(vertices, shapes, categories, clip, e, parts, needed, states0, rebuilt, n),
                                  n, [BufferChanged(clipRectangles)])) == n - 1
  {
    var n := NumChunks(|indices|, chunkSize);
    var parts := Chunks(indices, chunkSize, n);
    IndexChunkPassesDrawOnly(vertices, shapes, categories, clip, e, parts, needed, states0, rebuilt, n);
    SeparatorRunCount(IndexChunkPasses(vertices, shapes, categories, clip, e, parts, needed, states0, rebuilt, n),
                      clipRectangles);
  }

  /** Every chunk of a valid index list can be drawn from states that cover it. */
  lemma IndexChunkOk(vertices: seq<Num>, shapes: seq<ShapeRange>, categories: seq<LineCategory>, e: MapArgs,
                     indices: seq<int>, chunkSize: nat, k: nat, needed: bool, states: seq<DrawnState<LineCategory>>,
                     rebuilt: seq<DrawnState<LineCategory>>)
    requires chunkSize > 0 && k < NumChunks(|indices|, chunkSize)
    requires ShapesOk(shapes, |vertices|) && IndicesIn(indices, |shapes|) && ScalesDefined(e, categories)
    requires needed ==> StatesCover(indices, states, rebuilt)
    requires !needed ==> |categories| > 0
    ensures IndexPassOk(vertices, shapes, categories, e, ChunkAt(indices, chunkSize, k), needed, states, rebuilt)
  {
    var c := ChunkAt(indices, chunkSize, k);
    ChunkInherits(indices, chunkSize, k, |shapes|);
    if needed {
      if IndicesIn(indices, |states|) {
        ChunkInherits(indices, chunkSize, k, |states|);
        assert MaxOf(c) in c;
      } else {
        ChunkInherits(indices, chunkSize, k, |rebuilt|);
      }
    }
  }

  /** A chunk of an index list keeps every bound the whole list satisfies. */
  lemma ChunkInherits(indices: seq<int>, chunkSize: nat, k: nat, n: int)
    requires chunkSize > 0 && k < NumChunks(|indices|, chunkSize)
    requires IndicesIn(indices, n)
    ensures IndicesIn(ChunkAt(indices, chunkSize, k), n)
  {
    var c := ChunkAt(indices, chunkSize, k);
    forall j | 0 <= j < |c| ensures 0 <= c[j] < n {
      assert c[j] == indices[ChunkStart(chunkSize, k) + j];
    }
  }

  lemma FeatureChunkInherits(features: seq<LineFeature>, chunkSize: nat, k: nat,
                             filter: map<LineFeature, DrawnState<LineCategory>>, numValues: int)
    requires chunkSize > 0 && k < NumChunks(|features|, chunkSize)
    requires SelectionOk(ByFeature(features, filter), [], numValues)
    ensures SelectionOk(ByFeature(ChunkAt(features, chunkSize, k), filter), [], numValues)
  {
    var c := ChunkAt(features, chunkSize, k);
    forall j | 0 <= j < |c| ensures c[j] in filter && ShapeOk(c[j].shape, numValues) {
      assert c[j] == features[ChunkStart(chunkSize, k) + j];
    }
  }
}
