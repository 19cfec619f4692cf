# Boreray map-layer rendering decisions, in Dafny

This project models the decision-making core of the DotSpatial map controls in Boreray. That is everything that decides *what* gets drawn, in which order and with which symbol. The drawing itself is not modelled.

- **Pixel cleaning.** `DuplicationPreventer.Clean` drops NaN positions, rounds the rest to pixels and never yields the same pixel twice in a row.
- **Path builders.** The line and polygon path builders project each part's vertices, optionally clip them, clean them, and add a figure only when two pixels or more remain.
- **Clipping rectangles.** The image rectangle is inflated by twice the rounded-up line width for lines, and by 50 pixels for polygons.
- **Symbolizer choice.** The selected state picks the selection symbolizer.
- **Labels.** `[Column]` substitution, the bracket test, the nine-way alignment offset, and point, line and polygon label placement.
- **Label collisions.** The list of existing labels is shared by every label layer. With collision prevention, a label is drawn and added only when it overlaps none of them.
- **Label priority.** Within each category, labels are drawn in priority order.
- **Chunked drivers.** The line, point and label layers draw long lists in slices of `ChunkSize` items, with a `BufferChanged` notification between slices.
- **Point-layer buffers.** The point layer swaps its Buffer/BackBuffer pair between slices.
- **Utilities.** The get-or-add dictionary extension, the three-dictionary resource cache, the point-symbolizer tests and `PrefixWithEllipsis`.

How the model is built:

- **State becomes a class.** Where the source changes state in place, the model is a class whose methods say exactly what they change:
  - a `GraphicsPath` with its figures;
  - a `RenderLog` recording every drawing call and notification;
  - the shared `LabelList`;
  - `Dictionary`, `Caches`, `Matrix` and `Image`;
  - the three layer classes.
- **Loops stay loops.** Each loop in the source is a `while` loop, proved against a function that specifies it. The properties the source promises are lemmas about those functions.
- **Pure code stays pure.** Pure helpers are functions whose contracts state their meaning.

Modules follow the source files, with four shared modules:

- `Geometry`: numbers, pixels, rectangles, extents, map arguments and rounding;
- `Symbology`: categories, symbolizers and drawn states;
- `Rendering`: the graphics path and the event log;
- `Chunking`: ceiling-division slices and the generic chunked run, with its notification counts.

`Sequences` holds generic subsequence, reverse and sort facts.

Modelling choices:

- **Numbers.** A double is `Num = Finite(real) | NaN`.
- **Rounding.** `Convert.ToInt32` is round-half-to-even over the reals (`Geometry.RoundHalfEven`).
- **Foreign code becomes parameters.** That covers:
  - the clippers;
  - `MeasureString`;
  - number formatting;
  - the priority comparer;
  - `CreatePoint`;
  - the states that `AssignFastDrawnStates`, `CreateLabels` and `CreateIndexedLabels` build.
- **Extent tests are closed boxes.** Those are `Within`, `Intersects` and containing a coordinate.

## Model

| member | source | states |
|---|---|---|
| DuplicationPreventer.Clean | Boreray/DotSpatial.Controls/DuplicationPreventer.cs:39-54 | The loop over `previous`/`isFirst` yields exactly `Cleaned(points)`. |
| DuplicationPreventer.CleanVectors | Boreray/DotSpatial.Controls/DuplicationPreventer.cs:59-74 | The `double[]` overload yields `Cleaned` of the same positions read as (X, Y). So both overloads give the same pixels for the same coordinates. |
| DuplicationPreventer.CleanedMatchesReference | Boreray/DotSpatial.Controls/DuplicationPreventer.cs:43-53 | Cleaning is the same as an independent definition: round the NaN-free positions, then collapse runs of equal pixels. |
| DuplicationPreventer.CollapseRunsFacts | Boreray/DotSpatial.Controls/DuplicationPreventer.cs:47-52 | Collapsing runs leaves:<br>• no equal neighbours;<br>• a subsequence;<br>• the same set of pixels;<br>• the same first pixel. |
| DuplicationPreventer.CleanedProperties | Boreray/DotSpatial.Controls/DuplicationPreventer.cs:42-53 | The output:<br>• has no equal neighbours and is no longer than the input;<br>• is an ordered subsequence of the rounded NaN-free positions;<br>• contains the pixel of every NaN-free position, and only such pixels;<br>• is empty iff every position has a NaN;<br>• starts with the pixel of the first NaN-free position. |
| DuplicationPreventer.RoundedPointsEmpty | Boreray/DotSpatial.Controls/DuplicationPreventer.cs:45 | No pixel comes out iff every input position has a NaN X or Y. |
| DuplicationPreventer.CleanFromPrevious | Boreray/DotSpatial.Controls/DuplicationPreventer.cs:41-50 | Starting from a previous pixel instead of `isFirst` only suppresses a leading copy of that pixel. |
| DuplicationPreventer.CleanIdempotent | Boreray/DotSpatial.Controls/DuplicationPreventer.cs:59-74 | Cleaning pixels that are already clean returns them unchanged. |
| Geometry.RoundHalfEven | Boreray/DotSpatial.Controls/DuplicationPreventer.cs:46 | `Convert.ToInt32` lands within 0.5 of its argument. |
| Geometry.RoundHalfEvenOfInteger | Boreray/DotSpatial.Controls/DuplicationPreventer.cs:66 | A whole number rounds to itself, which is what idempotence needs. |
| Geometry.ProjectVertex | Boreray/DotSpatial.Controls/Extensions/PolygonLayerHelper.cs:33-37 | Vertex i maps to ((x - minX)·dx, (maxY - y)·dy). Each coordinate is NaN exactly when the vertex coordinate is. |
| Geometry.IntersectsSymmetric | Boreray/DotSpatial.Controls/MapLabelLayer.cs:428 | `IntersectsWith` is symmetric, so the argument order in `Collides` does not matter. |
| ShapeParts.PartPoints | Boreray/DotSpatial.Controls/Extensions/LineLayerHelper.cs:59-71 | A part gives end - start + 1 positions; position k is vertex start + k projected. |
| Rendering.GraphicsPath.AddFigure | Boreray/DotSpatial.Controls/Extensions/LineLayerHelper.cs:46-47 | `StartFigure` then `AddLines` appends exactly one figure and keeps the earlier ones. |
| LineLayerHelper.ProjectCoords | Boreray/DotSpatial.Controls/Extensions/LineLayerHelper.cs:25-28 | One rounded pixel per coordinate of the linestring, in order. |
| LineLayerHelper.BuildBasicLineString | Boreray/DotSpatial.Controls/Extensions/LineLayerHelper.cs:20-48 | The `IBasicLineString` overload appends the kept pixels as one figure when there are two or more. Otherwise the path is left unchanged. |
| LineLayerHelper.BasicPoints | Boreray/DotSpatial.Controls/Extensions/LineLayerHelper.cs:22-42 | The coordinate loop yields exactly the reference sequence of kept pixels. |
| LineLayerHelper.KeptAfterStep | Boreray/DotSpatial.Controls/Extensions/LineLayerHelper.cs:29-41 | One coordinate: its pixel is dropped exactly when it repeats a previous pixel that is not (0, 0). Kept or not, it becomes the next previous pixel. |
| LineLayerHelper.KeptAfterSubsequence | Boreray/DotSpatial.Controls/Extensions/LineLayerHelper.cs:24-42 | The kept pixels are an ordered subsequence of the projected ones, and the first pixel is always kept. |
| LineLayerHelper.KeptAfterHead | Boreray/DotSpatial.Controls/Extensions/LineLayerHelper.cs:29-39 | A kept pixel equals the previous one only when that previous pixel is the empty point (0, 0). |
| LineLayerHelper.KeptAfterRepeatsOnlyEmpty | Boreray/DotSpatial.Controls/Extensions/LineLayerHelper.cs:29-39 | Two equal neighbours in the basic overload's output can only be (0, 0), because `Point.Empty` doubles as "no previous point". |
| LineLayerHelper.OriginRepeated | Boreray/DotSpatial.Controls/Extensions/LineLayerHelper.cs:29-39 | Two adjacent (0, 0) pixels both come out. |
| LineLayerHelper.BasicFigureAwayFromOrigin | Boreray/DotSpatial.Controls/Extensions/LineLayerHelper.cs:24-42 | When (0, 0) does not occur, the basic overload removes exactly the repeats. |
| LineLayerHelper.BuildLineString | Boreray/DotSpatial.Controls/Extensions/LineLayerHelper.cs:50-96 | The index-mode overload appends each part's figures, parts in order. For each part:<br>• the part is clipped only when the shape's extent is not within the view;<br>• each resulting linestring is cleaned and kept when it has two pixels or more. |
| LineLayerHelper.LineFiguresStep | Boreray/DotSpatial.Controls/Extensions/LineLayerHelper.cs:56-95 | A shape's figures over one more part are the figures of the earlier parts followed by that part's figures. |
| LineLayerHelper.AddPartFigures | Boreray/DotSpatial.Controls/Extensions/LineLayerHelper.cs:57-94 | One pass of the part loop extends the path by exactly that part's figures. |
| LineLayerHelper.AddClippedPart | Boreray/DotSpatial.Controls/Extensions/LineLayerHelper.cs:58-94 | One part's figures:<br>• its points are clipped only when the shape's extent is not within the view;<br>• each resulting linestring is cleaned and kept when it has two pixels or more. |
| LineLayerHelper.AddLinestrings | Boreray/DotSpatial.Controls/Extensions/LineLayerHelper.cs:84-94 | Each clipped linestring is cleaned, in order, and appended only when two pixels or more remain. |
| LineLayerHelper.FiguresOfWellFormed | Boreray/DotSpatial.Controls/Extensions/LineLayerHelper.cs:84-94 | At most one figure per linestring. Each has two pixels or more and no equal neighbours. |
| LineLayerHelper.LineFiguresWellFormed | Boreray/DotSpatial.Controls/Extensions/LineLayerHelper.cs:56-95 | Every figure of the overload has two pixels or more and no equal neighbours. |
| LineLayerHelper.LineFiguresInsideView | Boreray/DotSpatial.Controls/Extensions/LineLayerHelper.cs:73-82 | A shape within the geographic extents is never clipped: each part is its whole cleaned projection. |
| LineLayerHelper.FastBuildLine | Boreray/DotSpatial.Controls/Extensions/LineLayerHelper.cs:107-136 | Appends each part's kept pixels as one figure, parts in order, when at least two are kept. |
| LineLayerHelper.FastFiguresStep | Boreray/DotSpatial.Controls/Extensions/LineLayerHelper.cs:109-135 | The figures over one more part are those of the earlier parts followed by that part's kept pixels, when at least two are kept. |
| LineLayerHelper.AddFastPart | Boreray/DotSpatial.Controls/Extensions/LineLayerHelper.cs:111-134 | One part appends its kept pixels as one figure only when at least two are kept. |
| LineLayerHelper.FastPartPoints | Boreray/DotSpatial.Controls/Extensions/LineLayerHelper.cs:114-131 | The inner loop:<br>• skips NaN vertices;<br>• adds a pixel when the vertex is global index 0 or the pixel differs from the last one kept;<br>• starts each part's `previousPoint` at (0, 0). |
| LineLayerHelper.FastVertex | Boreray/DotSpatial.Controls/Extensions/LineLayerHelper.cs:118-130 | One vertex of the inner loop:<br>• a NaN vertex is skipped and `previousPoint` stays;<br>• otherwise its pixel is added, and becomes `previousPoint`, when the vertex is global index 0 or the pixel differs from `previousPoint`;<br>• otherwise it is dropped. |
| LineLayerHelper.FastFromStep | Boreray/DotSpatial.Controls/Extensions/LineLayerHelper.cs:118-130 | The reference sequence of kept pixels takes one vertex at a time, with the three outcomes listed for `FastVertex`. |
| LineLayerHelper.FastPartFigureIsCleaned | Boreray/DotSpatial.Controls/Extensions/LineLayerHelper.cs:115-130 | `FastBuildLine` keeps what `Clean` keeps, except one case. A leading (0, 0) pixel is lost unless the part starts at vertex 0 and that vertex has no NaN. |
| LineLayerHelper.FastPartFigureBounded | Boreray/DotSpatial.Controls/Extensions/LineLayerHelper.cs:116-131 | A part's kept pixels have no equal neighbours, and there are at most end - start + 1 of them. |
| LineLayerHelper.FastFiguresWellFormed | Boreray/DotSpatial.Controls/Extensions/LineLayerHelper.cs:109-135 | At most one figure per part, each of two pixels or more with no equal neighbours. |
| LineLayerHelper.Ceiling | Boreray/DotSpatial.Controls/Extensions/LineLayerHelper.cs:101 | `Math.Ceiling`: the least integer not below r. |
| LineLayerHelper.ClipMargin | Boreray/DotSpatial.Controls/Extensions/LineLayerHelper.cs:101 | `2 * ceil(width)` is even, at least twice the width, and less than twice the width plus 2. |
| LineLayerHelper.ComputeClippingRectangle | Boreray/DotSpatial.Controls/Extensions/LineLayerHelper.cs:98-105 | The image rectangle grown by m = 2·ceil(width) on every side: X - m, Y - m, W + 2m, H + 2m. |
| LineLayerHelper.ClippingRectangleCoversImage | Boreray/DotSpatial.Controls/Extensions/LineLayerHelper.cs:98-105 | For a non-negative width, the clipping rectangle contains the image rectangle. |
| LineLayerHelper.DefineScale | Boreray/DotSpatial.Controls/Extensions/LineLayerHelper.cs:138-146 | 1 unless the scale mode is Geographic. Otherwise the image width divided by the geographic width. |
| LineLayerHelper.CreateLineSymbolizer | Boreray/DotSpatial.Controls/Extensions/LineLayerHelper.cs:148-154 | The selection symbolizer iff selectState == 1, the normal one otherwise. |
| PolygonLayerHelper.ComputeClippingRectangle | Boreray/DotSpatial.Controls/Extensions/PolygonLayerHelper.cs:12-18 | The image rectangle grown by exactly 50 on every side. |
| PolygonLayerHelper.ClippingRectangleCoversImage | Boreray/DotSpatial.Controls/Extensions/PolygonLayerHelper.cs:12-18 | That rectangle contains the image rectangle. |
| PolygonLayerHelper.CreatePointListPoints | Boreray/DotSpatial.Controls/Extensions/PolygonLayerHelper.cs:20-41 | Exactly end - start + 1 points; point k is vertex start + k projected. |
| PolygonLayerHelper.BuildPolygon | Boreray/DotSpatial.Controls/Extensions/PolygonLayerHelper.cs:46-66 | Appends, part by part, the cleaned ring when it has two pixels or more. The ring is clipped only when a clipper is given. Nothing already in the path changes. |
| PolygonLayerHelper.PolygonFiguresStep | Boreray/DotSpatial.Controls/Extensions/PolygonLayerHelper.cs:48-65 | The figures over one more part are those of the earlier parts followed by that part's ring figure. |
| PolygonLayerHelper.AddPolygonPart | Boreray/DotSpatial.Controls/Extensions/PolygonLayerHelper.cs:50-64 | One pass of the part loop extends the path by exactly that part's ring figure. |
| PolygonLayerHelper.AddRing | Boreray/DotSpatial.Controls/Extensions/PolygonLayerHelper.cs:50-64 | One part's ring is projected and clipped when a clipper is given. It is then cleaned, and appended only when two pixels or more remain. |
| PolygonLayerHelper.PolygonFiguresBounded | Boreray/DotSpatial.Controls/Extensions/PolygonLayerHelper.cs:48-65 | At most one figure per part, each of two pixels or more with no equal neighbours. |
| PolygonLayerHelper.PolygonFiguresUnclipped | Boreray/DotSpatial.Controls/Extensions/PolygonLayerHelper.cs:53-57 | With a null clipper every ring is cleaned exactly as projected. |
| PolygonLayerHelper.PolygonFiguresPrefix | Boreray/DotSpatial.Controls/Extensions/PolygonLayerHelper.cs:48-66 | The figures of the first n parts are a prefix of all the figures: later parts only append. |
| PointLayerHelper.CreatePointSymbolizer | Boreray/DotSpatial.Controls/Extensions/PointLayerHelper.cs:9-17 | `SelectionSymbolizer` iff the state is selected, `Symbolizer` otherwise. |
| PointLayerHelper.ValidateCategory | Boreray/DotSpatial.Controls/Extensions/PointLayerHelper.cs:19-24 | False for null, otherwise identity with the category being drawn. |
| PointLayerHelper.ValidateState | Boreray/DotSpatial.Controls/Extensions/PointLayerHelper.cs:26-33 | True iff the state is non-null, visible and has a category. |
| PointLayerHelper.ValidatedStateIsDrawable | Boreray/DotSpatial.Controls/Extensions/PointLayerHelper.cs:19-33 | A state that passes both tests is visible and belongs to the category being drawn. |
| PointLayerHelper.Matrix.Clone | Boreray/DotSpatial.Controls/Extensions/PointLayerHelper.cs:37 | A fresh matrix with the same six elements. |
| PointLayerHelper.Matrix.Translate | Boreray/DotSpatial.Controls/Extensions/PointLayerHelper.cs:38 | Prepends a shift: the new transform applies the old one to (x + tx, y + ty), and the linear part is unchanged. |
| PointLayerHelper.CreateTranslateMatrix | Boreray/DotSpatial.Controls/Extensions/PointLayerHelper.cs:35-40 | A fresh copy that moves the origin to the point. The original transform is not modified. |
| LabelLayerHelper.SafeToString | Boreray/DotSpatial.Controls/Extensions/LabelLayerHelper.cs:120-127 | "" for null and DBNull, the value's own text otherwise. |
| LabelLayerHelper.ContainsExpression | Boreray/DotSpatial.Controls/Extensions/LabelLayerHelper.cs:96-118 | The flag loop returns true iff the string is non-null and holds at least one '[' and at least one ']', in either order. So it is false for null and for "". |
| LabelLayerHelper.Token | Boreray/DotSpatial.Controls/Extensions/LabelLayerHelper.cs:62 | A column's token starts with '[' and is at least two characters long. |
| LabelLayerHelper.GetLabelText | Boreray/DotSpatial.Controls/Extensions/LabelLayerHelper.cs:54-94 | The column loop computes `LabelText`, including:<br>• the floating format for double and float columns;<br>• the `SafeToString` fallbacks;<br>• the early `break` once no bracket pair is left. |
| LabelLayerHelper.LabelTextUnsubstituted | Boreray/DotSpatial.Controls/Extensions/LabelLayerHelper.cs:57-58 | Without a feature, or when the expression fails `ContainsExpression`, the text is the expression itself, null included. |
| LabelLayerHelper.LabelTextNullIffExpressionNull | Boreray/DotSpatial.Controls/Extensions/LabelLayerHelper.cs:57-93 | The text is null exactly when the category's expression is null. Those are the labels the callers skip. |
| LabelLayerHelper.SubstituteWithoutTokens | Boreray/DotSpatial.Controls/Extensions/LabelLayerHelper.cs:62-66 | Columns whose `[Name]` token is absent leave the text untouched. |
| LabelLayerHelper.EarlyExitOnlySavesWork | Boreray/DotSpatial.Controls/Extensions/LabelLayerHelper.cs:88-90 | Stopping once `ContainsExpression` turns false gives the same text as scanning every column. |
| LabelLayerHelper.SubstituteAllWithoutBracket | Boreray/DotSpatial.Controls/Extensions/LabelLayerHelper.cs:65 | With no '[' left, no remaining column changes the text. |
| LabelLayerHelper.SubstituteAllWithoutClosing | Boreray/DotSpatial.Controls/Extensions/LabelLayerHelper.cs:65 | With no ']' left, no remaining column changes the text. |
| LabelLayerHelper.ReplaceAllAbsent | Boreray/DotSpatial.Controls/Extensions/LabelLayerHelper.cs:88 | `Replace` with a pattern that does not occur returns the string unchanged. |
| LabelLayerHelper.ReplaceAllIdentity | Boreray/DotSpatial.Controls/Extensions/LabelLayerHelper.cs:88 | Replacing a token by itself changes nothing. |
| LabelLayerHelper.NamedValue | Boreray/DotSpatial.Controls/Extensions/LabelLayerHelper.cs:35 | The value of a column named exactly `name`, or None when no column has that exact name. |
| LabelLayerHelper.FoldedValues | Boreray/DotSpatial.Controls/Extensions/LabelLayerHelper.cs:35 | Values only of columns equal to `name` ignoring case; empty iff no column matches ignoring case. |
| LabelLayerHelper.Lookup | Boreray/DotSpatial.Controls/Extensions/LabelLayerHelper.cs:35 | `DataRow[name]`: an exact-name column wins. Otherwise the indexer's case-insensitive fallback gives a value iff exactly one column matches ignoring case. None, which stands for the indexer's exception, when no column matches or several match only ignoring case. |
| LabelLayerHelper.FoldedValuesSingle | Boreray/DotSpatial.Controls/Extensions/LabelLayerHelper.cs:35 | When exactly one column equals `name` ignoring case, its value is the only folded value. |
| LabelLayerHelper.LookupCaseFallback | Boreray/DotSpatial.Controls/Extensions/LabelLayerHelper.cs:35 | With no exact-name column, the single column equal to `name` ignoring case (field "angle", column "Angle") gives the value. |
| LabelLayerHelper.GetAngleToRotate | Boreray/DotSpatial.Controls/Extensions/LabelLayerHelper.cs:13-44 | `UseAngle` takes precedence and gives the angle. Otherwise `UseLabelAngleField` gives the field's value. The result is 0 when:<br>• the field name is null or empty;<br>• the feature is missing;<br>• no column matches, case-insensitively only as a fallback, or several do;<br>• the value does not convert;<br>• neither flag is set. |
| LabelLayerHelper.Position | Boreray/DotSpatial.Controls/Extensions/LabelLayerHelper.cs:129-164 | (OffsetX + h·W, -OffsetY + v·H), with h, v ∈ {-1, -1/2, 0} for Left/Center/Right and Top/Middle/Bottom. Any other orientation value gives (0, 0). |
| LabelLayerHelper.MiddleCenterCentres | Boreray/DotSpatial.Controls/Extensions/LabelLayerHelper.cs:148-149 | With MiddleCenter, the anchor plus the offset is the middle of the label. |
| LabelLayerHelper.LabelRectAt | Boreray/DotSpatial.Controls/Extensions/LabelLayerHelper.cs:189-193 | A rectangle of the measured size, at the projected anchor moved by `Position`. |
| LabelLayerHelper.PlacePointLabel | Boreray/DotSpatial.Controls/Extensions/LabelLayerHelper.cs:185-194 | The empty rectangle when the anchor is outside the geographic extents. Otherwise the label rectangle at the anchor. |
| LabelLayerHelper.PlaceLineLabel | Boreray/DotSpatial.Controls/Extensions/LabelLayerHelper.cs:166-183 | Empty for a non-linestring. Otherwise the label rectangle at the anchor the placement method picks, with no extent check. |
| LabelLayerHelper.LineAndPointLabelsAgreeInView | Boreray/DotSpatial.Controls/Extensions/LabelLayerHelper.cs:166-194 | For an anchor inside the extents, the line and point placements give the same rectangle. |
| DictionaryExtensions.Dictionary.Add | Boreray/DotSpatial.Controls/Extensions/DictionaryExtensions.cs:14 | Adds the one new key and changes nothing else. The key must be absent, or `Add` throws. |
| DictionaryExtensions.GetOrAdd | Boreray/DotSpatial.Controls/Extensions/DictionaryExtensions.cs:8-17 | If the key is present: the stored value, with the dictionary unchanged. If absent: the factory's value, now stored. In both cases:<br>• `dic[key]` is the result afterwards;<br>• every other key keeps its value;<br>• the key set gains only `key`, so the size grows by at most one. |
| DictionaryExtensions.GetOrAddTwice | Boreray/DotSpatial.Controls/Extensions/DictionaryExtensions.cs:11-16 | Two calls with one key return the same value, whatever the second factory would make. |
| Caches.Caches.constructor | Boreray/DotSpatial.Controls/Extensions/Caches.cs:10-12 | Three fresh, empty and distinct dictionaries. |
| Caches.FontDescriptionDistinguishes | Boreray/DotSpatial.Controls/Extensions/Caches.cs:16 | Two symbolizers share the key "family;size;style" only when their families, printed sizes and styles agree. This assumes no printed size contains ';'. |
| Caches.Caches.GetFont | Boreray/DotSpatial.Controls/Extensions/Caches.cs:14-18 | The cached font for the description, or on a miss the symbolizer's own font, now cached. Only the font dictionary changes. |
| Caches.Caches.GetSolidBrush | Boreray/DotSpatial.Controls/Extensions/Caches.cs:20-23 | The cached brush of the colour, or a new one now cached. Only the brush dictionary changes. |
| Caches.Caches.GetPen | Boreray/DotSpatial.Controls/Extensions/Caches.cs:25-28 | The cached pen of the colour, or a new one now cached. Only the pen dictionary changes. |
| Caches.Caches.GetFontTwice | Boreray/DotSpatial.Controls/Extensions/Caches.cs:14-18 | Symbolizers with equal descriptions get the same font object, and the key set only grows. |
| Caches.Caches.GetBrushAndPenTwice | Boreray/DotSpatial.Controls/Extensions/Caches.cs:20-28 | Repeated requests for one colour return the first brush and the first pen, and both key sets only grow. |
| StringFactory.PrefixWithEllipsis | Boreray/DotSpatial.Controls/Extensions/Map/StringFactory.cs:10-15 | As written:<br>• `text` when it fits;<br>• otherwise "..." plus the suffix from max(2, len - length - 3), of length 3 + len - max(2, len - length - 3);<br>• None, the `Substring` exception, exactly when the text is too long and either len < 2 or length < -3. |
| StringFactory.PrefixWithEllipsisOverlong | Boreray/DotSpatial.Controls/Extensions/Map/StringFactory.cs:14 | A text at least length + 5 long comes out length + 6 long. |
| StringFactory.PrefixWithEllipsisExample | Boreray/DotSpatial.Controls/Extensions/Map/StringFactory.cs:14 | "abcdefghij" shortened to 5 gives "...cdefghij", which is longer than the input. |
| StringFactory.PrefixWithEllipsisCorrected | Boreray/DotSpatial.Controls/Extensions/Map/StringFactory.cs:10-15 | `text` when it fits. Otherwise "..." followed by the last length - 3 characters, so it is never longer than max(length, 3). |
| StringFactory.CorrectedNeverLonger | Boreray/DotSpatial.Controls/Extensions/Map/StringFactory.cs:14 | For length ≥ 3, the corrected result is never longer than the text, and a shortened one is exactly `length` long. |
| Sequences.SortBy | Boreray/DotSpatial.Controls/MapLabelLayer.cs:398 | The sort is a permutation of its input. |
| Sequences.SortBySorted | Boreray/DotSpatial.Controls/MapLabelLayer.cs:398 | The sort's output is ordered by the key. |
| Sequences.Reverse | Boreray/DotSpatial.Controls/MapLabelLayer.cs:405 | Element i of the result is element n - 1 - i of the input. |
| Sequences.ReverseMultiset | Boreray/DotSpatial.Controls/MapLabelLayer.cs:405 | Reversing keeps every element with its multiplicity. |
| Sequences.ReverseSorted | Boreray/DotSpatial.Controls/MapLabelLayer.cs:401-414 | Reversing an ascending list gives a descending one. |
| Chunking.NumChunks | Boreray/DotSpatial.Controls/MapLineLayer.cs:208 | The least n whose slices reach past the last item. It is 0 iff the list is empty. |
| Chunking.NumChunksCeiling | Boreray/DotSpatial.Controls/MapLineLayer.cs:208 | `Math.Ceiling(count / (double)ChunkSize)` equals (count + C - 1) / C. |
| Chunking.CeilingUnique | Boreray/DotSpatial.Controls/MapLabelLayer.cs:204 | Only the rounded-up quotient n satisfies (n - 1)·C < count ≤ n·C. |
| Chunking.ChunkStartInside | Boreray/DotSpatial.Controls/MapPointLayer.cs:229-232 | Every slice starts inside the list, so `GetRange` is always valid. |
| Chunking.ChunkAt | Boreray/DotSpatial.Controls/MapLineLayer.cs:212-214 | `GetRange(k·C, numFeatures)`, where numFeatures is C except for the last slice, which takes the rest. Each slice:<br>• has 1 to C items;<br>• stays inside the list. |
| Chunking.ChunkAtSlice | Boreray/DotSpatial.Controls/MapLabelLayer.cs:208-210 | Slice k is `xs[k·C .. min((k+1)·C, count)]`. |
| Chunking.ChunkAtMembers | Boreray/DotSpatial.Controls/MapLabelLayer.cs:210 | Every item of a slice is an item of the list. |
| Chunking.ChunkedPrefix | Boreray/DotSpatial.Controls/MapLabelLayer.cs:206-210 | The first k slices concatenate to the items before k·C. |
| Chunking.ChunksPartition | Boreray/DotSpatial.Controls/MapLabelLayer.cs:203-210 | All slices, in order, concatenate to the list. Each is non-empty and at most C long. |
| Chunking.ChunksAt | Boreray/DotSpatial.Controls/MapLineLayer.cs:242-246 | Entry k of the slice list is slice k. |
| Chunking.ChunkRunStep | Boreray/DotSpatial.Controls/MapLineLayer.cs:210-221 | One more slice appends its pass, then the separator unless it is the last slice. |
| Chunking.RunUpToCounts | Boreray/DotSpatial.Controls/MapLineLayer.cs:216-220 | After k of n draw-only slices the separator has fired min(k, n - 1) times. |
| Chunking.FinishedRunCounts | Boreray/DotSpatial.Controls/MapLineLayer.cs:216-220 | A finished run:<br>• of n > 0 draw-only slices carries n - 1 separators and ends with the last pass, with nothing after it;<br>• of an empty list emits nothing. |
| Chunking.SeparatorRunCount | Boreray/DotSpatial.Controls/MapLineLayer.cs:248-254 | With a `BufferChanged` separator: n - 1 notifications and no buffer swap. |
| Chunking.SwapSeparatorRunCount | Boreray/DotSpatial.Controls/MapPointLayer.cs:234-237 | With `FinishDrawing` then `BufferChanged` as separator: n - 1 swaps and n - 1 notifications. |
| MapLabelLayer.LabelList.Add | Boreray/DotSpatial.Controls/MapLabelLayer.cs:487 | Appends one rectangle to the shared list. |
| MapLabelLayer.ClearAllExistingLabels | Boreray/DotSpatial.Controls/MapLabelLayer.cs:111-114 | The shared list becomes empty. |
| MapLabelLayer.Collides | Boreray/DotSpatial.Controls/MapLabelLayer.cs:426-429 | True iff some listed rectangle intersects the candidate, so false for the empty list. |
| MapLabelLayer.CollisionDraw | Boreray/DotSpatial.Controls/MapLabelLayer.cs:479-494 | The drawing log and the shared list change exactly as the collision rule says. |
| MapLabelLayer.CollisionStepRule | Boreray/DotSpatial.Controls/MapLabelLayer.cs:481-493 | A label is drawn iff it is non-empty, meets the image, and, under `PreventCollisions`, intersects no listed label. It is appended iff it is drawn under `PreventCollisions`. Otherwise nothing changes. |
| MapLabelLayer.CollisionStepGrows | Boreray/DotSpatial.Controls/MapLabelLayer.cs:482-493 | A collision step:<br>• only appends drawing calls;<br>• only appends labels;<br>• keeps a pairwise non-overlapping list non-overlapping. |
| MapLabelLayer.GrowsCounts | Boreray/DotSpatial.Controls/MapLabelLayer.cs:486 | Labelling adds drawing calls only: no notification and no buffer swap. |
| MapLabelLayer.CollisionDrawAll | Boreray/DotSpatial.Controls/MapLabelLayer.cs:452-456 | The `LabelAllParts` loop applies the collision rule to each part's rectangle in order. |
| MapLabelLayer.CollideAllGrows | Boreray/DotSpatial.Controls/MapLabelLayer.cs:452-456 | A sequence of collision steps keeps the list growing and non-overlapping. |
| MapLabelLayer.RepeatedLabelDrawnOnce | Boreray/DotSpatial.Controls/MapLabelLayer.cs:543-549 | Under collision prevention, trying one rectangle m ≥ 1 times, once per part, acts like trying it once. |
| MapLabelLayer.LargestSpec | Boreray/DotSpatial.Controls/MapLabelLayer.cs:460-472 | The strict `<` loop finds the first strictly maximal positive value, and stays at (0, index 0) when no value is positive. |
| MapLabelLayer.LongestIndex | Boreray/DotSpatial.Controls/MapLabelLayer.cs:590-602 | The first part of maximal positive length, or part 0 when no length is positive. |
| MapLabelLayer.LargestPolygon | Boreray/DotSpatial.Controls/MapLabelLayer.cs:460-472 | The first polygon part of maximal positive area, or null when no area is positive. |
| MapLabelLayer.LongestLinePart | Boreray/DotSpatial.Controls/MapLabelLayer.cs:590-602 | The loop computes `LongestIndex`. |
| MapLabelLayer.LargestPolygonPart | Boreray/DotSpatial.Controls/MapLabelLayer.cs:460-472 | The loop computes `LargestPolygon`. |
| MapLabelLayer.PlacePolygonLabel | Boreray/DotSpatial.Controls/MapLabelLayer.cs:496-521 | Empty for a null or non-polygon geometry and for an anchor outside the extents. Otherwise the label rectangle at the centroid, interior point or envelope centre. |
| MapLabelLayer.SymbolizerFor | Boreray/DotSpatial.Controls/MapLabelLayer.cs:436 | The selection symbolizer for a selected feature, the normal one otherwise. |
| MapLabelLayer.FeatureLabelsGrows | Boreray/DotSpatial.Controls/MapLabelLayer.cs:434-477 | Labelling one feature only draws, only appends labels, and keeps the list non-overlapping. |
| MapLabelLayer.FeatureLabelsWithoutText | Boreray/DotSpatial.Controls/MapLabelLayer.cs:439-440 | A null text returns before anything is drawn. |
| MapLabelLayer.FeatureBounds | Boreray/DotSpatial.Controls/MapLabelLayer.cs:443-475 | Under `LabelAllParts`, one rectangle per geometry that is tried, so none for a feature without geometries. Otherwise exactly one. None for a feature type that is not drawn. |
| MapLabelLayer.DrawPolygonFeature | Boreray/DotSpatial.Controls/MapLabelLayer.cs:434-477 | One label for a single geometry, one per part under `LabelAllParts`, or one for the largest polygon otherwise (empty when there is none). Any number of geometries, zero included. |
| MapLabelLayer.DrawLineFeature | Boreray/DotSpatial.Controls/MapLabelLayer.cs:563-607 | One label for a single geometry, one per part under `LabelAllParts`, or one for the longest part otherwise. Zero geometries are accepted under `LabelAllParts`. |
| MapLabelLayer.DrawPointFeature | Boreray/DotSpatial.Controls/MapLabelLayer.cs:532-556 | The same point label, once per part under `LabelAllParts`, once otherwise. Any number of geometries, zero included. |
| MapLabelLayer.DrawLabelFeature | Boreray/DotSpatial.Controls/MapLabelLayer.cs:360-377 | The action for the feature type: polygon, line or point. |
| MapLabelLayer.AfterChunkStep | Boreray/DotSpatial.Controls/MapLabelLayer.cs:212-218 | A slice's pass plus an optional notification adds exactly that notification and no swap. |
| MapLabelLayer.StageRunCounts | Boreray/DotSpatial.Controls/MapLabelLayer.cs:206-219 | After k slices:<br>• `BufferChanged` has fired once per slice except the last;<br>• no swap has happened;<br>• labels have only grown. |
| MapLabelLayer.StageRunNotifies | Boreray/DotSpatial.Controls/MapLabelLayer.cs:203-219 | A finished run:<br>• notifies n - 1 times;<br>• changes nothing for an empty list;<br>• never swaps;<br>• keeps the list non-overlapping. |
| MapLabelLayer.MapLabelLayer.constructor | Boreray/DotSpatial.Controls/MapLabelLayer.cs:93-102 | The layer starts without drawn states, with `ChunkSize` 10000. |
| MapLabelLayer.MapLabelLayer.CategoryMembers | Boreray/DotSpatial.Controls/MapLabelLayer.cs:382-392 | Only input features whose drawn state has this category, and no more of them than there are inputs. |
| MapLabelLayer.MapLabelLayer.CategoryMembersSpec | Boreray/DotSpatial.Controls/MapLabelLayer.cs:382-392 | The category list is an ordered subsequence of the input. It holds every feature whose state has this category. |
| MapLabelLayer.MapLabelLayer.SelectCategoryFeatures | Boreray/DotSpatial.Controls/MapLabelLayer.cs:382-392 | The filter loop computes `CategoryMembers`. |
| MapLabelLayer.MapLabelLayer.PriorityOrder | Boreray/DotSpatial.Controls/MapLabelLayer.cs:395-415 | The priority order is a permutation of the category's features. |
| MapLabelLayer.MapLabelLayer.PriorityOrderRule | Boreray/DotSpatial.Controls/MapLabelLayer.cs:395-415 | "FID" keeps the input order. Any other field sorts ascending by it, and reverses to descending exactly when `PreventCollisions` ≠ `PrioritizeLowValues`. |
| MapLabelLayer.MapLabelLayer.CategoryOrder | Boreray/DotSpatial.Controls/MapLabelLayer.cs:382-415 | The filtered, ordered list holds only features with states and geometry, within the visibility array. |
| MapLabelLayer.MapLabelLayer.OrderCategoryFeatures | Boreray/DotSpatial.Controls/MapLabelLayer.cs:382-415 | Filter then sort compute `CategoryOrder`. |
| MapLabelLayer.MapLabelLayer.VisibleLabelsGrows | Boreray/DotSpatial.Controls/MapLabelLayer.cs:416-420 | The visible-features loop only draws and keeps the list non-overlapping. |
| MapLabelLayer.MapLabelLayer.CategoriesLabelsGrows | Boreray/DotSpatial.Controls/MapLabelLayer.cs:379-421 | The loop over categories only draws and keeps the list non-overlapping. |
| MapLabelLayer.MapLabelLayer.DrawCategoryFeatures | Boreray/DotSpatial.Controls/MapLabelLayer.cs:379-420 | One category: filter, priority order, then each feature whose `DrawnStates[i]` is visible, i being the position in the ordered list. |
| MapLabelLayer.MapLabelLayer.DrawFeatureCategories | Boreray/DotSpatial.Controls/MapLabelLayer.cs:379-421 | The categories in symbology order. |
| MapLabelLayer.MapLabelLayer.DrawFeaturePass | Boreray/DotSpatial.Controls/MapLabelLayer.cs:342-424 | Feature mode:<br>• nothing without a category that has an expression;<br>• the states are rebuilt when the first feature has none;<br>• nothing without states or for an undrawable type;<br>• otherwise every category in turn. |
| MapLabelLayer.MapLabelLayer.FeaturePassGrows | Boreray/DotSpatial.Controls/MapLabelLayer.cs:342-424 | A feature-mode pass only draws, only appends labels, and keeps the list non-overlapping. |
| MapLabelLayer.MapLabelLayer.NoExpressionsDrawNothing | Boreray/DotSpatial.Controls/MapLabelLayer.cs:259-260 | If no category has an expression, a pass of either mode leaves the canvas, the label list and the drawn states as they were. |
| MapLabelLayer.MapLabelLayer.FeatureRunNotifies | Boreray/DotSpatial.Controls/MapLabelLayer.cs:195-220 | A chunked feature-mode run notifies n - 1 times and never after the last slice. It never swaps, keeps the list non-overlapping, and changes nothing for an empty list. |
| MapLabelLayer.MapLabelLayer.DrawFeatureChunk | Boreray/DotSpatial.Controls/MapLabelLayer.cs:206-219 | One slice's pass, then `BufferChanged` unless it is the last slice. |
| MapLabelLayer.MapLabelLayer.DrawFeaturesChunked | Boreray/DotSpatial.Controls/MapLabelLayer.cs:195-220 | Without chunks, one direct pass. With chunks, the staged run over the C-slices. |
| MapLabelLayer.MapLabelLayer.DrawFeatureChunks | Boreray/DotSpatial.Controls/MapLabelLayer.cs:203-219 | The chunk loop computes the staged run. |
| MapLabelLayer.MapLabelLayer.IndexMembers | Boreray/DotSpatial.Controls/MapLabelLayer.cs:297-305 | Only input indices whose fast state is non-null and has this category. |
| MapLabelLayer.MapLabelLayer.IndexMembersSpec | Boreray/DotSpatial.Controls/MapLabelLayer.cs:297-305 | The index list is an ordered subsequence of the input and holds every index of this category. |
| MapLabelLayer.MapLabelLayer.SelectCategoryIndices | Boreray/DotSpatial.Controls/MapLabelLayer.cs:297-305 | The filter loop computes `IndexMembers`. |
| MapLabelLayer.MapLabelLayer.IndexPriorityOrder | Boreray/DotSpatial.Controls/MapLabelLayer.cs:308-328 | The index order is a permutation of the category's indices. |
| MapLabelLayer.MapLabelLayer.IndexPriorityOrderRule | Boreray/DotSpatial.Controls/MapLabelLayer.cs:308-328 | "FID" keeps the order. Otherwise `List<int>.Sort` sorts the indices ascending, and they are descending exactly when `PreventCollisions` ≠ `PrioritizeLowValues`. |
| MapLabelLayer.MapLabelLayer.IndexCategoryOrder | Boreray/DotSpatial.Controls/MapLabelLayer.cs:297-328 | The ordered index list only holds drawable indices with states. |
| MapLabelLayer.MapLabelLayer.OrderCategoryIndices | Boreray/DotSpatial.Controls/MapLabelLayer.cs:297-328 | Filter then sort compute `IndexCategoryOrder`. |
| MapLabelLayer.MapLabelLayer.IndexVisibleLabelsGrows | Boreray/DotSpatial.Controls/MapLabelLayer.cs:330-335 | The visible-indices loop only draws and keeps the list non-overlapping. |
| MapLabelLayer.MapLabelLayer.IndexCategoriesLabelsGrows | Boreray/DotSpatial.Controls/MapLabelLayer.cs:295-336 | The loop over categories only draws and keeps the list non-overlapping. |
| MapLabelLayer.MapLabelLayer.DrawCategoryIndices | Boreray/DotSpatial.Controls/MapLabelLayer.cs:295-336 | One category: filter, order, then each index visible in the feature layer's `DrawnStates[fid]`. |
| MapLabelLayer.MapLabelLayer.DrawIndexCategories | Boreray/DotSpatial.Controls/MapLabelLayer.cs:295-336 | The categories in symbology order. |
| MapLabelLayer.MapLabelLayer.DrawIndexPass | Boreray/DotSpatial.Controls/MapLabelLayer.cs:257-339 | Index mode:<br>• nothing without an expression;<br>• the fast states are built when missing;<br>• nothing without them or for an undrawable type;<br>• otherwise every category. |
| MapLabelLayer.MapLabelLayer.IndexPassGrows | Boreray/DotSpatial.Controls/MapLabelLayer.cs:257-339 | An index-mode pass only draws, only appends labels, and keeps the list non-overlapping. |
| MapLabelLayer.MapLabelLayer.IndexRunNotifies | Boreray/DotSpatial.Controls/MapLabelLayer.cs:229-254 | A chunked index-mode run notifies n - 1 times, never swaps, and keeps the list non-overlapping. |
| MapLabelLayer.MapLabelLayer.DrawIndexChunk | Boreray/DotSpatial.Controls/MapLabelLayer.cs:240-253 | One slice's pass, then `BufferChanged` unless it is the last slice. |
| MapLabelLayer.MapLabelLayer.DrawIndicesChunked | Boreray/DotSpatial.Controls/MapLabelLayer.cs:229-254 | Without chunks, one direct pass. With chunks, the staged run over the C-slices. |
| MapLabelLayer.MapLabelLayer.DrawIndexChunks | Boreray/DotSpatial.Controls/MapLabelLayer.cs:237-254 | The chunk loop computes the staged run. |
| MapLineLayer.ShapesInRegionsSpec | Boreray/DotSpatial.Controls/MapLineLayer.cs:113-127 | The list is strictly increasing, and i is in it iff some region meets shape i's extent. |
| MapLineLayer.CreateIndiceList | Boreray/DotSpatial.Controls/MapLineLayer.cs:113-127 | The shape indices, ascending and without duplicates, that meet at least one region. |
| MapLineLayer.IsMemberExclusive | Boreray/DotSpatial.Controls/MapLineLayer.cs:33-36 | A state is a member of at most one (category, selectState) pass. |
| MapLineLayer.Members | Boreray/DotSpatial.Controls/MapLineLayer.cs:426-439 | Every kept index comes from the input. |
| MapLineLayer.MembersSpec | Boreray/DotSpatial.Controls/MapLineLayer.cs:426-439 | An ordered subsequence of the input, keeping i iff the category matches, `Selected == (selectState == 1)` and `Visible`. |
| MapLineLayer.FilterFeaturesToDraw | Boreray/DotSpatial.Controls/MapLineLayer.cs:426-439 | The index-mode loop computes `Members`. |
| MapLineLayer.PassesDisjoint | Boreray/DotSpatial.Controls/MapLineLayer.cs:356-377 | Two different passes never draw the same index. |
| MapLineLayer.FeatureMembers | Boreray/DotSpatial.Controls/MapLineLayer.cs:488-494 | Every kept feature comes from the input. |
| MapLineLayer.FeatureMembersSpec | Boreray/DotSpatial.Controls/MapLineLayer.cs:488-494 | Feature mode keeps an ordered subsequence: exactly the features whose filter state passes `IsMember`. |
| MapLineLayer.PathFiguresWellFormed | Boreray/DotSpatial.Controls/MapLineLayer.cs:415-424 | Every figure of a pass's path has two pixels or more and no equal neighbours. |
| MapLineLayer.StrokeEvents | Boreray/DotSpatial.Controls/MapLineLayer.cs:370-373 | One `DrawPath` per stroke, in stroke order, on the same path and scale. |
| MapLineLayer.DrawStrokes | Boreray/DotSpatial.Controls/MapLineLayer.cs:370-373 | The stroke loop appends `StrokeEvents`. |
| MapLineLayer.CreateGraphPath | Boreray/DotSpatial.Controls/MapLineLayer.cs:415-424 | A fresh path holding each listed shape's figures in list order. |
| MapLineLayer.CreateFeatureGraphPath | Boreray/DotSpatial.Controls/MapLineLayer.cs:478-486 | The same for features, through each feature's own shape range. |
| MapLineLayer.PathFiguresStep | Boreray/DotSpatial.Controls/MapLineLayer.cs:415-424 | A path's figures over one more shape are those of the earlier shapes followed by that shape's line figures. |
| MapLineLayer.SelectStateEventsStep | Boreray/DotSpatial.Controls/MapLineLayer.cs:358-376 | Within a selectState, one more category appends that category's pass. |
| MapLineLayer.SelectStateEventsDrawOnly | Boreray/DotSpatial.Controls/MapLineLayer.cs:356-377 | A selectState pass only draws, and every stroke's figures are well formed. |
| MapLineLayer.CategoryEventsDrawOnly | Boreray/DotSpatial.Controls/MapLineLayer.cs:360-375 | One category's strokes only draw, and each draws a path whose figures are well formed. |
| MapLineLayer.MaxOf | Boreray/DotSpatial.Controls/MapLineLayer.cs:350 | `indices.Max()` is an element of the list and is at least every element. |
| MapLineLayer.EffectiveStatesRule | Boreray/DotSpatial.Controls/MapLineLayer.cs:349-355 | The states are reassigned when some index is ≥ their length, and kept otherwise. |
| MapLineLayer.IndexPassDrawOnly | Boreray/DotSpatial.Controls/MapLineLayer.cs:343-402 | An index pass only draws: no notification and no swap. |
| MapLineLayer.IndexPassWithoutStates | Boreray/DotSpatial.Controls/MapLineLayer.cs:379-399 | Without drawn states, every stroke is one of `Categories[0]`'s normal strokes, on the path of every index. |
| MapLineLayer.FeaturePassDrawOnly | Boreray/DotSpatial.Controls/MapLineLayer.cs:442-463 | A feature pass only draws. |
| MapLineLayer.MapLineLayer.constructor | Boreray/DotSpatial.Controls/MapLineLayer.cs:84-88 | `ChunkSize` is 50000. |
| MapLineLayer.MapLineLayer.DrawCategoryPass | Boreray/DotSpatial.Controls/MapLineLayer.cs:358-376 | One (category, selectState) pass: the symbolizer, the clip rectangle, the filter, the path, then the strokes. |
| MapLineLayer.MapLineLayer.DrawSelectState | Boreray/DotSpatial.Controls/MapLineLayer.cs:356-377 | The categories of one selectState in symbology order. |
| MapLineLayer.MapLineLayer.DrawWithStates | Boreray/DotSpatial.Controls/MapLineLayer.cs:347-378 | selectState 0, then 1. |
| MapLineLayer.MapLineLayer.DrawAllIndices | Boreray/DotSpatial.Controls/MapLineLayer.cs:379-399 | One path of every index, stroked with `Categories[0].Symbolizer`. |
| MapLineLayer.MapLineLayer.DrawIndexPass | Boreray/DotSpatial.Controls/MapLineLayer.cs:343-402 | The index-mode pass, with the layer's states reassigned when the largest index is out of range. |
| MapLineLayer.MapLineLayer.DrawFeatureCategoryPass | Boreray/DotSpatial.Controls/MapLineLayer.cs:448-459 | One feature-mode (category, selectState) pass through `DrawPath`. |
| MapLineLayer.MapLineLayer.DrawFeatureSelectState | Boreray/DotSpatial.Controls/MapLineLayer.cs:446-460 | The categories of one selectState, in symbology order. |
| MapLineLayer.MapLineLayer.DrawFeaturePass | Boreray/DotSpatial.Controls/MapLineLayer.cs:442-463 | selectState 0, then 1. |
| MapLineLayer.MapLineLayer.DrawFeatureChunk | Boreray/DotSpatial.Controls/MapLineLayer.cs:210-221 | One slice's pass, then `BufferChanged` unless it is the last slice. |
| MapLineLayer.MapLineLayer.FeatureChunkStep | Boreray/DotSpatial.Controls/MapLineLayer.cs:212-220 | One slice's pass, followed by `BufferChanged` unless it is the last slice, extends the run by one chunk. |
| MapLineLayer.MapLineLayer.DrawFeaturesChunked | Boreray/DotSpatial.Controls/MapLineLayer.cs:199-222 | Without chunks, one pass. With chunks, the passes over the C-slices with `BufferChanged` between them. |
| MapLineLayer.MapLineLayer.DrawFeatureChunksFrom | Boreray/DotSpatial.Controls/MapLineLayer.cs:210-221 | The chunk loop of feature mode takes a run from none of its slices to all of them. |
| MapLineLayer.FeatureChunkPassAt | Boreray/DotSpatial.Controls/MapLineLayer.cs:212-214 | Chunk k's pass is the feature pass over `GetRange(k·C, numFeatures)`, which is drawable. |
| MapLineLayer.FeatureRunNotifies | Boreray/DotSpatial.Controls/MapLineLayer.cs:210-221 | A chunked feature run over a non-empty list raises `BufferChanged` n - 1 times. |
| MapLineLayer.MapLineLayer.DrawIndexChunk | Boreray/DotSpatial.Controls/MapLineLayer.cs:242-255 | One slice's pass, from the states the earlier slices left, then `BufferChanged` unless it is the last slice. |
| MapLineLayer.MapLineLayer.IndexChunkReady | Boreray/DotSpatial.Controls/MapLineLayer.cs:244-246 | Every slice can be drawn from the states that the earlier slices left. |
| MapLineLayer.MapLineLayer.IndexChunkStep | Boreray/DotSpatial.Controls/MapLineLayer.cs:244-254 | One slice's pass, followed by `BufferChanged` unless it is the last slice, extends both the states and the log of the run by one chunk. |
| MapLineLayer.MapLineLayer.DrawIndicesChunked | Boreray/DotSpatial.Controls/MapLineLayer.cs:231-256 | Without chunks, one pass. With chunks, one pass per slice, each from the previous slice's states, with `BufferChanged` between them. |
| MapLineLayer.MapLineLayer.DrawIndexChunks | Boreray/DotSpatial.Controls/MapLineLayer.cs:239-256 | The chunk loop, with both the states and the log tracked. |
| MapLineLayer.MapLineLayer.DrawIndexChunksFrom | Boreray/DotSpatial.Controls/MapLineLayer.cs:242-255 | The chunk loop of index mode takes a run from none of its slices to all of them. |
| MapLineLayer.StatesBeforeCases | Boreray/DotSpatial.Controls/MapLineLayer.cs:349-355 | Over a run the states are always the initial ones or the reassigned ones. Without drawn states they never change. |
| MapLineLayer.StatesBeforeCover | Boreray/DotSpatial.Controls/MapLineLayer.cs:349-355 | Once reassigned they stay covering. Initial states that cover every index are never reassigned. |
| MapLineLayer.IndexChunkPassAt | Boreray/DotSpatial.Controls/MapLineLayer.cs:244-246 | Chunk k's pass is the index pass over `GetRange(k·C, numFeatures)` from the states it inherits, and it is drawable. |
| MapLineLayer.IndexRunNotifies | Boreray/DotSpatial.Controls/MapLineLayer.cs:242-255 | A chunked index run over a non-empty list raises `BufferChanged` n - 1 times. |
| MapLineLayer.IndexChunkOk | Boreray/DotSpatial.Controls/MapLineLayer.cs:246 | Every slice of a valid index list can be drawn from covering states. |
| MapPointLayer.MapPointLayer.FinishDrawing | Boreray/DotSpatial.Controls/MapPointLayer.cs:247-252 | Afterwards Buffer equals BackBuffer. The old front buffer is disposed only when it was not null and not the back buffer. |
| MapPointLayer.MapPointLayer.StartDrawing | Boreray/DotSpatial.Controls/MapPointLayer.cs:261-278 | A fresh back buffer of `BufferRectangle`'s size. It shows the front buffer only when `preserve` is set and the sizes match. The old back buffer is disposed unless it was the front buffer. |
| MapPointLayer.MapPointLayer.RangePixels | Boreray/DotSpatial.Controls/MapPointLayer.cs:407-409 | One pixel per vertex from `StartIndex` to `EndIndex()` inclusive. |
| MapPointLayer.MapPointLayer.IndexStampsSpec | Boreray/DotSpatial.Controls/MapPointLayer.cs:374-401 | `DrawIndex` stamps nothing for an invisible, category-less or other-category state. Otherwise it stamps the selected bitmap iff the state is selected: once for a point, or once per vertex of a multipoint. |
| MapPointLayer.MapPointLayer.DrawIndex | Boreray/DotSpatial.Controls/MapPointLayer.cs:374-401 | The method appends exactly `IndexStamps`. |
| MapPointLayer.MapPointLayer.DrawMultiPointStamps | Boreray/DotSpatial.Controls/MapPointLayer.cs:403-413 | The bitmap is stamped at each vertex `StartIndex..EndIndex()`, in order. |
| MapPointLayer.MapPointLayer.DrawMultiPointSymbols | Boreray/DotSpatial.Controls/MapPointLayer.cs:449-456 | The symbolizer is drawn at each vertex `StartIndex..EndIndex()`, in order. |
| MapPointLayer.MapPointLayer.DrawCategory | Boreray/DotSpatial.Controls/MapPointLayer.cs:333-372 | Nothing draws without a symbolizer or when a symbol scales below one pixel. Otherwise every index's stamps for the category. |
| MapPointLayer.MapPointLayer.DrawStates | Boreray/DotSpatial.Controls/MapPointLayer.cs:325-331 | `DrawCategory` for each category in symbology order. |
| MapPointLayer.MapPointLayer.IndexSymbolsShown | Boreray/DotSpatial.Controls/MapPointLayer.cs:428-434 | Without states, an index is hidden only when it is inside `DrawnStates` and marked invisible. Any other index is drawn at each of its pixels. |
| MapPointLayer.MapPointLayer.DrawIndexSymbols | Boreray/DotSpatial.Controls/MapPointLayer.cs:428-443 | One index of the `DrawWithoutStates` loop. |
| MapPointLayer.MapPointLayer.DrawWithoutStates | Boreray/DotSpatial.Controls/MapPointLayer.cs:417-445 | Returns true iff there is no category or no symbolizer, having drawn nothing. Otherwise it returns false, having drawn every index not known to be invisible. |
| MapPointLayer.MapPointLayer.DrawIndexPass | Boreray/DotSpatial.Controls/MapPointLayer.cs:487-506 | `DrawWithoutStates` or `DrawStates`, as `DrawnStatesNeeded` says. |
| MapPointLayer.MapPointLayer.IndexPassDrawOnly | Boreray/DotSpatial.Controls/MapPointLayer.cs:487-506 | An index pass only draws. |
| MapPointLayer.MapPointLayer.CoordinatePixels | Boreray/DotSpatial.Controls/MapPointLayer.cs:561-564 | One pixel per coordinate of the feature, in order. |
| MapPointLayer.MapPointLayer.DrawCoordinate | Boreray/DotSpatial.Controls/MapPointLayer.cs:567-573 | Appends exactly one symbol draw: the symbolizer at `CreatePoint(e, c)`, scaled as `DefineScale` says for its scale mode. |
| MapPointLayer.MapPointLayer.DrawFeature | Boreray/DotSpatial.Controls/MapPointLayer.cs:557-565 | `DrawCoordinate` at every coordinate, in order. |
| MapPointLayer.MapPointLayer.FeatureSymbolizer | Boreray/DotSpatial.Controls/MapPointLayer.cs:520-535 | A symbolizer iff all of these hold:<br>• the feature has a state;<br>• the state is valid;<br>• the state's category is the current one;<br>• the chosen symbolizer is non-null.<br>The symbolizer is the selection one iff the state is selected. |
| MapPointLayer.MapPointLayer.DrawFeatureCategory | Boreray/DotSpatial.Controls/MapPointLayer.cs:518-539 | One category's loop, with its draws and whether it hit `return`. |
| MapPointLayer.MapPointLayer.CategoryRunCompleted | Boreray/DotSpatial.Controls/MapPointLayer.cs:518-540 | A category loop that ran to the end passed every feature's checks. |
| MapPointLayer.MapPointLayer.CategoryRunStops | Boreray/DotSpatial.Controls/MapPointLayer.cs:520-535 | The first feature to fail its checks ends the whole call, after the features before it were drawn: `return`, not `continue`. |
| MapPointLayer.MapPointLayer.FeaturePassOnlyFirstCategory | Boreray/DotSpatial.Controls/MapPointLayer.cs:518-531 | With distinct categories and any features, feature mode never gets past the first category. |
| MapPointLayer.MapPointLayer.DrawFeaturePass | Boreray/DotSpatial.Controls/MapPointLayer.cs:509-550 | Feature mode: nothing without states, otherwise the categories until the first abort. |
| MapPointLayer.MapPointLayer.FeaturePassDrawOnly | Boreray/DotSpatial.Controls/MapPointLayer.cs:509-550 | A feature pass only draws. |
| MapPointLayer.MapPointLayer.FeatureChunkPassAt | Boreray/DotSpatial.Controls/MapPointLayer.cs:229-233 | Chunk k's pass is the feature pass over `GetRange(k·C, groupSize)`. |
| MapPointLayer.MapPointLayer.FeatureRunCounts | Boreray/DotSpatial.Controls/MapPointLayer.cs:225-238 | A chunked feature run (count ≥ `ChunkSize`) runs `FinishDrawing` and then `BufferChanged` between slices: n - 1 times each. |
| MapPointLayer.MapPointLayer.DrawFeatureChunk | Boreray/DotSpatial.Controls/MapPointLayer.cs:227-238 | One slice's pass, then `FinishDrawing` and `BufferChanged` unless it is the last slice. The buffers change exactly as `FinishDrawing` says. |
| MapPointLayer.MapPointLayer.DrawFeaturesChunked | Boreray/DotSpatial.Controls/MapPointLayer.cs:217-239 | Fewer than `ChunkSize` features: one pass, no swap, no notification. Otherwise the swap-separated run, with the following outcome:<br>• Buffer is the back buffer if there were two slices or more;<br>• the old front buffer is disposed when it differed. |
| MapPointLayer.MapPointLayer.DrawFeatureChunks | Boreray/DotSpatial.Controls/MapPointLayer.cs:225-238 | The chunk loop of feature mode. |
| MapPointLayer.MapPointLayer.IndexChunkPassAt | Boreray/DotSpatial.Controls/MapPointLayer.cs:473-476 | Chunk k's pass is the index pass over `GetRange(k·C, numFeatures)`. |
| MapPointLayer.MapPointLayer.IndexRunCounts | Boreray/DotSpatial.Controls/MapPointLayer.cs:466-485 | Index mode always chunks: n - 1 notifications, no swap, nothing at all for an empty list. |
| MapPointLayer.MapPointLayer.DrawIndexChunk | Boreray/DotSpatial.Controls/MapPointLayer.cs:471-484 | One slice's pass, then `BufferChanged` unless it is the last slice. |
| MapPointLayer.MapPointLayer.DrawIndicesChunked | Boreray/DotSpatial.Controls/MapPointLayer.cs:466-485 | The chunked index-mode run. |

## Left out

- **Drawing calls don't draw.** GDI+ drawing becomes events in a `RenderLog` trace: a stroke's `DrawPath`, a symbol stamp, a symbolizer draw, a drawn label, `FinishDrawing` and `BufferChanged`. The following are events or are left out:
  - pixels, smoothing modes and `Graphics` creation and disposal;
  - `DrawLabel` with its halo, shadow and background;
  - `RotateAt` in LabelLayerHelper.cs and GraphicsHelper.cs;
  - the symbol bitmaps of `DrawCategory`.
- **`BufferChanged` handlers.** `BufferChanged` is recorded whether or not a handler is attached.
- **Event-loop yields.** `Application.DoEvents` is an event-loop yield with no effect on the model.
- **Clippers.** `CohenSutherland.ClipLinestring` and `SoutherlandHodgman.Clip` are not part of this model. They are function parameters.
- **Geometry library.** The DotSpatial.Data/Topology calls are inputs of the model. The centroid, interior point, envelope centre, length, area, `FeatureSet.GetFeature`, `GetBasicGeometryN` and `FromBasicGeometry` are given per feature or per part. The extent tests are closed-box comparisons.
- **`MeasureString`.** This is the `Typesetter.measure` parameter.
- **Text conversions.** `ToString`, `Convert.ToDouble`/`ToSingle`, `double.ToString(FloatingFormat)` and the table locale's case-insensitive column-name comparison are the `TextEnv` parameters. The comparison is a key function `fold`. The font size's printed form is the `formatSize` parameter.
- **Floating point.** Float precision and `Convert.ToSingle` rounding are left out: coordinates are reals. Infinities are left out: a double is a real or NaN. `Convert.ToInt32` overflow is not modelled.
  - `LineLayerHelper.DefineScale`, `MapLineLayer.ScalesDefined`, `MapPointLayer.ScaleOk`: a zero geographic width under Geographic scaling is excluded. The source divides the int image width by a double there and gets Infinity or NaN, without an exception; the model has no infinities.
- **Sorting.** `List.Sort` with `Feature.ComparisonField` is a stable insertion sort on the `priorityKey` parameter. The real sort is unstable, so equal keys may come out in another order.
- **Lambdas.** `IsMember` is a lambda, and the `drawFeature` closures capture `ExistingLabels`. Both are modelled as functions and parameters.
- **Shared state.** The static `ExistingLabels` list and the static `Caches` are passed in as objects. Concurrency and the sharing between layers are outside the model.
- **Built states.** `AssignFastDrawnStates`, `CreateLabels` and `CreateIndexedLabels` are not part of this model. What they build is a constructor input.
- **Point-label anchor.** `PlacePointLabel` reads `GetBasicGeometryN(1).Coordinates[0]`. That anchor is an input field of the feature; the exception a one-part feature raises there is not modelled.
- **Chunk size.** Each layer's `ChunkSize` keeps the default its constructor sets: 50000 for lines and points, 10000 for labels. The settable property is not modelled. A `ChunkSize` of 0 or less is excluded, since `Chunking.NumChunks` requires a positive size; the source would divide by zero in `Math.Ceiling(count / (double)ChunkSize)`.
- **Not modelled:**
  - `DrawRegions`, `CreateFeatureList`, `Clear`;
  - `CreateLayerFromSelectedFeatures`, `OnCreateLabels`, the properties, and the constructors' `Configure` beyond `ChunkSize`;
  - Map.designer.cs, Loader.cs, MapChangedEventArgs.cs, IStatusControl.cs, HJustification.cs and the assembly metadata.
- **Exceptions as preconditions.** Where the source would throw an exception, the model requires its absence. The causes are an index out of range, a null dereference, `Max()` of an empty list, or a negative list capacity:
  - `MapLineLayer.MapLineLayer.DrawIndexPass`: indices inside the states after reassignment, and a first category when there are no drawn states;
  - `MapLabelLayer.MapLabelLayer.DrawFeaturePass`: a non-empty list when some category has an expression, because of `features.First()`, and `FeatureLayer.DrawnStates` covering every position;
  - `MapLabelLayer.DrawLineFeature`, `MapLabelLayer.FeatureBounds`, `MapLabelLayer.FeatureLabels`: a line feature without geometries must use `LabelAllParts`. Otherwise `GetBasicGeometryN(longestIndex)` reads a geometry that is not there;
  - `MapLabelLayer.MapLabelLayer.FeaturesFit`, `MapLabelLayer.MapLabelLayer.IndexFits`: at layer level both symbolizers of every category must meet that demand for such a feature. The drawn state that picks the symbolizer is only known inside the pass;
  - `MapLabelLayer.MapLabelLayer.DrawIndexPass`: states for every fid;
  - `MapPointLayer.MapPointLayer.DrawCategory`, `MapPointLayer.MapPointLayer.DrawStates`: a selection symbolizer once the normal symbol is present and at least one pixel in each direction. `SelectionSymbolizer.GetSize()` is read there (MapPointLayer.cs:356). An index pass demands this only when drawn states are needed; feature mode never demands it;
  - `LineLayerHelper.BuildLineString`, `PolygonLayerHelper.BuildPolygon`, `MapLineLayer.ShapesOk`: every part range has `startIndex <= endIndex + 1`. Otherwise `new List<double[]>(end - start + 1)` gets a negative capacity and throws (LineLayerHelper.cs:61, PolygonLayerHelper.cs:29);
- **Source quirks kept as written:**
  - label feature mode reads `FeatureLayer.DrawnStates[i]` by position in the category list, not by feature;
  - index-mode label priority sorts the fids themselves;
  - `FastBuildLine` drops a leading (0, 0) pixel;
  - in the basic `BuildLineString`, `Point.Empty` stands for "no previous point";
  - point feature mode aborts on the first undrawable feature.
- MapLineLayer.MapLineLayer.DrawIndexPass: with drawn states needed, an empty index list is excluded (`IndexPassOk`). The source's `indices.Max()` throws InvalidOperationException there (MapLineLayer.cs:350).
- MapLineLayer.MapLineLayer.DrawIndicesChunked: without chunks and with drawn states needed, an empty index list is excluded for the same `indices.Max()` exception. With chunks an empty list runs no pass at all and is accepted.
- Caches.FontDescriptionDistinguishes: stated only when no printed font size contains ';'. A family name containing ';' could otherwise make two different descriptions collide.
- PointLayerHelper.Matrix.Translate: covers only the translation of an affine matrix. `Matrix` keeps its six elements, with nothing else of GDI+.

## Findings

| source | as written | input that shows it | evidently intended | confidence | as-written member | corrected member |
|---|---|---|---|---|---|---|
| Boreray/DotSpatial.Controls/Extensions/Map/StringFactory.cs:14 | `"..." + text.Substring(Math.Max(2, text.Length - length - 3))` keeps len - max(2, len - length - 3) characters. Whenever len - length - 3 ≥ 2 the result is length + 6 long, six more than asked for. | `PrefixWithEllipsis("abcdefghij", 5)` gives "...cdefghij" (11 characters, longer than the 10-character input) | "..." followed by the last length - 3 characters, so the result is `length` long (`Substring(text.Length - length + 3)`) | not executed | StringFactory.PrefixWithEllipsis, StringFactory.PrefixWithEllipsisOverlong, StringFactory.PrefixWithEllipsisExample | StringFactory.PrefixWithEllipsisCorrected, StringFactory.CorrectedNeverLonger |
