/**
 * The symbology the renderer reads: symbolizers, categories and the per-feature
 * drawn states. All of it is read-only during a render pass. A category is a
 * reference in the source; here it carries a `key` so that two distinct
 * categories with the same settings stay distinct values.
 */
module Symbology {
  import opened Geometry

  datatype ScaleMode = Geographic | Symbolic | Simple

  datatype FeatureType = PointType | MultiPointType | LineType | PolygonType | Unspecified

  /** One stroke of a line symbolizer (IStroke); drawing it is left to the surface. */
  datatype Stroke = Stroke(id: nat)

  /** ILineSymbolizer: its width (GetWidth), its strokes and its scale mode. */
  datatype LineSymbolizer = LineSymbolizer(width: real, strokes: seq<Stroke>, scaleMode: ScaleMode)

  datatype LineCategory = LineCategory(key: nat, symbolizer: LineSymbolizer, selectionSymbolizer: LineSymbolizer)

  /** IPointSymbolizer: its size (GetSize) and scale mode. */
  datatype PointSymbolizer = PointSymbolizer(id: nat, width: real, height: real, scaleMode: ScaleMode)

  /** IPointCategory; either symbolizer may be null. */
  datatype PointCategory = PointCategory(key: nat, symbolizer: Option<PointSymbolizer>,
                                         selectionSymbolizer: Option<PointSymbolizer>)

  /**
   * FastDrawnState (index mode) and IDrawnState (feature mode) share this shape:
   * the assigned category (null allowed), the selection flag and the visibility.
   */
  datatype DrawnState<C> = DrawnState(category: Option<C>, selected: bool, visible: bool)

  /** ContentAlignment values, as the enumeration numbers them. */
  const TopLeft := 1
  const TopCenter := 2
  const TopRight := 4
  const MiddleLeft := 16
  const MiddleCenter := 32
  const MiddleRight := 64
  const BottomLeft := 256
  const BottomCenter := 512
  const BottomRight := 1024

  datatype LabelPlacementMethod = Centroid | InteriorPoint | EnvelopeCenter

  datatype PartLabelingMethod = LabelAllParts | LabelLargestPart

  /** System.Drawing.FontStyle, a set of flags. */
  datatype FontStyle = FontStyle(bold: bool, italic: bool, underline: bool, strikeout: bool)

  /** ILabelSymbolizer, restricted to what the core reads. */
  datatype LabelSymbolizer = LabelSymbolizer(
    orientation: int, offsetX: real, offsetY: real,
    useAngle: bool, angle: real,
    useLabelAngleField: bool, labelAngleField: Option<string>,
    floatingFormat: Option<string>,
    placement: LabelPlacementMethod, partsLabeling: PartLabelingMethod,
    preventCollisions: bool, prioritizeLowValues: bool, priorityField: string,
    fontFamily: string, fontSize: real, fontStyle: FontStyle)

  /** ILabelCategory: the label expression (null allowed) and its two symbolizers. */
  datatype LabelCategory = LabelCategory(key: nat, expression: Option<string>,
                                         symbolizer: LabelSymbolizer, selectionSymbolizer: LabelSymbolizer)

  /** FastLabelDrawnState / LabelDrawState: the category (null allowed) and the selection flag. */
  datatype LabelState = LabelState(category: Option<LabelCategory>, selected: bool)
}
