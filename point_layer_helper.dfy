/**
 * PointLayerHelper: choosing a point symbolizer by selection state, the two
 * validity tests the point layer applies before drawing, and the transform that
 * moves a symbol to its pixel.
 */
module PointLayerHelper {
  import opened Geometry
  import opened Symbology

  /** The selection symbolizer for a selected state, the normal one otherwise. */
  function CreatePointSymbolizer(pc: PointCategory, ds: DrawnState<PointCategory>): (ps: Option<PointSymbolizer>)
    ensures ds.selected ==> ps == pc.selectionSymbolizer
    ensures !ds.selected ==> ps == pc.symbolizer
  {
    if ds.selected then pc.selectionSymbolizer else pc.symbolizer
  }

  /** Validate(pc, category): a non-null category that is the one being drawn. */
  function ValidateCategory(pc: Option<PointCategory>, category: Option<PointCategory>): (ok: bool)
    ensures ok <==> pc.Some? && pc == category
  {
    if pc.None? then false else pc == category
  }

  /** Validate(ds): a non-null, visible state that has a category. */
  function ValidateState(ds: Option<DrawnState<PointCategory>>): (ok: bool)
    ensures ok <==> ds.Some? && ds.value.visible && ds.value.category.Some?
  {
    if ds.None? then false
    else if !ds.value.visible then false
    else ds.value.category.Some?
  }

  /** A state passing both tests belongs to the category being drawn and is visible. */
  lemma ValidatedStateIsDrawable(ds: Option<DrawnState<PointCategory>>, category: PointCategory)
    requires ValidateState(ds) && ValidateCategory(ds.value.category, Some(category))
    ensures ds.value.visible && ds.value.category == Some(category)
  {
  }

  /**
   * A System.Drawing.Drawing2D.Matrix: an affine map taking (x, y) to
   * (m11 x + m21 y + dx, m12 x + m22 y + dy).
   */
  class Matrix {
    var m11: real
    var m12: real
    var m21: real
    var m22: real
    var dx: real
    var dy: real

    constructor (m11: real, m12: real, m21: real, m22: real, dx: real, dy: real)
      ensures this.m11 == m11 && this.m12 == m12 && this.m21 == m21 && this.m22 == m22
      ensures this.dx == dx && this.dy == dy
    {
      this.m11 := m11;
      this.m12 := m12;
      this.m21 := m21;
      this.m22 := m22;
      this.dx := dx;
      this.dy := dy;
    }

    function ApplyX(x: real, y: real): real
      reads this
    {
      m11 * x + m21 * y + dx
    }

    function ApplyY(x: real, y: real): real
      reads this
    {
      m12 * x + m22 * y + dy
    }

    method Clone() returns (c: Matrix)
      ensures fresh(c)
      ensures c.m11 == m11 && c.m12 == m12 && c.m21 == m21 && c.m22 == m22 && c.dx == dx && c.dy == dy
    {
      c := new Matrix(m11, m12, m21, m22, dx, dy);
    }

    /** Translate(tx, ty) in the default (prepend) order: the shift happens before this transform. */
    method Translate(tx: real, ty: real)
      modifies this
      ensures m11 == old(m11) && m12 == old(m12) && m21 == old(m21) && m22 == old(m22)
      ensures forall x: real, y: real :: ApplyX(x, y) == old(ApplyX(x + tx, y + ty))
      ensures forall x: real, y: real :: ApplyY(x, y) == old(ApplyY(x + tx, y + ty))
    {
      dx := dx + m11 * tx + m21 * ty;
      dy := dy + m12 * tx + m22 * ty;
    }
  }

  /** A copy of the transform that first moves the origin to `pt`; the original is left alone. */
  method CreateTranslateMatrix(origTransform: Matrix, pt: Point) returns (shift: Matrix)
    ensures fresh(shift)
    ensures forall x: real, y: real ::
              shift.ApplyX(x, y) == origTransform.ApplyX(x + pt.x as real, y + pt.y as real) &&
              shift.ApplyY(x, y) == origTransform.ApplyY(x + pt.x as real, y + pt.y as real)
  {
    shift := origTransform.Clone();
    shift.Translate(pt.x as real, pt.y as real);
  }
}
