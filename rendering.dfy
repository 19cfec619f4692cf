/**
 * The drawing surface, abstracted. GDI+ is not modelled: a GraphicsPath is the
 * list of figures appended to it, and a Graphics surface (plus the layer's
 * BufferChanged event) is a log of the calls made on it, in order.
 */
module Rendering {
  import opened Geometry
  import opened Symbology

  /** A GraphicsPath: every StartFigure + AddLines pair appends one figure. */
  class GraphicsPath {
    var figures: seq<seq<Point>>

    constructor ()
      ensures figures == []
    {
      figures := [];
    }

    /** StartFigure followed by AddLines(points). */
    method AddFigure(points: seq<Point>)
      modifies this
      ensures figures == old(figures) + [points]
    {
      figures := figures + [points];
    }
  }

  /** One observable call made by the renderer. */
  datatype RenderEvent =
    /** IStroke.DrawPath(g, path, scale). */
    | StrokePath(stroke: Stroke, figures: seq<seq<Point>>, scale: real)
    /** IPointSymbolizer.Draw(g, scale) with the transform translated to `at`. */
    | PointSymbol(pointSymbolizer: PointSymbolizer, at: Point, scale: real)
    /** DrawImageUnscaled of a category's normal or selected symbol bitmap centred on `at`. */
    | SymbolStamp(category: PointCategory, selected: bool, at: Point)
    /** DrawLabel(g, text, bounds, symbolizer, feature). */
    | LabelDrawn(text: string, bounds: RectF, labelSymbolizer: LabelSymbolizer)
    /** OnBufferChanged(clipRectangles). */
    | BufferChanged(clips: seq<Rect>)
    /** FinishDrawing: the back buffer became the front buffer. */
    | DrawingFinished

  /** Draw calls only: no notification and no buffer swap. */
  predicate DrawOnly(s: seq<RenderEvent>)
  {
    forall i :: 0 <= i < |s| ==> !s[i].BufferChanged? && !s[i].DrawingFinished?
  }

  lemma DrawOnlyConcat(a: seq<RenderEvent>, b: seq<RenderEvent>)
    requires DrawOnly(a) && DrawOnly(b)
    ensures DrawOnly(a + b)
  {
    forall i | 0 <= i < |a + b| ensures !(a + b)[i].BufferChanged? && !(a + b)[i].DrawingFinished? {
      if i >= |a| {
        assert (a + b)[i] == b[i - |a|];
      }
    }
  }

  /** The number of BufferChanged notifications in a log. */
  function CountChanged(s: seq<RenderEvent>): nat
  {
    if s == [] then 0 else (if s[0].BufferChanged? then 1 else 0) + CountChanged(s[1..])
  }

  /** The number of buffer swaps in a log. */
  function CountFinished(s: seq<RenderEvent>): nat
  {
    if s == [] then 0 else (if s[0].DrawingFinished? then 1 else 0) + CountFinished(s[1..])
  }

  lemma {:induction false} CountsOfConcat(a: seq<RenderEvent>, b: seq<RenderEvent>)
    ensures CountChanged(a + b) == CountChanged(a) + CountChanged(b)
    ensures CountFinished(a + b) == CountFinished(a) + CountFinished(b)
  {
    if a != [] {
      assert (a + b)[1..] == a[1..] + b;
      CountsOfConcat(a[1..], b);
    } else {
      assert a + b == b;
    }
  }

  lemma {:induction false} DrawOnlyCountsNothing(s: seq<RenderEvent>)
    requires DrawOnly(s)
    ensures CountChanged(s) == 0 && CountFinished(s) == 0
  {
    if s != [] {
      assert DrawOnly(s[1..]) by {
        forall i | 0 <= i < |s[1..]| ensures !s[1..][i].BufferChanged? && !s[1..][i].DrawingFinished? {
          assert s[1..][i] == s[i + 1];
        }
      }
      DrawOnlyCountsNothing(s[1..]);
    }
  }

  /** The Graphics surface together with the host's view of BufferChanged. */
  class RenderLog {
    var events: seq<RenderEvent>

    constructor ()
      ensures events == []
    {
      events := [];
    }

    method Emit(e: RenderEvent)
      modifies this
      ensures events == old(events) + [e]
    {
      events := events + [e];
    }

    method EmitAll(es: seq<RenderEvent>)
      modifies this
      ensures events == old(events) + es
    {
      events := events + es;
    }
  }
}
