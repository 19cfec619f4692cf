/**
 * LabelLayerHelper: the label text of a feature (the category's expression
 * with each "[Column]" token replaced by the feature's value), the rotation
 * angle, the offset that aligns a label to its anchor, and the bounds of a
 * point or line label.
 */
module LabelLayerHelper {
  import opened Geometry
  import opened Symbology

  // ---------------------------------------------------------------------------
  // Attribute values
  // ---------------------------------------------------------------------------

  /** A value of a DataRow cell: null, DBNull.Value, a number or a string. */
  datatype Value = Null | DbNull | Number(n: real) | Text(s: string)

  /** A DataColumn: its name and whether its DataType is double or float. */
  datatype Column = Column(name: string, isFloating: bool)

  datatype Cell = Cell(column: Column, value: Value)

  /** A feature's DataRow: one cell per column of its table, in column order. */
  datatype DataRow = DataRow(cells: seq<Cell>)

  /**
   * The culture-dependent conversions of the .NET library, as parameters:
   * Object.ToString of a number, Double.Parse of a string (None when it throws),
   * Double.ToString(format) (None when the format string is invalid), and the
   * table locale's case-insensitive comparison of column names, as the key two
   * names share exactly when they compare equal ignoring case.
   */
  datatype TextEnv = TextEnv(numberToString: real -> string,
                             parse: string -> Option<real>,
                             format: (real, string) -> Option<string>,
                             fold: string -> string)

  /** "" for null and DBNull, the value's own ToString otherwise. */
  function SafeToString(value: Value, env: TextEnv): (s: string)
    ensures value.Null? || value.DbNull? ==> s == ""
    ensures value.Text? ==> s == value.s
    ensures value.Number? ==> s == env.numberToString(value.n)
  {
    match value
    case Null => ""
    case DbNull => ""
    case Number(n) => env.numberToString(n)
    case Text(s) => s
  }

  /**
   * Convert.ToDouble / Convert.ToSingle on an object: null converts to 0,
   * DBNull cannot be converted, a string is parsed. None stands for the
   * exception.
   */
  function ToNumber(value: Value, env: TextEnv): Option<real>
  {
    match value
    case Null => Some(0.0)
    case DbNull => None
    case Number(n) => Some(n)
    case Text(s) => env.parse(s)
  }

  /**
   * Char.IsWhiteSpace: the Unicode space, line and paragraph separators
   * (U+0020, U+00A0, U+1680, U+2000-U+200A, U+2028, U+2029, U+202F, U+205F,
   * U+3000) and the controls U+0009-U+000D and U+0085.
   */
  predicate IsWhiteSpace(c: char)
  {
    || ('\U{0009}' <= c <= '\U{000D}') || c == ' ' || c == '\U{0085}' || c == '\U{00A0}' || c == '\U{1680}'
    || ('\U{2000}' <= c <= '\U{200A}') || c == '\U{2028}' || c == '\U{2029}' || c == '\U{202F}' || c == '\U{205F}'
    || c == '\U{3000}'
  }

  predicate IsNullOrWhiteSpace(s: Option<string>)
  {
    s.None? || forall i :: 0 <= i < |s.value| ==> IsWhiteSpace(s.value[i])
  }

  // ---------------------------------------------------------------------------
  // ContainsExpression
  // ---------------------------------------------------------------------------

  /** The text holds at least one '[' and at least one ']', in either order. */
  predicate HasExpression(s: Option<string>)
  {
    s.Some? && '[' in s.value && ']' in s.value
  }

  method ContainsExpression(inStr: Option<string>) returns (b: bool)
    ensures b <==> HasExpression(inStr)
  {
    if inStr.None? || |inStr.value| == 0 {
      return false;
    }
    var str := inStr.value;
    var s1 := false;
    var s2 := false;
    var i := 0;
    while i < |str|
      invariant 0 <= i <= |str|
      invariant s1 <==> ']' in str[..i]
      invariant s2 <==> '[' in str[..i]
      invariant !(s1 && s2)
    {
      var t := str[i];
      assert str[..i + 1] == str[..i] + [t];
      if t == ']' {
        s1 := true;
        if s1 && s2 {
          return true;
        }
      } else if t == '[' {
        s2 := true;
        if s1 && s2 {
          return true;
        }
      }
      i := i + 1;
    }
    assert str[..i] == str;
    return false;
  }

  // ---------------------------------------------------------------------------
  // GetLabelText
  // ---------------------------------------------------------------------------

  /** `pat` occurs in `s` starting at index i. */
  predicate OccursAt(s: string, pat: string, i: int)
  {
    0 <= i && i + |pat| <= |s| && s[i..i + |pat|] == pat
  }

  /** String.Contains. */
  predicate Contains(s: string, pat: string)
  {
    exists i :: 0 <= i <= |s| && OccursAt(s, pat, i)
  }

  /** String.Replace: every non-overlapping occurrence, scanning left to right. */
  function ReplaceAll(s: string, pat: string, rep: string): string
    requires |pat| > 0
    decreases |s|
  {
    if |s| < |pat| then s
    else if s[..|pat|] == pat then rep + ReplaceAll(s[|pat|..], pat, rep)
    else [s[0]] + ReplaceAll(s[1..], pat, rep)
  }

  /** The token standing for a column in an expression. */
  function Token(c: Column): (t: string)
    ensures |t| >= 2 && t[0] == '['
  {
    "[" + c.name + "]"
  }

  /**
   * The text a cell contributes: with a floating format in use and a double or
   * float column, the number printed with that format; otherwise, or when the
   * conversion or the format fails, SafeToString.
   */
  function CellText(cell: Cell, useFloatingFormat: bool, floatingFormat: Option<string>, env: TextEnv): string
  {
    if useFloatingFormat && cell.column.isFloating && floatingFormat.Some? then
      match ToNumber(cell.value, env)
      case None => SafeToString(cell.value, env)
      case Some(dv) =>
        match env.format(dv, floatingFormat.value)
        case None => SafeToString(cell.value, env)
        case Some(t) => t
    else SafeToString(cell.value, env)
  }

  /**
   * The column loop: columns whose token is absent are skipped, and the loop
   * stops once no '[' / ']' pair is left.
   */
  function Substitute(text: string, cells: seq<Cell>, useFloatingFormat: bool, floatingFormat: Option<string>,
                      env: TextEnv): string
    decreases |cells|
  {
    if cells == [] then text
    else
      var token := Token(cells[0].column);
      if !Contains(text, token) then Substitute(text, cells[1..], useFloatingFormat, floatingFormat, env)
      else
        var r := ReplaceAll(text, token, CellText(cells[0], useFloatingFormat, floatingFormat, env));
        if !HasExpression(Some(r)) then r else Substitute(r, cells[1..], useFloatingFormat, floatingFormat, env)
  }

  /** The label text: the expression, with the feature's values substituted when there is a feature. */
  function LabelText(feature: Option<DataRow>, category: LabelCategory, symb: LabelSymbolizer, env: TextEnv)
    : Option<string>
  {
    var useFloatingFormat := !IsNullOrWhiteSpace(symb.floatingFormat);
    var result := category.expression;
    if feature.Some? && HasExpression(result) then
      Some(Substitute(result.value, feature.value.cells, useFloatingFormat, symb.floatingFormat, env))
    else result
  }

  method GetLabelText(feature: Option<DataRow>, category: LabelCategory, symb: LabelSymbolizer, env: TextEnv)
    returns (r: Option<string>)
    ensures r == LabelText(feature, category, symb, env)
  {
    var useFloatingFormat := !IsNullOrWhiteSpace(symb.floatingFormat);
    r := category.expression;
    var hasExpression := ContainsExpression(r);
    if feature.Some? && hasExpression {
      var result := r.value;
      var columns := feature.value.cells;
      ghost var target := Substitute(result, columns, useFloatingFormat, symb.floatingFormat, env);
      var i := 0;
      while i < |columns|
        invariant 0 <= i <= |columns|
        invariant Substitute(result, columns[i..], useFloatingFormat, symb.floatingFormat, env) == target
      {
        assert columns[i..][1..] == columns[i + 1..];
        var dc := columns[i].column;
        var curColumnReplacement := "[" + dc.name + "]";
        if !Contains(result, curColumnReplacement) {
          i := i + 1;
          continue;
        }
        var currValue := columns[i].value;
        var replacement: string;
        if useFloatingFormat && dc.isFloating && symb.floatingFormat.Some? {
          var dv := ToNumber(currValue, env);
          if dv.None? {
            replacement := SafeToString(currValue, env);
          } else {
            var formatted := env.format(dv.value, symb.floatingFormat.value);
            if formatted.None? {
              replacement := SafeToString(currValue, env);
            } else {
              replacement := formatted.value;
            }
          }
        } else {
          replacement := SafeToString(currValue, env);
        }
        result := ReplaceAll(result, curColumnReplacement, replacement);
        var more := ContainsExpression(Some(result));
        if !more {
          break;
        }
        i := i + 1;
      }
      r := Some(result);
    }
  }

  /** Without a feature, or with an expression lacking '[' or ']', the expression itself (null included). */
  lemma LabelTextUnsubstituted(feature: Option<DataRow>, category: LabelCategory, symb: LabelSymbolizer, env: TextEnv)
    requires feature.None? || !HasExpression(category.expression)
    ensures LabelText(feature, category, symb, env) == category.expression
  {
  }

  /** The text is null exactly when the expression is; callers skip such labels. */
  lemma LabelTextNullIffExpressionNull(feature: Option<DataRow>, category: LabelCategory, symb: LabelSymbolizer,
                                       env: TextEnv)
    ensures LabelText(feature, category, symb, env).None? <==> category.expression.None?
  {
  }

  lemma {:induction false} ContainsTokenHasBracket(s: string, c: Column)
    requires Contains(s, Token(c))
    ensures '[' in s
  {
    var t := Token(c);
    var i :| 0 <= i <= |s| && OccursAt(s, t, i);
    assert s[i] == s[i..i + |t|][0];
  }

  /** The loop without its early exit. */
  function SubstituteAll(text: string, cells: seq<Cell>, useFloatingFormat: bool, floatingFormat: Option<string>,
                         env: TextEnv): string
    decreases |cells|
  {
    if cells == [] then text
    else
      var token := Token(cells[0].column);
      var r := if Contains(text, token)
               then ReplaceAll(text, token, CellText(cells[0], useFloatingFormat, floatingFormat, env))
               else text;
      SubstituteAll(r, cells[1..], useFloatingFormat, floatingFormat, env)
  }

  /** Without any '[' no token can occur, so the remaining columns change nothing. */
  lemma {:induction false} SubstituteAllWithoutBracket(text: string, cells: seq<Cell>, useFloatingFormat: bool,
                                                       floatingFormat: Option<string>, env: TextEnv)
    requires '[' !in text
    ensures SubstituteAll(text, cells, useFloatingFormat, floatingFormat, env) == text
    decreases |cells|
  {
    if cells != [] {
      if Contains(text, Token(cells[0].column)) {
        ContainsTokenHasBracket(text, cells[0].column);
      }
      SubstituteAllWithoutBracket(text, cells[1..], useFloatingFormat, floatingFormat, env);
    }
  }

  /** Stopping once the brackets are gone only saves work: it gives what the full loop gives. */
  lemma {:induction false} EarlyExitOnlySavesWork(text: string, cells: seq<Cell>, useFloatingFormat: bool,
                                                  floatingFormat: Option<string>, env: TextEnv)
    requires HasExpression(Some(text))
    ensures Substitute(text, cells, useFloatingFormat, floatingFormat, env) ==
            SubstituteAll(text, cells, useFloatingFormat, floatingFormat, env)
    decreases |cells|
  {
    if cells != [] {
      var token := Token(cells[0].column);
      if !Contains(text, token) {
        EarlyExitOnlySavesWork(text, cells[1..], useFloatingFormat, floatingFormat, env);
      } else {
        var r := ReplaceAll(text, token, CellText(cells[0], useFloatingFormat, floatingFormat, env));
        if !HasExpression(Some(r)) {
          if '[' !in r {
            SubstituteAllWithoutBracket(r, cells[1..], useFloatingFormat, floatingFormat, env);
          } else {
            SubstituteAllWithoutClosing(r, cells[1..], useFloatingFormat, floatingFormat, env);
          }
        } else {
          EarlyExitOnlySavesWork(r, cells[1..], useFloatingFormat, floatingFormat, env);
        }
      }
    }
  }

  lemma {:induction false} ContainsTokenHasClosing(s: string, c: Column)
    requires Contains(s, Token(c))
    ensures ']' in s
  {
    var t := Token(c);
    var i :| 0 <= i <= |s| && OccursAt(s, t, i);
    assert t[|t| - 1] == ']';
    assert s[i + |t| - 1] == s[i..i + |t|][|t| - 1];
  }

  /** Without any ']' no token can occur either. */
  lemma {:induction false} SubstituteAllWithoutClosing(text: string, cells: seq<Cell>, useFloatingFormat: bool,
                                                       floatingFormat: Option<string>, env: TextEnv)
    requires ']' !in text
    ensures SubstituteAll(text, cells, useFloatingFormat, floatingFormat, env) == text
    decreases |cells|
  {
    if cells != [] {
      if Contains(text, Token(cells[0].column)) {
        ContainsTokenHasClosing(text, cells[0].column);
      }
      SubstituteAllWithoutClosing(text, cells[1..], useFloatingFormat, floatingFormat, env);
    }
  }

  /** A column whose token is absent leaves the text untouched, so with no token present nothing changes. */
  lemma {:induction false} SubstituteWithoutTokens(text: string, cells: seq<Cell>, useFloatingFormat: bool,
                                                   floatingFormat: Option<string>, env: TextEnv)
    requires forall i :: 0 <= i < |cells| ==> !Contains(text, Token(cells[i].column))
    ensures Substitute(text, cells, useFloatingFormat, floatingFormat, env) == text
    decreases |cells|
  {
    if cells != [] {
      assert forall i :: 0 <= i < |cells[1..]| ==> cells[1..][i] == cells[i + 1];
      SubstituteWithoutTokens(text, cells[1..], useFloatingFormat, floatingFormat, env);
    }
  }

  lemma {:induction false} ReplaceAllAbsent(s: string, pat: string, rep: string)
    requires |pat| > 0 && !Contains(s, pat)
    ensures ReplaceAll(s, pat, rep) == s
    decreases |s|
  {
    if |s| >= |pat| {
      assert s[..|pat|] != pat by {
        assert s[0..0 + |pat|] == s[..|pat|];
        assert !OccursAt(s, pat, 0);
      }
      assert !Contains(s[1..], pat) by {
        forall i | 0 <= i && i + |pat| <= |s[1..]| ensures !OccursAt(s[1..], pat, i) {
          assert s[1..][i..i + |pat|] == s[i + 1..i + 1 + |pat|];
          assert !OccursAt(s, pat, i + 1);
        }
      }
      ReplaceAllAbsent(s[1..], pat, rep);
    }
  }

  /** Replacing a token by itself changes nothing. */
  lemma {:induction false} ReplaceAllIdentity(s: string, pat: string)
    requires |pat| > 0
    ensures ReplaceAll(s, pat, pat) == s
    decreases |s|
  {
    if |s| >= |pat| {
      if s[..|pat|] == pat {
        ReplaceAllIdentity(s[|pat|..], pat);
        assert s == s[..|pat|] + s[|pat|..];
      } else {
        ReplaceAllIdentity(s[1..], pat);
        assert s == [s[0]] + s[1..];
      }
    }
  }

  // ---------------------------------------------------------------------------
  // GetAngleToRotate
  // ---------------------------------------------------------------------------

  /** The value of the first column named exactly name, None when there is none. */
  function NamedValue(cells: seq<Cell>, name: string): (v: Option<Value>)
    ensures v.Some? ==> exists i :: 0 <= i < |cells| && cells[i].column.name == name && cells[i].value == v.value
    ensures v.None? ==> forall i :: 0 <= i < |cells| ==> cells[i].column.name != name
  {
    if cells == [] then None
    else if cells[0].column.name == name then Some(cells[0].value)
    else NamedValue(cells[1..], name)
  }

  /** The values of the columns whose name equals name ignoring case, in column order. */
  function FoldedValues(cells: seq<Cell>, name: string, fold: string -> string): (r: seq<Value>)
    ensures |r| <= |cells|
    ensures r == [] <==> forall i :: 0 <= i < |cells| ==> fold(cells[i].column.name) != fold(name)
    ensures forall v :: v in r ==> exists i :: 0 <= i < |cells| && fold(cells[i].column.name) == fold(name) && cells[i].value == v
    decreases |cells|
  {
    if cells == [] then []
    else
      var rest := FoldedValues(cells[1..], name, fold);
      assert forall i :: 1 <= i < |cells| ==> cells[i] == cells[1..][i - 1];
      if fold(cells[0].column.name) == fold(name) then [cells[0].value] + rest else rest
  }

  /**
   * DataRow[name]: the column of exactly that name, else the one column equal
   * to it ignoring case; None, which stands for the indexer's exception, when
   * no column matches or several match only ignoring case.
   */
  function Lookup(cells: seq<Cell>, name: string, fold: string -> string): (v: Option<Value>)
    ensures NamedValue(cells, name).Some? ==> v == NamedValue(cells, name)
    ensures NamedValue(cells, name).None? ==> (v.Some? <==> |FoldedValues(cells, name, fold)| == 1)
    ensures v.Some? ==> exists i :: 0 <= i < |cells| && fold(cells[i].column.name) == fold(name) && cells[i].value == v.value
    ensures v.None? ==> forall i :: 0 <= i < |cells| ==> cells[i].column.name != name
  {
    match NamedValue(cells, name)
    case Some(x) => Some(x)
    case None =>
      var folded := FoldedValues(cells, name, fold);
      if |folded| == 1 then assert folded[0] in folded; Some(folded[0]) else None
  }

  /** Exactly one column equal to name ignoring case: the folded values are that column's value alone. */
  lemma {:induction false} FoldedValuesSingle(cells: seq<Cell>, name: string, fold: string -> string, i: nat)
    requires i < |cells| && fold(cells[i].column.name) == fold(name)
    requires forall j :: 0 <= j < |cells| && j != i ==> fold(cells[j].column.name) != fold(name)
    ensures FoldedValues(cells, name, fold) == [cells[i].value]
    decreases |cells|
  {
    assert forall j :: 1 <= j < |cells| ==> cells[j] == cells[1..][j - 1];
    if i == 0 {
      assert FoldedValues(cells[1..], name, fold) == [];
    } else {
      FoldedValuesSingle(cells[1..], name, fold, i - 1);
    }
  }

  /**
   * The indexer's case-insensitive fallback: with no column of exactly that
   * name, the one column equal to it ignoring case gives the value.
   */
  lemma LookupCaseFallback(cells: seq<Cell>, name: string, fold: string -> string, i: nat)
    requires i < |cells| && fold(cells[i].column.name) == fold(name)
    requires forall j :: 0 <= j < |cells| ==> cells[j].column.name != name
    requires forall j :: 0 <= j < |cells| && j != i ==> fold(cells[j].column.name) != fold(name)
    ensures Lookup(cells, name, fold) == Some(cells[i].value)
  {
    FoldedValuesSingle(cells, name, fold, i);
  }

  /**
   * The rotation of a label: the fixed angle when UseAngle is set, else the
   * value of the angle field when UseLabelAngleField is set and the field is
   * named; 0 when the field is unnamed, the feature or column is missing, the
   * value does not convert, or neither flag is set.
   */
  function GetAngleToRotate(symb: LabelSymbolizer, feature: Option<DataRow>, env: TextEnv): (angle: real)
    ensures symb.useAngle ==> angle == symb.angle
    ensures !symb.useAngle && !symb.useLabelAngleField ==> angle == 0.0
    ensures (!symb.useAngle && symb.useLabelAngleField &&
             (symb.labelAngleField.None? || symb.labelAngleField.value == "")) ==> angle == 0.0
    ensures !symb.useAngle && symb.useLabelAngleField && symb.labelAngleField.Some? && symb.labelAngleField.value != "" ==>
              if feature.Some? && Lookup(feature.value.cells, symb.labelAngleField.value, env.fold).Some? &&
                 ToNumber(Lookup(feature.value.cells, symb.labelAngleField.value, env.fold).value, env).Some?
              then angle == ToNumber(Lookup(feature.value.cells, symb.labelAngleField.value, env.fold).value, env).value
              else angle == 0.0
  {
    if symb.useAngle then symb.angle
    else if symb.useLabelAngleField then
      if symb.labelAngleField.None? || symb.labelAngleField.value == "" then 0.0
      else if feature.None? then 0.0
      else match Lookup(feature.value.cells, symb.labelAngleField.value, env.fold)
        case None => 0.0
        case Some(v) =>
          match ToNumber(v, env)
          case None => 0.0
          case Some(a) => a
    else 0.0
  }

  // ---------------------------------------------------------------------------
  // Position, PlacePointLabel, PlaceLineLabel
  // ---------------------------------------------------------------------------

  /** A PointF with finite co-ordinates. */
  datatype Vec = Vec(x: real, y: real)

  predicate IsAlignment(o: int)
  {
    o == TopLeft || o == TopCenter || o == TopRight || o == MiddleLeft || o == MiddleCenter ||
    o == MiddleRight || o == BottomLeft || o == BottomCenter || o == BottomRight
  }

  /** The share of the label's width that lies left of the anchor: all, half or none. */
  function HorizontalShift(o: int): real
  {
    if o == TopLeft || o == MiddleLeft || o == BottomLeft then -1.0
    else if o == TopCenter || o == MiddleCenter || o == BottomCenter then -0.5
    else 0.0
  }

  /** The share of the label's height that lies above the anchor: all, half or none. */
  function VerticalShift(o: int): real
  {
    if o == TopLeft || o == TopCenter || o == TopRight then -1.0
    else if o == MiddleLeft || o == MiddleCenter || o == MiddleRight then -0.5
    else 0.0
  }

  /**
   * The offset from the anchor to the label's top-left corner: the symbolizer's
   * offset (Y pointing up) plus the shift the orientation asks for; (0, 0) for
   * a value that is no single ContentAlignment.
   */
  function Position(symb: LabelSymbolizer, size: SizeF): (p: Vec)
    ensures IsAlignment(symb.orientation) ==>
              p == Vec(symb.offsetX + HorizontalShift(symb.orientation) * size.w,
                       -symb.offsetY + VerticalShift(symb.orientation) * size.h)
    ensures !IsAlignment(symb.orientation) ==> p == Vec(0.0, 0.0)
  {
    var x := symb.offsetX;
    var y := -symb.offsetY;
    var o := symb.orientation;
    if o == TopLeft then Vec(-size.w + x, -size.h + y)
    else if o == TopCenter then Vec(-size.w / 2.0 + x, -size.h + y)
    else if o == TopRight then Vec(0.0 + x, -size.h + y)
    else if o == MiddleLeft then Vec(-size.w + x, -size.h / 2.0 + y)
    else if o == MiddleCenter then Vec(-size.w / 2.0 + x, -size.h / 2.0 + y)
    else if o == MiddleRight then Vec(0.0 + x, -size.h / 2.0 + y)
    else if o == BottomLeft then Vec(-size.w + x, 0.0 + y)
    else if o == BottomCenter then Vec(-size.w / 2.0 + x, 0.0 + y)
    else if o == BottomRight then Vec(0.0 + x, 0.0 + y)
    else Vec(0.0, 0.0)
  }

  /** A centred orientation puts the anchor (plus the offset) at the middle of the label. */
  lemma MiddleCenterCentres(symb: LabelSymbolizer, size: SizeF)
    requires symb.orientation == MiddleCenter
    ensures Position(symb, size).x + size.w / 2.0 == symb.offsetX
    ensures Position(symb, size).y + size.h / 2.0 == -symb.offsetY
  {
  }

  /** The label rectangle of the measured size, at the projected anchor moved by Position. */
  function LabelRectAt(c: Coord, e: MapArgs, size: SizeF, symb: LabelSymbolizer): (r: RectF)
    ensures r.w == size.w && r.h == size.h
    ensures r.x - Position(symb, size).x == (c.x - e.minX) * e.dx
    ensures r.y - Position(symb, size).y == (e.maxY - c.y) * e.dy
  {
    var adjustment := Position(symb, size);
    RectF((c.x - e.minX) * e.dx + adjustment.x, (e.maxY - c.y) * e.dy + adjustment.y, size.w, size.h)
  }

  /** The empty rectangle for an anchor outside the geographic extents, else the label rectangle there. */
  function PlacePointLabel(c: Coord, e: MapArgs, labelSize: SizeF, symb: LabelSymbolizer): (r: RectF)
    ensures !ContainsCoord(e.geoExtent, c) ==> r == EmptyRectF && IsEmptyF(r)
    ensures ContainsCoord(e.geoExtent, c) ==> r == LabelRectAt(c, e, labelSize, symb)
  {
    if !ContainsCoord(e.geoExtent, c) then EmptyRectF
    else LabelRectAt(c, e, labelSize, symb)
  }

  /** The three anchors a linestring offers. */
  datatype LineAnchors = LineAnchors(centroid: Coord, interiorPoint: Coord, envelopeCenter: Coord)

  function Anchor(ls: LineAnchors, m: LabelPlacementMethod): Coord
  {
    match m
    case Centroid => ls.centroid
    case InteriorPoint => ls.interiorPoint
    case EnvelopeCenter => ls.envelopeCenter
  }

  /**
   * The empty rectangle when the geometry is no linestring (None), else the
   * label rectangle at the anchor the placement method picks, inside the view
   * or not.
   */
  function PlaceLineLabel(lineString: Option<LineAnchors>, labelSize: SizeF, e: MapArgs, symb: LabelSymbolizer)
    : (r: RectF)
    ensures lineString.None? ==> r == EmptyRectF
    ensures lineString.Some? ==> r == LabelRectAt(Anchor(lineString.value, symb.placement), e, labelSize, symb)
  {
    match lineString
    case None => EmptyRectF
    case Some(ls) =>
      var c := if symb.placement == Centroid then ls.centroid
               else if symb.placement == InteriorPoint then ls.interiorPoint
               else ls.envelopeCenter;
      LabelRectAt(c, e, labelSize, symb)
  }

  /**
   * A line label ignores the extents where a point label does not: the two
   * agree exactly when the anchor is in view, and a point label outside the
   * view is empty even where a line label at the same anchor would not be.
   */
  lemma LineAndPointLabelsAgreeInView(ls: LineAnchors, labelSize: SizeF, e: MapArgs, symb: LabelSymbolizer)
    requires ContainsCoord(e.geoExtent, Anchor(ls, symb.placement))
    ensures PlaceLineLabel(Some(ls), labelSize, e, symb) == PlacePointLabel(Anchor(ls, symb.placement), e, labelSize, symb)
  {
  }
}
