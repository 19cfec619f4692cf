/**
 * Caches: the label layer's cache of fonts (keyed by a "family;size;style"
 * description), solid brushes and pens (keyed by colour). Each getter goes
 * through GetOrAdd on its own dictionary, so entries are made once and kept.
 */
module Caches {
  import opened Symbology
  import opened DictionaryExtensions

  /** A System.Drawing.Color, by its ARGB value. */
  datatype Color = Color(argb: int)

  /** The GDI+ objects the cache hands out, as the values they are made from. */
  datatype Font = Font(family: string, size: real, style: FontStyle)
  datatype SolidBrush = SolidBrush(color: Color)
  datatype Pen = Pen(color: Color)

  /** ILabelSymbolizer.GetFont(): the font of the symbolizer's family, size and style. */
  function SymbolizerFont(symb: LabelSymbolizer): Font
  {
    Font(symb.fontFamily, symb.fontSize, symb.fontStyle)
  }

  /** The names of the flags set in a FontStyle, in the enumeration's order. */
  function FlagNames(s: FontStyle): seq<string>
  {
    (if s.bold then ["Bold"] else []) + (if s.italic then ["Italic"] else []) +
    (if s.underline then ["Underline"] else []) + (if s.strikeout then ["Strikeout"] else [])
  }

  function JoinNames(names: seq<string>): string
  {
    if names == [] then "" else if |names| == 1 then names[0] else names[0] + ", " + JoinNames(names[1..])
  }

  /** FontStyle.ToString(): "Regular" when no flag is set, else the flag names joined by ", ". */
  function StyleName(s: FontStyle): string
  {
    if FlagNames(s) == [] then "Regular" else JoinNames(FlagNames(s))
  }

  /**
   * String.Format("{0};{1};{2}", family, size, style). How a float is printed
   * depends on the culture; `formatSize` stands for it.
   */
  function FontDescription(symb: LabelSymbolizer, formatSize: real -> string): string
  {
    symb.fontFamily + ";" + formatSize(symb.fontSize) + ";" + StyleName(symb.fontStyle)
  }

  lemma {:induction false} JoinNamesNoSemicolon(names: seq<string>)
    requires forall i :: 0 <= i < |names| ==> ';' !in names[i]
    ensures ';' !in JoinNames(names)
    decreases |names|
  {
    if |names| > 1 {
      JoinNamesNoSemicolon(names[1..]);
    }
  }

  lemma StyleNameNoSemicolon(s: FontStyle)
    ensures ';' !in StyleName(s)
  {
    JoinNamesNoSemicolon(FlagNames(s));
  }

  lemma LastSemicolon(a: string, b: string)
    requires ';' !in b
    ensures (a + ";" + b)[|a|] == ';'
    ensures forall k :: |a| < k < |a + ";" + b| ==> (a + ";" + b)[k] != ';'
  {
    forall k | |a| < k < |a + ";" + b| ensures (a + ";" + b)[k] != ';' {
      assert (a + ";" + b)[k] == b[k - |a| - 1];
    }
  }

  /** Splitting at the last ';' recovers both sides when the right side has no ';'. */
  lemma SplitAtLastSemicolon(a: string, b: string, c: string, d: string)
    requires a + ";" + b == c + ";" + d
    requires ';' !in b && ';' !in d
    ensures a == c && b == d
  {
    var l := a + ";" + b;
    var r := c + ";" + d;
    LastSemicolon(a, b);
    LastSemicolon(c, d);
    assert |a| == |c|;
    assert a == l[..|a|] && c == r[..|c|];
    assert b == l[|a| + 1..] && d == r[|c| + 1..];
  }

  /**
   * Two symbolizers share a cached font only when their families, their
   * printed sizes and their styles agree, provided a printed size never
   * contains ';' (the family name may).
   */
  lemma FontDescriptionDistinguishes(s1: LabelSymbolizer, s2: LabelSymbolizer, formatSize: real -> string)
    requires ';' !in formatSize(s1.fontSize) && ';' !in formatSize(s2.fontSize)
    requires FontDescription(s1, formatSize) == FontDescription(s2, formatSize)
    ensures s1.fontFamily == s2.fontFamily
    ensures formatSize(s1.fontSize) == formatSize(s2.fontSize)
    ensures StyleName(s1.fontStyle) == StyleName(s2.fontStyle)
  {
    StyleNameNoSemicolon(s1.fontStyle);
    StyleNameNoSemicolon(s2.fontStyle);
    SplitAtLastSemicolon(s1.fontFamily + ";" + formatSize(s1.fontSize), StyleName(s1.fontStyle),
                         s2.fontFamily + ";" + formatSize(s2.fontSize), StyleName(s2.fontStyle));
    SplitAtLastSemicolon(s1.fontFamily, formatSize(s1.fontSize), s2.fontFamily, formatSize(s2.fontSize));
  }

  class Caches {
    const symbFonts: Dictionary<string, Font>
    const solidBrushes: Dictionary<Color, SolidBrush>
    const pens: Dictionary<Color, Pen>

    constructor ()
      ensures fresh(symbFonts) && fresh(solidBrushes) && fresh(pens)
      ensures symbFonts.entries == map[] && solidBrushes.entries == map[] && pens.entries == map[]
    {
      symbFonts := new Dictionary<string, Font>();
      solidBrushes := new Dictionary<Color, SolidBrush>();
      pens := new Dictionary<Color, Pen>();
    }

    /** The cached font for the symbolizer's description, made from the symbolizer on a miss. */
    method GetFont(symb: LabelSymbolizer, formatSize: real -> string) returns (font: Font)
      modifies symbFonts
      ensures var key := FontDescription(symb, formatSize);
              && (key in old(symbFonts.entries) ==> font == old(symbFonts.entries)[key] && symbFonts.entries == old(symbFonts.entries))
              && (key !in old(symbFonts.entries) ==> font == SymbolizerFont(symb) && symbFonts.entries == old(symbFonts.entries)[key := font])
    {
      var fontDesc := FontDescription(symb, formatSize);
      font := GetOrAdd(symbFonts, fontDesc, _ => SymbolizerFont(symb));
    }

    /** The cached solid brush of a colour. */
    method GetSolidBrush(color: Color) returns (brush: SolidBrush)
      modifies solidBrushes
      ensures color in old(solidBrushes.entries) ==> brush == old(solidBrushes.entries)[color] && solidBrushes.entries == old(solidBrushes.entries)
      ensures color !in old(solidBrushes.entries) ==> brush == SolidBrush(color) && solidBrushes.entries == old(solidBrushes.entries)[color := brush]
    {
      brush := GetOrAdd(solidBrushes, color, c => SolidBrush(c));
    }

    /** The cached pen of a colour. */
    method GetPen(color: Color) returns (pen: Pen)
      modifies pens
      ensures color in old(pens.entries) ==> pen == old(pens.entries)[color] && pens.entries == old(pens.entries)
      ensures color !in old(pens.entries) ==> pen == Pen(color) && pens.entries == old(pens.entries)[color := pen]
    {
      pen := GetOrAdd(pens, color, c => Pen(c));
    }

    /**
     * Once a font is cached under a description, every symbolizer with that
     * description gets the same font, and the other two caches are untouched.
     */
    method GetFontTwice(s1: LabelSymbolizer, s2: LabelSymbolizer, formatSize: real -> string) returns (f1: Font, f2: Font)
      requires FontDescription(s1, formatSize) == FontDescription(s2, formatSize)
      modifies symbFonts
      ensures f1 == f2
      ensures old(symbFonts.entries.Keys) <= symbFonts.entries.Keys
    {
      f1 := GetFont(s1, formatSize);
      f2 := GetFont(s2, formatSize);
    }

    /** Repeated brush and pen requests for one colour return the first objects made. */
    method GetBrushAndPenTwice(color: Color) returns (b1: SolidBrush, b2: SolidBrush, p1: Pen, p2: Pen)
      modifies solidBrushes, pens
      ensures b1 == b2 && p1 == p2
      ensures old(solidBrushes.entries.Keys) <= solidBrushes.entries.Keys
      ensures old(pens.entries.Keys) <= pens.entries.Keys
    {
      b1 := GetSolidBrush(color);
      p1 := GetPen(color);
      b2 := GetSolidBrush(color);
      p2 := GetPen(color);
    }
  }
}
