/** The text view of `src/view/text.rs`. `set_text` measures the text as a grid
    of lines and columns; the parameter setters raise `needsUpdate` and
    `set_text` raises `textNeedsUpdate`; the GPU text element is created on the
    first prepare pass (which uploads the text with it) and afterwards receives
    only what the raised flags call for. The element is represented by what has
    been written into it. */
module TextViews {
  import opened Wrappers
  import opened Floats
  import opened Rect
  import opened Color
  import opened TextLayout

  /** What `set_parameters`, `set_fg_color` and `set_bg_color` write together. */
  datatype TextParams = TextParams(origin: Point, fontSize: Float, fgColor: Rgba, bgColor: Rgba)

  /** The GPU text: the canvas whose projection it was last given, the
      parameters last written (none while it still has the identity transform and
      the default colours it was created with), and its glyph instances. */
  datatype TextElement = TextElement(projection: Option<RectSize>, params: Option<TextParams>,
                                     instances: seq<TextInstance>)

  /** `TextView::size`: the grid's columns times the glyph width, and its lines,
      both in units of the font size. */
  function TextSize(font: Font, nColumns: nat, nLines: nat, fontSize: Float): (s: RectSize)
    ensures font.glyphHeight > 0 && fontSize.Num? ==>
              s == RectSize(Num(nColumns as real * GlyphRelativeWidth(font).r * fontSize.r),
                            Num(nLines as real * fontSize.r))
  {
    RectSize(Mul(Mul(FromNat(nColumns), GlyphRelativeWidth(font)), fontSize),
             Mul(FromNat(nLines), fontSize))
  }

  /** Scaling by a non-negative factor keeps order. */
  lemma ScaleMonotone(a: real, b: real, c: real)
    requires a <= b && 0.0 <= c
    ensures a * c <= b * c
  {
    assert b * c - a * c == (b - a) * c;
  }

  /** A cell of a grid with `columns` by `lines` cells, each `w` wide and one
      high, scaled by `f`, lies inside the scaled grid: `(x, y)` is the cell's
      corner and `width` by `height` the scaled grid. */
  lemma CellInsideGrid(column: nat, row: nat, columns: nat, lines: nat, w: real, f: real,
                       x: real, y: real, width: real, height: real)
    requires column < columns && row < lines && 0.0 <= w && 0.0 <= f
    requires x == column as real * w && y == row as real
    requires width == columns as real * w * f && height == lines as real * f
    ensures 0.0 <= x * f && (x + w) * f <= width
    ensures 0.0 <= y * f && (y + 1.0) * f <= height
  {
    ScaleMonotone((column + 1) as real, columns as real, w);
    assert x + w == (column + 1) as real * w;
    ScaleMonotone(x + w, columns as real * w, f);
    ScaleMonotone(0.0, column as real, w);
    ScaleMonotone(0.0, x, f);
    ScaleMonotone((row + 1) as real, lines as real, f);
    ScaleMonotone(0.0, y, f);
  }

  /** The quad of an instance, `glyph_relative_width` wide and one high at its
      position, scaled by the font size, lies inside `size`. */
  predicate QuadInside(font: Font, fontSize: real, t: TextInstance, size: RectSize) {
    && t.positionOffset.x.Num? && t.positionOffset.y.Num? && GlyphRelativeWidth(font).Num?
    && size.width.Num? && size.height.Num?
    && 0.0 <= t.positionOffset.x.r * fontSize
    && (t.positionOffset.x.r + GlyphRelativeWidth(font).r) * fontSize <= size.width.r
    && 0.0 <= t.positionOffset.y.r * fontSize
    && (t.positionOffset.y.r + 1.0) * fontSize <= size.height.r
  }

  /** The instance of a glyph placed inside a `columns` by `lines` grid lies,
      quad and all, inside the size measured for that grid. */
  lemma InstanceInsideGrid(font: Font, fontSize: real, g: PlacedGlyph, columns: nat, lines: nat)
    requires font.glyphsPerLine > 0 && font.glyphHeight > 0 && 0.0 <= fontSize && HasGlyph(font, g.glyph)
    requires g.column < columns && g.row < lines
    ensures QuadInside(font, fontSize, Instance(font, g), TextSize(font, columns, lines, Num(fontSize)))
  {
    var w := GlyphRelativeWidth(font).r;
    assert GlyphRelativeWidth(font) == Num(w);
    var size := TextSize(font, columns, lines, Num(fontSize));
    var position := Instance(font, g).positionOffset;
    CellInsideGrid(g.column, g.row, columns, lines, w, fontSize, position.x.r, position.y.r, size.width.r, size.height.r);
  }

  /** Every instance built for a text sits, glyph quad and all, inside the size
      the text view asks for, once both are scaled by a non-negative font size. */
  lemma InstancesInsideTextSize(font: Font, fontSize: real, s: string)
    requires font.glyphsPerLine > 0 && font.glyphHeight > 0 && 0.0 <= fontSize
    ensures forall t :: t in TextInstances(font, s) ==>
              QuadInside(font, fontSize, t, TextSize(font, LongestRun(s), LineCount(s), Num(fontSize)))
  {
    var placed := InstanceWalk(font, s).placed;
    var instances := TextInstances(font, s);
    var size := TextSize(font, LongestRun(s), LineCount(s), Num(fontSize));
    WalkFitsGrid(font, s);
    forall t | t in instances
      ensures QuadInside(font, fontSize, t, size)
    {
      var k :| 0 <= k < |instances| && instances[k] == t;
      var g := placed[k];
      assert g in placed;
      InstanceInsideGrid(font, fontSize, g, LongestRun(s), LineCount(s));
    }
  }

  /** One character of the measuring loop in `set_text`: `(lines, columns, run)`
      after it. */
  method MeasureChar(t: string, i: nat, nLines: nat, nColumns: nat, run: nat)
    returns (nLines': nat, nColumns': nat, run': nat)
    requires i < |t|
    requires nLines == LineCount(t[..i]) && nColumns == LongestRun(t[..i]) && run == CurrentRun(t[..i])
    ensures nLines' == LineCount(t[..i + 1]) && nColumns' == LongestRun(t[..i + 1]) && run' == CurrentRun(t[..i + 1])
  {
    assert t[..i + 1][..i] == t[..i];
    assert t[..i + 1] == t[..i] + [t[i]];
    nLines', nColumns', run' := nLines, nColumns, run;
    if t[i] == '\n' || t[i] == '\r' {
      if t[i] == '\n' {
        nLines' := nLines + 1;
      }
      if nColumns < run {
        nColumns' := run;
      }
      run' := 0;
    } else {
      run' := run + 1;
      if nColumns < run' {
        nColumns' := run';
      }
    }
  }

  class TextView {
    var nLines: nat
    var nColumns: nat
    var text: string
    var fontSize: Float
    const font: Font
    var fgColor: Rgba
    var bgColor: Rgba
    var origin: Point
    var needsUpdate: bool
    var textNeedsUpdate: bool
    var raw: Option<TextElement>

    /** The parameters the view would write now. */
    function Params(): (p: TextParams)
      reads this
      ensures p.origin == origin && p.fontSize == fontSize && p.fgColor == fgColor && p.bgColor == bgColor
    {
      TextParams(origin, fontSize, fgColor, bgColor)
    }

    /** The measurements match the text, and while a flag is clear the element
        holds what it stands for: the text's instances, and (once written at all)
        the current parameters. */
    ghost predicate Valid()
      reads this
    {
      && font.glyphsPerLine > 0
      && nLines == LineCount(text) && nColumns == LongestRun(text)
      && (raw.Some? && !textNeedsUpdate ==> raw.value.instances == TextInstances(font, text))
      && (raw.Some? && !needsUpdate && raw.value.params.Some? ==> raw.value.params == Some(Params()))
    }

    /** `TextView::new`: empty text on one line of no columns, font size 12,
        both flags clear and no element yet. */
    constructor (font: Font)
      requires font.glyphsPerLine > 0
      ensures Valid() && this.font == font
      ensures text == "" && nLines == 1 && nColumns == 0 && fontSize == Num(12.0)
      ensures fgColor == RgbaFromHex(0xFFFFFF) && bgColor == RgbaFromHex(0)
      ensures origin == Origin && !needsUpdate && !textNeedsUpdate && raw == None
    {
      nLines := 1;
      nColumns := 0;
      text := "";
      fontSize := Num(12.0);
      this.font := font;
      fgColor := RgbaFromHex(0xFFFFFF);
      bgColor := RgbaFromHex(0);
      origin := Origin;
      needsUpdate := false;
      textNeedsUpdate := false;
      raw := None;
    }

    method SetFontSize(s: Float)
      requires Valid()
      modifies this`fontSize, this`needsUpdate
      ensures Valid() && fontSize == s && needsUpdate
    {
      needsUpdate := true;
      fontSize := s;
    }

    method SetFgColor(c: Rgba)
      requires Valid()
      modifies this`fgColor, this`needsUpdate
      ensures Valid() && fgColor == c && needsUpdate
    {
      needsUpdate := true;
      fgColor := c;
    }

    method SetBgColor(c: Rgba)
      requires Valid()
      modifies this`bgColor, this`needsUpdate
      ensures Valid() && bgColor == c && needsUpdate
    {
      needsUpdate := true;
      bgColor := c;
    }

    /** `set_text`: stores the text, raises `textNeedsUpdate`, and measures it:
        one line more than it has newlines, and as many columns as its longest run
        of characters between line breaks. */
    method SetText(t: string)
      requires Valid()
      modifies this`text, this`textNeedsUpdate, this`nLines, this`nColumns
      ensures Valid() && text == t && textNeedsUpdate
      ensures nLines == LineCount(t) && nColumns == LongestRun(t)
    {
      textNeedsUpdate := true;
      nLines := 1;
      var run: nat := 0;
      nColumns := 0;
      var i := 0;
      while i < |t|
        invariant 0 <= i <= |t|
        invariant nLines == LineCount(t[..i]) && nColumns == LongestRun(t[..i]) && run == CurrentRun(t[..i])
        invariant textNeedsUpdate && text == old(text)
      {
        nLines, nColumns, run := MeasureChar(t, i, nLines, nColumns, run);
        i := i + 1;
      }
      assert t[..i] == t;
      text := t;
    }

    function Size(): (r: RectSize)
      reads this
    {
      TextSize(font, nColumns, nLines, fontSize)
    }

    /** `preferred_size` is the measured size, whatever the bounds were. */
    method PreferredSize() returns (s: RectSize)
      requires Valid()
      ensures s == TextSize(font, LongestRun(text), LineCount(text), fontSize)
    {
      s := Size();
    }

    /** `set_bounds_` (and `apply_bounds`): only the origin of the bounds is kept. */
    method SetBounds(b: Bounds)
      requires Valid()
      modifies this`origin, this`needsUpdate
      ensures Valid() && origin == b.origin && needsUpdate
    {
      needsUpdate := true;
      origin := b.origin;
    }

    /** `prepare_for_drawing`: creates the element with the text's instances the
        first time (which also settles `textNeedsUpdate`), always sets the
        projection, writes the parameters when `needsUpdate` is raised and
        rebuilds the instances when `textNeedsUpdate` still is. Both flags end up
        clear and the element holds the text's instances. */
    method PrepareForDrawing(canvas: RectSize)
      requires Valid()
      modifies this`raw, this`needsUpdate, this`textNeedsUpdate
      ensures Valid() && raw.Some? && !needsUpdate && !textNeedsUpdate
      ensures raw.value.projection == Some(canvas)
      ensures raw.value.instances == TextInstances(font, text)
      ensures raw.value.params == if old(needsUpdate) then Some(Params())
                                  else if old(raw).Some? then old(raw).value.params else None
    {
      var element: TextElement;
      if raw.None? {
        textNeedsUpdate := false;
        var instances := CreateInstances(font, text);
        element := TextElement(None, None, instances);
      } else {
        element := raw.value;
      }
      element := element.(projection := Some(canvas));
      if needsUpdate {
        needsUpdate := false;
        element := element.(params := Some(Params()));
      }
      if textNeedsUpdate {
        textNeedsUpdate := false;
        var instances := CreateInstances(font, text);
        element := element.(instances := instances);
      }
      raw := Some(element);
    }

    /** `draw` unwraps the element (so it needs a prior prepare pass) and the
        renderer draws nothing for a text without instances. After a prepare pass
        that means: something is drawn exactly when the text has a character that
        is neither a line break nor missing from the font. */
    method Draw() returns (drawn: Option<TextElement>)
      requires Valid() && raw.Some?
      ensures drawn.Some? <==> |raw.value.instances| > 0
      ensures drawn.Some? ==> drawn.value == raw.value
      ensures !textNeedsUpdate ==> (drawn.Some? <==> |Drawn(font, text)| > 0)
    {
      if |raw.value.instances| == 0 {
        drawn := None;
      } else {
        drawn := Some(raw.value);
      }
      WalkPlacesDrawn(font, text);
    }
  }
}
