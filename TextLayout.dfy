/** The font atlas lookup and the glyph walk of `src/element/text.rs`, together
    with the character grid that the text view measures (`src/view/text.rs`).
    Text is a sequence of Unicode scalar values (`char`); a font covers a range
    of byte values, and a character is looked up by the low eight bits of its
    code point, as `char as u8` does. */
module TextLayout {
  import opened Wrappers
  import opened Floats
  import opened Rect

  type Byte = x: int | 0 <= x < 256
  type U32 = x: int | 0 <= x < 0x1_0000_0000

  /** What a font's JSON description holds, apart from the atlas path. */
  datatype FontMeta = FontMeta(atlasWidth: U32, atlasHeight: U32, glyphWidth: U32, glyphHeight: U32,
                               presentStart: Byte, presentEnd: Byte, glyphsPerLine: U32)

  datatype Font = Font(presentStart: Byte, presentEnd: Byte, glyphsPerLine: U32,
                       glyphWidth: U32, glyphHeight: U32, glyphSizeUv: RectSize)

  /** The arithmetic part of `Font::load_from_resources`: the glyph size in
      atlas texture coordinates is the glyph size over the atlas image size. */
  function FontFromMeta(meta: FontMeta, imageWidth: U32, imageHeight: U32): (f: Font)
    ensures f.presentStart == meta.presentStart && f.presentEnd == meta.presentEnd
    ensures f.glyphsPerLine == meta.glyphsPerLine
    ensures f.glyphWidth == meta.glyphWidth && f.glyphHeight == meta.glyphHeight
    ensures 0 < imageWidth && meta.glyphWidth <= imageWidth ==>
              f.glyphSizeUv.width.Num? && 0.0 <= f.glyphSizeUv.width.r <= 1.0
    ensures 0 < imageHeight && meta.glyphHeight <= imageHeight ==>
              f.glyphSizeUv.height.Num? && 0.0 <= f.glyphSizeUv.height.r <= 1.0
  {
    UnitRatio(meta.glyphWidth, imageWidth);
    UnitRatio(meta.glyphHeight, imageHeight);
    Font(meta.presentStart, meta.presentEnd, meta.glyphsPerLine, meta.glyphWidth, meta.glyphHeight,
         RectSize(Div(FromNat(meta.glyphWidth), FromNat(imageWidth)),
                  Div(FromNat(meta.glyphHeight), FromNat(imageHeight))))
  }

  /** A count over a larger positive count is a ratio in [0, 1]. */
  lemma UnitRatio(x: nat, y: nat)
    ensures 0 < y && x <= y ==> 0.0 <= x as real / y as real <= 1.0
  {
    if 0 < y && x <= y {
      assert (x as real / y as real) * y as real == x as real;
    }
  }

  /** `char as u8`: the low eight bits of the code point. */
  function LowByte(c: char): (r: Byte) {
    (c as int) % 256
  }

  /** `has_glyph`: the low byte lies in the half-open present range. */
  predicate HasGlyph(font: Font, c: char) {
    font.presentStart <= LowByte(c) < font.presentEnd
  }

  /** The atlas cell `(column, row)` of a present glyph. */
  function AtlasCell(font: Font, c: char): (cell: (nat, nat))
    requires font.glyphsPerLine > 0 && HasGlyph(font, c)
    ensures cell.0 < font.glyphsPerLine
    ensures cell.1 * font.glyphsPerLine + cell.0 == LowByte(c) - font.presentStart
  {
    var i := LowByte(c) - font.presentStart;
    (i % font.glyphsPerLine, i / font.glyphsPerLine)
  }

  /** Distinct present glyphs occupy distinct atlas cells. */
  lemma AtlasCellInjective(font: Font, c: char, d: char)
    requires font.glyphsPerLine > 0 && HasGlyph(font, c) && HasGlyph(font, d)
    ensures AtlasCell(font, c) == AtlasCell(font, d) <==> LowByte(c) == LowByte(d)
  {
  }

  /** `uv_position_for_glyph`: the top-left corner of the glyph's atlas cell in
      texture coordinates, or nothing for a character the font lacks. */
  function UvPositionForGlyph(font: Font, c: char): (p: Option<Point>)
    requires font.glyphsPerLine > 0
    ensures p.None? <==> !HasGlyph(font, c)
    ensures p.Some? ==> p.value == Point(Mul(FromNat(AtlasCell(font, c).0), font.glyphSizeUv.width),
                                         Mul(FromNat(AtlasCell(font, c).1), font.glyphSizeUv.height))
  {
    if !HasGlyph(font, c) then None
    else
      var cell := AtlasCell(font, c);
      Some(Point(Mul(FromNat(cell.0), font.glyphSizeUv.width), Mul(FromNat(cell.1), font.glyphSizeUv.height)))
  }

  /** `n * w == m * w` with `w != 0` forces `n == m`. */
  lemma CancelFactor(n: nat, m: nat, w: real)
    requires w != 0.0 && n as real * w == m as real * w
    ensures n == m
  {
    assert (n as real - m as real) * w == 0.0;
  }

  /** Scaling atlas cells by a non-zero glyph size keeps them apart. */
  lemma ScaledCellsInjective(a: (nat, nat), b: (nat, nat), w: real, h: real)
    requires w != 0.0 && h != 0.0
    ensures (Point(Mul(FromNat(a.0), Num(w)), Mul(FromNat(a.1), Num(h)))
             == Point(Mul(FromNat(b.0), Num(w)), Mul(FromNat(b.1), Num(h)))) <==> a == b
  {
    if Point(Mul(FromNat(a.0), Num(w)), Mul(FromNat(a.1), Num(h)))
       == Point(Mul(FromNat(b.0), Num(w)), Mul(FromNat(b.1), Num(h))) {
      assert a.0 as real * w == b.0 as real * w;
      assert a.1 as real * h == b.1 as real * h;
      CancelFactor(a.0, b.0, w);
      CancelFactor(a.1, b.1, h);
    }
  }

  /** With a finite, non-zero glyph size in the atlas, two present glyphs get the
      same texture position exactly when they are the same byte. */
  lemma UvPositionInjective(font: Font, c: char, d: char)
    requires font.glyphsPerLine > 0 && HasGlyph(font, c) && HasGlyph(font, d)
    requires font.glyphSizeUv.width.Num? && font.glyphSizeUv.width.r != 0.0
    requires font.glyphSizeUv.height.Num? && font.glyphSizeUv.height.r != 0.0
    ensures UvPositionForGlyph(font, c) == UvPositionForGlyph(font, d) <==> LowByte(c) == LowByte(d)
  {
    assert font.glyphSizeUv == RectSize(Num(font.glyphSizeUv.width.r), Num(font.glyphSizeUv.height.r));
    ScaledCellsInjective(AtlasCell(font, c), AtlasCell(font, d), font.glyphSizeUv.width.r, font.glyphSizeUv.height.r);
    AtlasCellInjective(font, c, d);
  }

  /** `uv_bounds_for_char`: the glyph's atlas cell as bounds. */
  function UvBoundsForChar(font: Font, c: char): (b: Option<Bounds>)
    requires font.glyphsPerLine > 0
    ensures b.None? <==> !HasGlyph(font, c)
    ensures b.Some? ==> b.value.origin == UvPositionForGlyph(font, c).value && b.value.size == font.glyphSizeUv
  {
    match UvPositionForGlyph(font, c)
    case None => None
    case Some(topLeft) => Some(Bounds(topLeft, font.glyphSizeUv))
  }

  /** `glyph_relative_width`: the glyph's width when its height is one. */
  function GlyphRelativeWidth(font: Font): (w: Float)
    ensures font.glyphHeight > 0 ==> w.Num? && w.r >= 0.0 && w.r * font.glyphHeight as real == font.glyphWidth as real
  {
    Div(FromNat(font.glyphWidth), FromNat(font.glyphHeight))
  }

  // ---------------------------------------------------------------------------
  // The glyph walk of `create_instance_buffer`

  /** A glyph the walk decided to draw, and the grid cell it put it in. */
  datatype PlacedGlyph = PlacedGlyph(column: nat, row: nat, glyph: char)

  /** The walk's state: the current row and column and the glyphs placed so far. */
  datatype WalkState = WalkState(row: nat, column: nat, placed: seq<PlacedGlyph>)

  /** One character of the walk: a newline starts a new row, a carriage return
      goes back to the first column, a character the font lacks is skipped, and
      any other character is placed in the current cell and moves one column on. */
  function WalkStep(font: Font, w: WalkState, c: char): (r: WalkState)
    requires font.glyphsPerLine > 0
  {
    if c == '\n' then WalkState(w.row + 1, 0, w.placed)
    else if c == '\r' then WalkState(w.row, 0, w.placed)
    else match UvBoundsForChar(font, c)
      case None => w
      case Some(_) => WalkState(w.row, w.column + 1, w.placed + [PlacedGlyph(w.column, w.row, c)])
  }

  /** The walk over the whole text, one character after another. */
  function InstanceWalk(font: Font, s: string): (w: WalkState)
    requires font.glyphsPerLine > 0
    ensures forall g :: g in w.placed ==> HasGlyph(font, g.glyph)
    decreases |s|
  {
    if s == [] then WalkState(0, 0, [])
    else WalkStep(font, InstanceWalk(font, s[..|s| - 1]), s[|s| - 1])
  }

  /** A text instance as the GPU receives it: where the glyph goes, in units of
      the font size, and where its image is in the atlas. */
  datatype TextInstance = TextInstance(positionOffset: Point, uvOffset: Point)

  function Instance(font: Font, g: PlacedGlyph): (t: TextInstance)
    requires font.glyphsPerLine > 0 && HasGlyph(font, g.glyph)
    ensures t.positionOffset == Point(Mul(FromNat(g.column), GlyphRelativeWidth(font)), FromNat(g.row))
    ensures Some(t.uvOffset) == UvPositionForGlyph(font, g.glyph)
  {
    TextInstance(Point(Mul(FromNat(g.column), GlyphRelativeWidth(font)), FromNat(g.row)),
                 UvBoundsForChar(font, g.glyph).value.origin)
  }

  /** The instances of a list of placed glyphs, one each, in order. */
  function Instances(font: Font, placed: seq<PlacedGlyph>): (ts: seq<TextInstance>)
    requires font.glyphsPerLine > 0 && forall g :: g in placed ==> HasGlyph(font, g.glyph)
    ensures |ts| == |placed|
    ensures forall k :: 0 <= k < |placed| ==> ts[k] == Instance(font, placed[k])
    decreases |placed|
  {
    if placed == [] then []
    else Instances(font, placed[..|placed| - 1]) + [Instance(font, placed[|placed| - 1])]
  }

  /** The instances `create_instance_buffer` builds for a text. */
  function TextInstances(font: Font, s: string): (r: seq<TextInstance>)
    requires font.glyphsPerLine > 0
  {
    Instances(font, InstanceWalk(font, s).placed)
  }

  /** One character of the loop in `create_instance_buffer`. */
  method WalkChar(font: Font, s: string, i: nat, row: nat, column: nat, instances: seq<TextInstance>)
    returns (row': nat, column': nat, instances': seq<TextInstance>)
    requires font.glyphsPerLine > 0 && i < |s|
    requires row == InstanceWalk(font, s[..i]).row && column == InstanceWalk(font, s[..i]).column
    requires instances == Instances(font, InstanceWalk(font, s[..i]).placed)
    ensures row' == InstanceWalk(font, s[..i + 1]).row && column' == InstanceWalk(font, s[..i + 1]).column
    ensures instances' == Instances(font, InstanceWalk(font, s[..i + 1]).placed)
  {
    assert s[..i + 1][..i] == s[..i];
    var w := InstanceWalk(font, s[..i]);
    var c := s[i];
    row', column', instances' := row, column, instances;
    if c == '\n' {
      column' := 0;
      row' := row + 1;
    } else if c == '\r' {
      column' := 0;
    } else {
      match UvBoundsForChar(font, c)
      case None =>
      case Some(glyphBounds) =>
        var g := PlacedGlyph(column, row, c);
        assert (w.placed + [g])[..|w.placed|] == w.placed;
        instances' := instances + [TextInstance(Point(Mul(FromNat(column), GlyphRelativeWidth(font)), FromNat(row)),
                                                glyphBounds.origin)];
        column' := column + 1;
    }
  }

  /** The loop of `create_instance_buffer`, before the upload: the instances of
      the text's walk, in order. */
  method CreateInstances(font: Font, s: string) returns (instances: seq<TextInstance>)
    requires font.glyphsPerLine > 0
    ensures instances == TextInstances(font, s)
  {
    instances := [];
    var row: nat := 0;
    var column: nat := 0;
    var i := 0;
    while i < |s|
      invariant 0 <= i <= |s|
      invariant row == InstanceWalk(font, s[..i]).row && column == InstanceWalk(font, s[..i]).column
      invariant instances == Instances(font, InstanceWalk(font, s[..i]).placed)
    {
      row, column, instances := WalkChar(font, s, i, row, column, instances);
      i := i + 1;
    }
    assert s[..i] == s;
  }

  // ---------------------------------------------------------------------------
  // What the walk draws, stated independently of it

  predicate EndsRun(c: char) {
    c == '\n' || c == '\r'
  }

  /** The characters that get an instance, in text order, defined from the front. */
  function Drawn(font: Font, s: string): (r: seq<char>)
    decreases |s|
  {
    if s == [] then []
    else (if !EndsRun(s[0]) && HasGlyph(font, s[0]) then [s[0]] else []) + Drawn(font, s[1..])
  }

  lemma {:induction false} DrawnAppend(font: Font, s: string, c: char)
    ensures Drawn(font, s + [c]) == Drawn(font, s) + (if !EndsRun(c) && HasGlyph(font, c) then [c] else [])
    decreases |s|
  {
    if s == [] {
      assert Drawn(font, [c][1..]) == [];
    } else {
      assert (s + [c])[1..] == s[1..] + [c];
      DrawnAppend(font, s[1..], c);
    }
  }

  /** The walk places exactly the characters that are neither line breaks nor
      missing from the font, in text order, and one instance is made per glyph
      placed. */
  lemma {:induction false} WalkPlacesDrawn(font: Font, s: string)
    requires font.glyphsPerLine > 0
    ensures |InstanceWalk(font, s).placed| == |Drawn(font, s)| == |TextInstances(font, s)|
    ensures forall k :: 0 <= k < |Drawn(font, s)| ==> InstanceWalk(font, s).placed[k].glyph == Drawn(font, s)[k]
    decreases |s|
  {
    if s != [] {
      var p := s[..|s| - 1];
      assert s == p + [s[|s| - 1]];
      WalkPlacesDrawn(font, p);
      DrawnAppend(font, p, s[|s| - 1]);
    }
  }

  /** The walk ends on the row numbered by the count of newlines. */
  lemma {:induction false} WalkRowCountsNewlines(font: Font, s: string)
    requires font.glyphsPerLine > 0
    ensures InstanceWalk(font, s).row == multiset(s)['\n']
    decreases |s|
  {
    if s != [] {
      var p := s[..|s| - 1];
      assert s == p + [s[|s| - 1]];
      WalkRowCountsNewlines(font, p);
    }
  }

  // ---------------------------------------------------------------------------
  // The character grid the text view measures

  /** The lines of a text: one more than its newlines. */
  function LineCount(s: string): (n: nat)
    ensures n >= 1
  {
    1 + multiset(s)['\n']
  }

  /** The length of the run the text ends with: the characters since the last
      newline or carriage return, glyphs or not. */
  function CurrentRun(s: string): (r: nat)
    decreases |s|
  {
    if s == [] then 0
    else if EndsRun(s[|s| - 1]) then 0
    else CurrentRun(s[..|s| - 1]) + 1
  }

  /** The longest run in the text, as the loop of `set_text` tracks it. */
  function LongestRun(s: string): (n: nat)
    ensures CurrentRun(s) <= n
    decreases |s|
  {
    if s == [] then 0
    else
      var m := LongestRun(s[..|s| - 1]);
      var r := CurrentRun(s);
      if m < r then r else m
  }

  /** `LongestRun` is the maximum of the run lengths: no run is longer, and some
      prefix ends in a run exactly that long. */
  lemma {:induction false} LongestRunIsMaximum(s: string)
    ensures forall i :: 0 <= i <= |s| ==> CurrentRun(s[..i]) <= LongestRun(s)
    ensures exists i :: 0 <= i <= |s| && CurrentRun(s[..i]) == LongestRun(s)
    decreases |s|
  {
    if s == [] {
      assert CurrentRun(s[..0]) == LongestRun(s);
    } else {
      var p := s[..|s| - 1];
      LongestRunIsMaximum(p);
      forall i | 0 <= i <= |s|
        ensures CurrentRun(s[..i]) <= LongestRun(s)
      {
        if i < |s| {
          assert s[..i] == p[..i];
        } else {
          assert s[..i] == s;
        }
      }
      if LongestRun(p) < CurrentRun(s) {
        assert s[..|s|] == s;
      } else {
        var j :| 0 <= j <= |p| && CurrentRun(p[..j]) == LongestRun(p);
        assert s[..j] == p[..j];
      }
    }
  }

  /** The walk's column never passes the current run: the run counts every
      character since the last line break, the column only those with a glyph. */
  lemma {:induction false} WalkColumnWithinRun(font: Font, s: string)
    requires font.glyphsPerLine > 0
    ensures InstanceWalk(font, s).column <= CurrentRun(s)
    decreases |s|
  {
    if s != [] {
      WalkColumnWithinRun(font, s[..|s| - 1]);
    }
  }

  /** Every placed glyph lies inside the grid the text view measures:
      its column is below the longest run and its row below the line count. */
  lemma {:induction false} WalkFitsGrid(font: Font, s: string)
    requires font.glyphsPerLine > 0
    ensures forall g :: g in InstanceWalk(font, s).placed ==>
              g.column < LongestRun(s) && g.row <= InstanceWalk(font, s).row < LineCount(s)
    decreases |s|
  {
    WalkRowCountsNewlines(font, s);
    if s != [] {
      var p := s[..|s| - 1];
      WalkFitsGrid(font, p);
      WalkColumnWithinRun(font, p);
    }
  }
}
