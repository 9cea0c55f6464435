/** The rectangle view of `src/view/rect.rs`. Its setters only record the new value
    and raise `needsUpdate`; the GPU-side rectangle element is created on the first
    prepare pass and re-uploaded only while the flag is raised. The element is
    represented by what has been written into it. */
module RectViews {
  import opened Wrappers
  import opened Floats
  import opened Rect
  import opened Color

  /** What `set_parameters`, `set_fill_color` and `set_line_color` write. */
  datatype RectParams = RectParams(bounds: Bounds, lineWidth: LineWidth, fillColor: Rgba, lineColor: Rgba)

  /** The GPU rectangle: the canvas whose projection it was last given, and the
      parameters last uploaded (none right after creation). */
  datatype RectElement = RectElement(projection: Option<RectSize>, uploaded: Option<RectParams>)

  class RectView {
    var size: RectSize
    var fillColor: Rgba
    var lineColor: Rgba
    var lineWidth: LineWidth
    var bounds: Bounds
    var needsUpdate: bool
    var raw: Option<RectElement>
    /** How many GPU elements this view has asked the renderer for. */
    var elementsCreated: nat

    /** The parameters the view would upload now. */
    function Params(): (p: RectParams)
      reads this
      ensures p.bounds == bounds && p.lineWidth == lineWidth && p.fillColor == fillColor && p.lineColor == lineColor
    {
      RectParams(bounds, lineWidth, fillColor, lineColor)
    }

    /** The dirty-flag protocol: while the flag is clear the element exists and
        holds exactly the view's current parameters. */
    ghost predicate Valid()
      reads this
    {
      && (!needsUpdate ==> raw.Some? && raw.value.uploaded == Some(Params()))
      && (raw.Some? <==> elementsCreated == 1)
      && elementsCreated <= 1
    }

    /** `RectView::new`: white fill and line, no border, bounds at the origin with
        the given size, flag raised, no element yet. */
    constructor (size: RectSize)
      ensures Valid()
      ensures this.size == size && bounds == Bounds(Origin, size)
      ensures fillColor == RgbaFromHex(0xFFFFFF) && lineColor == RgbaFromHex(0xFFFFFF)
      ensures lineWidth == Uniform(Zero)
      ensures needsUpdate && raw == None && elementsCreated == 0
    {
      this.size := size;
      fillColor := RgbaFromHex(0xFFFFFF);
      lineColor := RgbaFromHex(0xFFFFFF);
      lineWidth := Uniform(Zero);
      bounds := Bounds(Origin, size);
      needsUpdate := true;
      raw := None;
      elementsCreated := 0;
    }

    /** `RectView::default()`: a white fill, but a transparent line, a zero size and
        default bounds. */
    constructor Default()
      ensures Valid()
      ensures size == ZeroSize && bounds == DefaultBounds
      ensures fillColor == RgbaFromHex(0xFFFFFF) && lineColor == Transparent && lineWidth == DefaultLineWidth
      ensures needsUpdate && raw == None && elementsCreated == 0
    {
      size := ZeroSize;
      fillColor := RgbaFromHex(0xFFFFFF);
      lineColor := Transparent;
      lineWidth := DefaultLineWidth;
      bounds := DefaultBounds;
      needsUpdate := true;
      raw := None;
      elementsCreated := 0;
    }

    method SetFillColor(c: Rgba)
      requires Valid()
      modifies this`fillColor, this`needsUpdate
      ensures Valid() && fillColor == c && needsUpdate
    {
      needsUpdate := true;
      fillColor := c;
    }

    method SetLineColor(c: Rgba)
      requires Valid()
      modifies this`lineColor, this`needsUpdate
      ensures Valid() && lineColor == c && needsUpdate
    {
      needsUpdate := true;
      lineColor := c;
    }

    method SetLineWidth(w: LineWidth)
      requires Valid()
      modifies this`lineWidth, this`needsUpdate
      ensures Valid() && lineWidth == w && needsUpdate
    {
      needsUpdate := true;
      lineWidth := w;
    }

    method SetSize(s: RectSize)
      requires Valid()
      modifies this`size, this`needsUpdate
      ensures Valid() && size == s && needsUpdate
    {
      needsUpdate := true;
      size := s;
    }

    /** `set_bounds_` */
    method SetBounds(b: Bounds)
      requires Valid()
      modifies this`bounds, this`needsUpdate
      ensures Valid() && bounds == b && needsUpdate
    {
      bounds := b;
      needsUpdate := true;
    }

    /** `preferred_size`: the size it was given, whatever its bounds. */
    method PreferredSize() returns (s: RectSize)
      ensures s == size
    {
      s := size;
    }

    /** `apply_bounds` */
    method ApplyBounds(b: Bounds)
      requires Valid()
      modifies this`bounds, this`needsUpdate
      ensures Valid() && bounds == b && needsUpdate
    {
      SetBounds(b);
    }

    /** `prepare_for_drawing`: creates the element the first time, always sets the
        projection of the canvas, and uploads the parameters only when the flag is
        raised. Afterwards the view is ready to draw. */
    method PrepareForDrawing(canvas: RectSize)
      requires Valid()
      modifies this`raw, this`needsUpdate, this`elementsCreated
      ensures Valid() && ReadyToDraw()
      ensures elementsCreated == if old(raw).None? then 1 else old(elementsCreated)
      ensures raw.value.projection == Some(canvas)
      ensures raw.value.uploaded == (if old(needsUpdate) then Some(Params()) else old(raw).value.uploaded)
    {
      var element: RectElement;
      if raw.None? {
        element := RectElement(None, None);
        elementsCreated := elementsCreated + 1;
      } else {
        element := raw.value;
      }
      element := element.(projection := Some(canvas));
      if needsUpdate {
        needsUpdate := false;
        element := element.(uploaded := Some(Params()));
      }
      raw := Some(element);
    }

    /** The condition under which `draw` draws rather than warns. */
    predicate ReadyToDraw()
      reads this
    {
      raw.Some? && !needsUpdate
    }

    /** `draw`: draws the element when it exists and the flag is clear, and warns
        (drawing nothing) otherwise. What it draws is the view's current state. */
    method Draw() returns (drawn: Option<RectParams>)
      requires Valid()
      ensures drawn.Some? <==> ReadyToDraw()
      ensures drawn.Some? ==> drawn == Some(Params())
    {
      if raw.Some? && !needsUpdate {
        drawn := raw.value.uploaded;
      } else {
        drawn := None;
      }
    }
  }
}
