/** The geometric value types of `src/element/rect.rs`: points, sizes, bounds and
    border line widths. */
module Rect {
  import opened Floats

  datatype Point = Point(x: Float, y: Float)

  datatype RectSize = RectSize(width: Float, height: Float)
  {
    /** Component-wise `f32::min` (the `RectSize::min` the layout code calls). */
    function Min(other: RectSize): (s: RectSize)
      ensures s.width == Floats.Min(width, other.width) && s.height == Floats.Min(height, other.height)
    {
      RectSize(Floats.Min(width, other.width), Floats.Min(height, other.height))
    }

    /** Component-wise `f32::max` (the `RectSize::max` the layout code calls). */
    function Max(other: RectSize): (s: RectSize)
      ensures s.width == Floats.Max(width, other.width) && s.height == Floats.Max(height, other.height)
    {
      RectSize(Floats.Max(width, other.width), Floats.Max(height, other.height))
    }
  }

  /** `Point2 + Vector2`, component-wise. */
  function Translate(p: Point, v: Point): (q: Point)
    ensures p.x.Num? && v.x.Num? ==> q.x == Num(p.x.r + v.x.r)
    ensures p.y.Num? && v.y.Num? ==> q.y == Num(p.y.r + v.y.r)
  {
    Point(Add(p.x, v.x), Add(p.y, v.y))
  }

  const ZeroSize: RectSize := RectSize(Zero, Zero)
  const Origin: Point := Point(Zero, Zero)

  datatype Bounds = Bounds(origin: Point, size: RectSize)
  {
    function XMin(): (r: Float) { origin.x }
    function YMin(): (r: Float) { origin.y }
    function Width(): (r: Float) { size.width }
    function Height(): (r: Float) { size.height }
    function XyMin(): (r: Point) { origin }

    function XMax(): (m: Float)
      ensures origin.x.Num? && size.width.Num? ==> m == Num(origin.x.r + size.width.r)
    {
      Add(origin.x, size.width)
    }

    function YMax(): (m: Float)
      ensures origin.y.Num? && size.height.Num? ==> m == Num(origin.y.r + size.height.r)
    {
      Add(origin.y, size.height)
    }

    function XyMax(): (r: Point) { Point(XMax(), YMax()) }

    /** Closed on all four edges. */
    predicate Contains(p: Point)
    {
      Le(XMin(), p.x) && Le(p.x, XMax()) && Le(YMin(), p.y) && Le(p.y, YMax())
    }

    function WithPadding(padding: Float): (b: Bounds)
      ensures b.origin == Point(Add(XMin(), padding), Add(YMin(), padding))
      ensures b.size == RectSize(Sub(Sub(Width(), padding), padding), Sub(Sub(Height(), padding), padding))
    {
      FromScalars(Add(XMin(), padding), Add(YMin(), padding),
                  Sub(Sub(Width(), padding), padding), Sub(Sub(Height(), padding), padding))
    }

    function WithOrigin(o: Point): (b: Bounds)
      ensures b.origin == o && b.size == size
    {
      this.(origin := o)
    }

    function WithSize(s: RectSize): (b: Bounds)
      ensures b.origin == origin && b.size == s
    {
      this.(size := s)
    }
  }

  function FromScalars(xMin: Float, yMin: Float, width: Float, height: Float): (r: Bounds) {
    Bounds(Point(xMin, yMin), RectSize(width, height))
  }

  /** `Bounds::default()`: zero origin, zero size. */
  const DefaultBounds: Bounds := Bounds(Origin, ZeroSize)

  /** Finite bounds with non-negative size contain exactly the points of the
      closed real rectangle they span. */
  lemma ContainsFinite(b: Bounds, p: Point)
    requires b.origin.x.Num? && b.origin.y.Num? && b.size.width.Num? && b.size.height.Num?
    requires p.x.Num? && p.y.Num?
    ensures b.Contains(p) <==>
              b.origin.x.r <= p.x.r <= b.origin.x.r + b.size.width.r &&
              b.origin.y.r <= p.y.r <= b.origin.y.r + b.size.height.r
  {
  }

  /** Padding a finite bounds by `p` and then by `-p` gives the bounds back. */
  lemma WithPaddingInverse(b: Bounds, p: real)
    requires b.origin.x.Num? && b.origin.y.Num? && b.size.width.Num? && b.size.height.Num?
    ensures b.WithPadding(Num(p)).WithPadding(Num(-p)) == b
  {
  }

  datatype LineWidth =
    | Uniform(width: Float)
    | PerBorder(left: Float, top: Float, right: Float, bottom: Float)
  {
    /** `[left, top, right, bottom]` */
    function ToArray(): (a: (Float, Float, Float, Float))
      ensures Uniform? ==> a == (width, width, width, width)
      ensures PerBorder? ==> a == (left, top, right, bottom)
    {
      match this
      case Uniform(w) => (w, w, w, w)
      case PerBorder(l, t, r, b) => (l, t, r, b)
    }

    /** Left and right divided by the width, top and bottom by the height. */
    function NormalizedIn(size: RectSize): (n: LineWidth)
      ensures n.PerBorder?
      ensures n.ToArray() == (Div(ToArray().0, size.width), Div(ToArray().1, size.height),
                              Div(ToArray().2, size.width), Div(ToArray().3, size.height))
    {
      var a := ToArray();
      PerBorder(Div(a.0, size.width), Div(a.1, size.height), Div(a.2, size.width), Div(a.3, size.height))
    }

    /** The value `set_left` leaves in `*self`. */
    function SetLeft(w: Float): (n: LineWidth)
      ensures n.PerBorder? && n.ToArray() == (w, ToArray().1, ToArray().2, ToArray().3)
    {
      var a := ToArray();
      PerBorder(w, a.1, a.2, a.3)
    }

    /** The value `set_top` leaves in `*self`. */
    function SetTop(w: Float): (n: LineWidth)
      ensures n.PerBorder? && n.ToArray() == (ToArray().0, w, ToArray().2, ToArray().3)
    {
      var a := ToArray();
      PerBorder(a.0, w, a.2, a.3)
    }

    /** The value `set_right` leaves in `*self`. */
    function SetRight(w: Float): (n: LineWidth)
      ensures n.PerBorder? && n.ToArray() == (ToArray().0, ToArray().1, w, ToArray().3)
    {
      var a := ToArray();
      PerBorder(a.0, a.1, w, a.3)
    }

    /** The value `set_bottom` leaves in `*self`. */
    function SetBottom(w: Float): (n: LineWidth)
      ensures n.PerBorder? && n.ToArray() == (ToArray().0, ToArray().1, ToArray().2, w)
    {
      var a := ToArray();
      PerBorder(a.0, a.1, a.2, w)
    }
  }

  /** `LineWidth::default()` */
  const DefaultLineWidth: LineWidth := Uniform(Zero)

  /** `From<[f32; 4]>`: always the per-border form. */
  function FromArray(a: (Float, Float, Float, Float)): (lw: LineWidth)
    ensures lw.PerBorder? && lw.ToArray() == a
  {
    PerBorder(a.0, a.1, a.2, a.3)
  }

  /** Going through the array form forgets only whether the width was uniform. */
  lemma FromArrayToArray(lw: LineWidth)
    ensures FromArray(lw.ToArray()).ToArray() == lw.ToArray()
    ensures lw.PerBorder? ==> FromArray(lw.ToArray()) == lw
    ensures lw.Uniform? ==> FromArray(lw.ToArray()) == PerBorder(lw.width, lw.width, lw.width, lw.width)
  {
  }

  /** Setting all four borders one by one to the same width gives the per-border
      form of `Uniform(w)`, whatever the starting value. */
  lemma SetAllBorders(lw: LineWidth, w: Float)
    ensures lw.SetLeft(w).SetTop(w).SetRight(w).SetBottom(w).ToArray() == Uniform(w).ToArray()
  {
  }
}
