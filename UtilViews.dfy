/** The small wrapper views of `src/view/util_views.rs`: the spacer, the spread
    view, the padded view and the ratio-padded view. A wrapped subview is
    represented by the size it reports from its own `preferred_size` and by the
    sequence of bounds it has been given (`placements`); what the subview then
    does with them is its own business. */
module UtilViews {
  import opened Wrappers
  import opened Floats
  import opened Rect
  import opened Color
  import opened RectViews

  /** A background whose fill is fully transparent is neither prepared nor drawn. */
  predicate BackgroundShown(bg: RectView)
    reads bg
  {
    !Eq(bg.fillColor.a, Zero)
  }

  /** The background half of `prepare_for_drawing` of both padded views. */
  method PrepareBackground(bg: RectView, canvas: RectSize)
    requires bg.Valid()
    modifies bg
    ensures bg.Valid()
    ensures BackgroundShown(bg) ==> bg.ReadyToDraw() && bg.raw.value.projection == Some(canvas)
    ensures !old(BackgroundShown(bg)) ==> unchanged(bg)
    ensures bg.Params() == old(bg.Params()) && bg.size == old(bg.size)
  {
    if !Eq(bg.fillColor.a, Zero) {
      bg.PrepareForDrawing(canvas);
    }
  }

  /** The background half of `draw` of both padded views. */
  method DrawBackground(bg: RectView) returns (drawn: Option<RectParams>)
    requires bg.Valid()
    ensures drawn.Some? <==> BackgroundShown(bg) && bg.ReadyToDraw()
    ensures drawn.Some? ==> drawn == Some(bg.Params())
  {
    drawn := None;
    if !Eq(bg.fillColor.a, Zero) {
      drawn := bg.Draw();
    }
  }

  // ---------------------------------------------------------------------------
  // SpacerView

  /** An empty view that only takes up space. */
  class SpacerView {
    var size: RectSize

    constructor (size: RectSize)
      ensures this.size == size
    {
      this.size := size;
    }

    method SetSize(s: RectSize)
      modifies this`size
      ensures size == s
    {
      size := s;
    }

    /** `preferred_size`: the size it was given. */
    method PreferredSize() returns (s: RectSize)
      ensures s == size
    {
      s := size;
    }

    /** `apply_bounds` ignores the bounds; with no `modifies` clause the
        verifier holds it to changing nothing. */
    method ApplyBounds(bounds: Bounds)
      ensures size == old(size)
    {
    }
  }

  // ---------------------------------------------------------------------------
  // SpreadView

  datatype SpreadAxis = Horizontal | Vertical | Both

  /** What `SpreadView::preferred_size` reports for a subview that asks for
      `sub`: infinity along the spread axes, the subview's own length along
      the others. */
  function SpreadSize(axis: SpreadAxis, sub: RectSize): (s: RectSize)
    ensures axis == Horizontal || axis == Both ==> s.width == PosInf
    ensures axis == Vertical || axis == Both ==> s.height == PosInf
    ensures axis == Horizontal ==> s.height == sub.height
    ensures axis == Vertical ==> s.width == sub.width
  {
    match axis
    case Horizontal => RectSize(PosInf, sub.height)
    case Vertical => RectSize(sub.width, PosInf)
    case Both => RectSize(PosInf, PosInf)
  }

  /** The spread size never asks for less than the subview does. */
  lemma SpreadSizeDominates(axis: SpreadAxis, sub: RectSize)
    requires !sub.width.NaN? && !sub.height.NaN?
    ensures Le(sub.width, SpreadSize(axis, sub).width) && Le(sub.height, SpreadSize(axis, sub).height)
  {
  }

  /** Makes its subview take as much room as it can along one or both axes. */
  class SpreadView {
    var axis: SpreadAxis
    /** What the subview reports from its own `preferred_size`. */
    const subviewPreferred: RectSize
    /** The bounds forwarded to the subview, in order. */
    var placements: seq<Bounds>

    /** `SpreadView::new`; `horizontal`, `vertical` and `both` pass the axis. */
    constructor (axis: SpreadAxis, subviewPreferred: RectSize)
      ensures this.axis == axis && this.subviewPreferred == subviewPreferred && placements == []
    {
      this.axis := axis;
      this.subviewPreferred := subviewPreferred;
      placements := [];
    }

    method SetAxis(a: SpreadAxis)
      modifies this`axis
      ensures axis == a
    {
      axis := a;
    }

    method PreferredSize() returns (s: RectSize)
      ensures s == SpreadSize(axis, subviewPreferred)
    {
      s := SpreadSize(axis, subviewPreferred);
    }

    /** `apply_bounds` hands the bounds on unchanged, whatever the axis. */
    method ApplyBounds(bounds: Bounds)
      modifies this`placements
      ensures placements == old(placements) + [bounds]
    {
      placements := placements + [bounds];
    }
  }

  // ---------------------------------------------------------------------------
  // PaddedView

  /** What `PaddedView::preferred_size` asks for: the subview's size with the
      paddings added on each side. */
  function PaddedPreferredSize(left: Float, top: Float, right: Float, bottom: Float, sub: RectSize): (s: RectSize)
    ensures left.Num? && right.Num? && sub.width.Num? ==> s.width == Num(left.r + sub.width.r + right.r)
    ensures top.Num? && bottom.Num? && sub.height.Num? ==> s.height == Num(top.r + sub.height.r + bottom.r)
  {
    RectSize(Add(Add(left, sub.width), right), Add(Add(top, sub.height), bottom))
  }

  /** One axis of `PaddedView::apply_bounds`: the measured length, clipped to the
      bounds and then to what the two paddings leave of them, and never negative. */
  function PaddedLength(measured: Float, boundsLength: Float, leading: Float, trailing: Float): (r: Float) {
    Max(Min(Min(measured, boundsLength), Sub(Sub(boundsLength, leading), trailing)), Zero)
  }

  /** When the paddings fit, the length lies between zero and what they leave,
      and a measured length that fits is kept exactly; when they do not fit, the
      subview gets no length at all. */
  lemma PaddedLengthFits(measured: Float, boundsLength: Float, leading: Float, trailing: Float)
    requires boundsLength.Num? && leading.Num? && trailing.Num?
    ensures PaddedLength(measured, boundsLength, leading, trailing).Num?
    ensures leading.r + trailing.r <= boundsLength.r ==>
              0.0 <= PaddedLength(measured, boundsLength, leading, trailing).r <= boundsLength.r - leading.r - trailing.r
    ensures 0.0 <= leading.r && 0.0 <= trailing.r &&
            measured.Num? && 0.0 <= measured.r <= boundsLength.r - leading.r - trailing.r ==>
              PaddedLength(measured, boundsLength, leading, trailing) == measured
    ensures leading.r + trailing.r > boundsLength.r ==> PaddedLength(measured, boundsLength, leading, trailing) == Zero
  {
  }

  /** The subview bounds of `PaddedView::apply_bounds` as written: the origin is
      the two paddings alone, wherever the bounds are. */
  function PaddedSubviewBoundsAsWritten(left: Float, top: Float, right: Float, bottom: Float,
                                        measured: RectSize, bounds: Bounds): (r: Bounds)
  {
    FromScalars(left, top,
                PaddedLength(measured.width, bounds.Width(), left, right),
                PaddedLength(measured.height, bounds.Height(), top, bottom))
  }

  /** The subview bounds the padded view is meant to give: the same lengths, with
      the origin moved in from the bounds' own corner by the paddings. */
  function PaddedSubviewBounds(left: Float, top: Float, right: Float, bottom: Float,
                               measured: RectSize, bounds: Bounds): (b: Bounds)
    ensures b.size == PaddedSubviewBoundsAsWritten(left, top, right, bottom, measured, bounds).size
    ensures b.origin == Translate(bounds.origin, Point(left, top))
  {
    FromScalars(Add(bounds.XMin(), left), Add(bounds.YMin(), top),
                PaddedLength(measured.width, bounds.Width(), left, right),
                PaddedLength(measured.height, bounds.Height(), top, bottom))
  }

  /** As written, the subview's origin is the two paddings alone, whatever the
      bounds, so the two definitions agree only for bounds at the origin. */
  lemma PaddedOriginAsWritten(left: Float, top: Float, right: Float, bottom: Float,
                              measured: RectSize, bounds: Bounds)
    ensures PaddedSubviewBoundsAsWritten(left, top, right, bottom, measured, bounds).origin == Point(left, top)
    ensures bounds.origin == Origin && left.Num? && top.Num? ==>
              PaddedSubviewBoundsAsWritten(left, top, right, bottom, measured, bounds)
              == PaddedSubviewBounds(left, top, right, bottom, measured, bounds)
  {
  }

  /** As written, any bounds that start further right than the left padding
      (bounds 50 by 50 at (100, 100) with no padding, say) get a subview whose
      origin lies outside them; as intended the origin is inside. */
  lemma PaddedSubviewEscapesBounds(left: Float, top: Float, right: Float, bottom: Float,
                                   measured: RectSize, bounds: Bounds)
    requires left.Num? && top.Num? && bounds.origin.x.Num? && bounds.size.width.Num?
    requires left.r < bounds.XMin().r
    ensures !bounds.Contains(PaddedSubviewBoundsAsWritten(left, top, right, bottom, measured, bounds).origin)
  {
    assert !Le(bounds.XMin(), left);
  }

  /** With finite, non-negative paddings that fit in finite bounds, the subview
      lies inside the bounds with at least the paddings left on every side. */
  lemma PaddedSubviewInside(left: Float, top: Float, right: Float, bottom: Float,
                            measured: RectSize, bounds: Bounds)
    requires left.Num? && top.Num? && right.Num? && bottom.Num?
    requires 0.0 <= left.r && 0.0 <= top.r && 0.0 <= right.r && 0.0 <= bottom.r
    requires bounds.origin.x.Num? && bounds.origin.y.Num? && bounds.size.width.Num? && bounds.size.height.Num?
    requires left.r + right.r <= bounds.Width().r && top.r + bottom.r <= bounds.Height().r
    ensures var b := PaddedSubviewBounds(left, top, right, bottom, measured, bounds);
            && b.XMin() == Num(bounds.XMin().r + left.r) && b.YMin() == Num(bounds.YMin().r + top.r)
            && b.XMax().Num? && b.XMax().r <= bounds.XMax().r - right.r
            && b.YMax().Num? && b.YMax().r <= bounds.YMax().r - bottom.r
            && 0.0 <= b.Width().r && 0.0 <= b.Height().r
  {
    PaddedLengthFits(measured.width, bounds.Width(), left, right);
    PaddedLengthFits(measured.height, bounds.Height(), top, bottom);
  }

  /** Laying the view out in exactly the size it asked for gives the subview
      exactly the size it asked for, inset by the paddings. */
  lemma PaddedPreferredRoundTrip(left: Float, top: Float, right: Float, bottom: Float,
                                 measured: RectSize, origin: Point)
    requires left.Num? && top.Num? && right.Num? && bottom.Num?
    requires 0.0 <= left.r && 0.0 <= top.r && 0.0 <= right.r && 0.0 <= bottom.r
    requires measured.width.Num? && measured.height.Num? && 0.0 <= measured.width.r && 0.0 <= measured.height.r
    requires origin.x.Num? && origin.y.Num?
    ensures var bounds := Bounds(origin, PaddedPreferredSize(left, top, right, bottom, measured));
            PaddedSubviewBounds(left, top, right, bottom, measured, bounds)
            == Bounds(Point(Num(origin.x.r + left.r), Num(origin.y.r + top.r)), measured)
  {
    var bounds := Bounds(origin, PaddedPreferredSize(left, top, right, bottom, measured));
    PaddedLengthFits(measured.width, bounds.Width(), left, right);
    PaddedLengthFits(measured.height, bounds.Height(), top, bottom);
  }

  /** Surrounds a subview with fixed paddings and an optional background. */
  class PaddedView {
    var paddingLeft: Float
    var paddingRight: Float
    var paddingTop: Float
    var paddingBottom: Float
    /** What the subview reports from its own `preferred_size`. */
    const subviewPreferred: RectSize
    /** The size remembered by the last `preferred_size`. */
    var subviewSize: Option<RectSize>
    const background: RectView
    /** The bounds given to the subview, in order. */
    var placements: seq<Bounds>
    /** How many times `apply_bounds` warned about a missing `preferred_size`. */
    var warnings: nat

    ghost predicate Valid()
      reads this, background
    {
      background.Valid()
    }

    /** `PaddedView::new`: no padding, nothing remembered, and a zero-sized
        background with a fully transparent fill. */
    constructor (subviewPreferred: RectSize)
      ensures Valid() && fresh(background)
      ensures paddingLeft == Zero && paddingRight == Zero && paddingTop == Zero && paddingBottom == Zero
      ensures this.subviewPreferred == subviewPreferred && subviewSize == None
      ensures background.fillColor == Transparent && background.size == ZeroSize && background.raw == None
      ensures !BackgroundShown(background)
      ensures placements == [] && warnings == 0
    {
      var bg := new RectView(ZeroSize);
      bg.SetFillColor(Transparent);
      paddingLeft := Zero;
      paddingRight := Zero;
      paddingTop := Zero;
      paddingBottom := Zero;
      this.subviewPreferred := subviewPreferred;
      subviewSize := None;
      background := bg;
      placements := [];
      warnings := 0;
    }

    method SetPaddingLeft(p: Float)
      modifies this`paddingLeft
      ensures paddingLeft == p
    {
      paddingLeft := p;
    }

    method SetPaddingRight(p: Float)
      modifies this`paddingRight
      ensures paddingRight == p
    {
      paddingRight := p;
    }

    method SetPaddingTop(p: Float)
      modifies this`paddingTop
      ensures paddingTop == p
    {
      paddingTop := p;
    }

    method SetPaddingBottom(p: Float)
      modifies this`paddingBottom
      ensures paddingBottom == p
    {
      paddingBottom := p;
    }

    /** `set_padding`: the same padding on all four sides. */
    method SetPadding(p: Float)
      modifies this`paddingLeft, this`paddingRight, this`paddingTop, this`paddingBottom
      ensures paddingLeft == p && paddingRight == p && paddingTop == p && paddingBottom == p
    {
      SetPaddingLeft(p);
      SetPaddingRight(p);
      SetPaddingTop(p);
      SetPaddingBottom(p);
    }

    /** `set_background_color` recolours the background rectangle. */
    method SetBackgroundColor(c: Rgba)
      requires Valid()
      modifies background`fillColor, background`needsUpdate
      ensures Valid() && background.fillColor == c && background.needsUpdate
    {
      background.SetFillColor(c);
    }

    /** `preferred_size`: remembers the subview's size and asks for it plus the
        paddings. */
    method PreferredSize() returns (s: RectSize)
      modifies this`subviewSize
      ensures subviewSize == Some(subviewPreferred)
      ensures s == PaddedPreferredSize(paddingLeft, paddingTop, paddingRight, paddingBottom, subviewPreferred)
    {
      subviewSize := Some(subviewPreferred);
      s := PaddedPreferredSize(paddingLeft, paddingTop, paddingRight, paddingBottom, subviewPreferred);
    }

    /** `apply_bounds`: the background takes the whole bounds; the subview gets
        its remembered size (or, with a warning, a fresh measurement) fitted in
        between the paddings, at the origin the program computes: the two
        paddings alone, whatever the bounds' own origin. */
    method ApplyBounds(bounds: Bounds)
      requires Valid()
      modifies this`placements, this`warnings, background`bounds, background`needsUpdate
      ensures Valid() && background.bounds == bounds && background.needsUpdate
      ensures placements == old(placements) + [PaddedSubviewBoundsAsWritten(paddingLeft, paddingTop, paddingRight, paddingBottom,
                                                                            subviewSize.UnwrapOr(subviewPreferred), bounds)]
      ensures placements[|placements| - 1].origin == Point(paddingLeft, paddingTop)
      ensures warnings == old(warnings) + (if subviewSize.None? then 1 else 0)
    {
      background.ApplyBounds(bounds);
      var measured: RectSize;
      if subviewSize.Some? {
        measured := subviewSize.value;
      } else {
        warnings := warnings + 1;
        measured := subviewPreferred;
      }
      var subviewBounds := PaddedSubviewBoundsAsWritten(paddingLeft, paddingTop, paddingRight, paddingBottom, measured, bounds);
      placements := placements + [subviewBounds];
    }

    method PrepareForDrawing(canvas: RectSize)
      requires Valid()
      modifies background
      ensures Valid()
      ensures BackgroundShown(background) ==> background.ReadyToDraw()
      ensures !old(BackgroundShown(background)) ==> unchanged(background)
      ensures background.Params() == old(background.Params()) && background.size == old(background.size)
    {
      PrepareBackground(background, canvas);
    }

    method Draw() returns (drawn: Option<RectParams>)
      requires Valid()
      ensures drawn.Some? <==> BackgroundShown(background) && background.ReadyToDraw()
      ensures drawn.Some? ==> drawn == Some(background.Params())
    {
      drawn := DrawBackground(background);
    }
  }

  // ---------------------------------------------------------------------------
  // RatioPaddedView

  /** The room the bounds leave around the subview along one axis. */
  function Slack(boundsLength: Float, subviewLength: Float): (r: Float) {
    Max(Sub(boundsLength, subviewLength), Zero)
  }

  /** One axis of `RatioPaddedView::apply_bounds` as written: `(start, length)`
      of the subview. The start moves in by the leading share of the slack, but
      the length loses only the trailing share. */
  function RatioAxisAsWritten(start: Float, length: Float, subviewLength: Float, ratio: Float): (Float, Float) {
    var slack := Slack(length, subviewLength);
    (Add(start, Mul(ratio, slack)), Sub(length, Mul(Sub(One, ratio), slack)))
  }

  /** One axis as intended: both shares of the slack come off the length. */
  function RatioAxis(start: Float, length: Float, subviewLength: Float, ratio: Float): (Float, Float) {
    var slack := Slack(length, subviewLength);
    (Add(start, Mul(ratio, slack)), Sub(Sub(length, Mul(ratio, slack)), Mul(Sub(One, ratio), slack)))
  }

  function RatioSubviewBoundsAsWritten(ratioLeft: Float, ratioTop: Float, measured: RectSize, bounds: Bounds): (r: Bounds) {
    var x := RatioAxisAsWritten(bounds.XMin(), bounds.Width(), measured.width, ratioLeft);
    var y := RatioAxisAsWritten(bounds.YMin(), bounds.Height(), measured.height, ratioTop);
    FromScalars(x.0, y.0, x.1, y.1)
  }

  function RatioSubviewBounds(ratioLeft: Float, ratioTop: Float, measured: RectSize, bounds: Bounds): (r: Bounds) {
    var x := RatioAxis(bounds.XMin(), bounds.Width(), measured.width, ratioLeft);
    var y := RatioAxis(bounds.YMin(), bounds.Height(), measured.height, ratioTop);
    FromScalars(x.0, y.0, x.1, y.1)
  }

  /** `0 <= r*s <= s` for a ratio in [0, 1] and a non-negative slack. */
  lemma ShareBounds(r: real, s: real)
    requires 0.0 <= r <= 1.0 && 0.0 <= s
    ensures 0.0 <= r * s <= s && (1.0 - r) * s == s - r * s
  {
  }

  /** The product of `a` with a positive `b` has the sign of `a`. */
  lemma PositiveFactor(a: real, b: real)
    requires b > 0.0
    ensures a * b > 0.0 <==> a > 0.0
  {
    if a > 0.0 {
      assert a * b > 0.0;
    } else {
      assert a * b == -((-a) * b);
      assert (-a) * b >= 0.0;
    }
  }

  /** The slack and the two shares of it, evaluated on finite operands. */
  lemma RatioShares(length: real, subviewLength: real, ratio: real, slack: real)
    requires slack == if length > subviewLength then length - subviewLength else 0.0
    ensures Slack(Num(length), Num(subviewLength)) == Num(slack)
    ensures Mul(Num(ratio), Slack(Num(length), Num(subviewLength))) == Num(ratio * slack)
    ensures Mul(Sub(One, Num(ratio)), Slack(Num(length), Num(subviewLength))) == Num((1.0 - ratio) * slack)
  {
  }

  /** As intended, along one axis: a subview no longer than the bounds keeps its
      length, a longer one is cut to the bounds; the leading gap is `ratio` of the
      slack and the trailing gap the rest, so the subview stays inside. */
  lemma RatioAxisPlacement(start: real, length: real, subviewLength: real, ratio: real)
    requires 0.0 <= length && 0.0 <= subviewLength && 0.0 <= ratio <= 1.0
    ensures var slack := if length > subviewLength then length - subviewLength else 0.0;
            var a := RatioAxis(Num(start), Num(length), Num(subviewLength), Num(ratio));
            && a.0 == Num(start + ratio * slack)
            && a.1 == Num(if subviewLength <= length then subviewLength else length)
            && a.0.r + a.1.r + (1.0 - ratio) * slack == start + length
            && start <= a.0.r && a.0.r + a.1.r <= start + length
  {
    var slack := if length > subviewLength then length - subviewLength else 0.0;
    RatioShares(length, subviewLength, ratio, slack);
    ShareBounds(ratio, slack);
    var p := ratio * slack;
    var q := (1.0 - ratio) * slack;
    var a := RatioAxis(Num(start), Num(length), Num(subviewLength), Num(ratio));
    assert a.0 == Num(start + p);
    assert a.1 == Num(length - p - q);
  }

  /** As written, along one axis with room to spare, the subview ends past the
      far edge exactly when the ratio is above one half: it ends at
      `start + length + (2 ratio - 1) slack`. */
  lemma RatioAxisAsWrittenOverflow(start: real, length: real, subviewLength: real, ratio: real)
    requires subviewLength < length
    ensures var a := RatioAxisAsWritten(Num(start), Num(length), Num(subviewLength), Num(ratio));
            && a.0.r + a.1.r == start + length + (2.0 * ratio - 1.0) * (length - subviewLength)
            && (a.0.r + a.1.r > start + length <==> ratio > 0.5)
  {
    var slack := length - subviewLength;
    RatioShares(length, subviewLength, ratio, slack);
    var p := ratio * slack;
    var q := (1.0 - ratio) * slack;
    assert q == slack - p;
    assert (2.0 * ratio - 1.0) * slack == 2.0 * p - slack;
    var a := RatioAxisAsWritten(Num(start), Num(length), Num(subviewLength), Num(ratio));
    assert a.0.r + a.1.r == start + length + (2.0 * ratio - 1.0) * slack;
    PositiveFactor(2.0 * ratio - 1.0, slack);
  }

  /** As written, a subview narrower than finite bounds ends past their right
      edge whenever `ratio_left` is above one half (bounds 100 wide at the
      origin, a subview 50 wide and a ratio of 1 give a subview from 50 to 150). */
  lemma RatioSubviewOverflows(ratioLeft: real, ratioTop: Float, measured: RectSize, bounds: Bounds)
    requires bounds.origin.x.Num? && bounds.size.width.Num? && measured.width.Num?
    requires measured.width.r < bounds.Width().r && ratioLeft > 0.5
    ensures RatioSubviewBoundsAsWritten(Num(ratioLeft), ratioTop, measured, bounds).XMax().r > bounds.XMax().r
  {
    RatioAxisAsWrittenOverflow(bounds.XMin().r, bounds.Width().r, measured.width.r, ratioLeft);
  }

  /** With ratios in [0, 1], finite bounds and a finite measured size, the
      subview lies inside the bounds, at its measured size cut to the bounds. */
  lemma RatioSubviewInside(ratioLeft: real, ratioTop: real, measured: RectSize, bounds: Bounds)
    requires 0.0 <= ratioLeft <= 1.0 && 0.0 <= ratioTop <= 1.0
    requires measured.width.Num? && measured.height.Num? && 0.0 <= measured.width.r && 0.0 <= measured.height.r
    requires bounds.origin.x.Num? && bounds.origin.y.Num? && bounds.size.width.Num? && bounds.size.height.Num?
    requires 0.0 <= bounds.Width().r && 0.0 <= bounds.Height().r
    ensures var b := RatioSubviewBounds(Num(ratioLeft), Num(ratioTop), measured, bounds);
            && b.size == measured.Min(bounds.size)
            && bounds.XMin().r <= b.XMin().r && b.XMax().r <= bounds.XMax().r
            && bounds.YMin().r <= b.YMin().r && b.YMax().r <= bounds.YMax().r
  {
    RatioAxisPlacement(bounds.XMin().r, bounds.Width().r, measured.width.r, ratioLeft);
    RatioAxisPlacement(bounds.YMin().r, bounds.Height().r, measured.height.r, ratioTop);
  }

  /** A ratio-padded view laid out at exactly its subview's size gives the
      subview the whole bounds, whatever the ratios. */
  lemma RatioExactFit(ratioLeft: real, ratioTop: real, bounds: Bounds)
    requires 0.0 <= ratioLeft <= 1.0 && 0.0 <= ratioTop <= 1.0
    requires bounds.origin.x.Num? && bounds.origin.y.Num? && bounds.size.width.Num? && bounds.size.height.Num?
    requires 0.0 <= bounds.Width().r && 0.0 <= bounds.Height().r
    ensures RatioSubviewBounds(Num(ratioLeft), Num(ratioTop), bounds.size, bounds) == bounds
  {
    RatioAxisPlacement(bounds.XMin().r, bounds.Width().r, bounds.Width().r, ratioLeft);
    RatioAxisPlacement(bounds.YMin().r, bounds.Height().r, bounds.Height().r, ratioTop);
  }

  /** `ratio_right` is `1 - ratio_left`; setting it through `set_ratio_right`
      and reading it back gives the same finite value. */
  lemma ComplementInvolutive(x: Float)
    requires x.Num?
    ensures Sub(One, Sub(One, x)) == x
  {
  }

  /** Positions a subview in its bounds so that the gaps before and after it
      along each axis split the slack in the given ratios. */
  class RatioPaddedView {
    /** A size that overrides the subview's own when the view is measured. */
    var size: Option<RectSize>
    var ratioLeft: Float
    var ratioTop: Float
    /** What the subview reports from its own `preferred_size`. */
    const subviewPreferred: RectSize
    var subviewSize: Option<RectSize>
    const background: RectView
    var placements: seq<Bounds>
    var warnings: nat

    ghost predicate Valid()
      reads this, background
    {
      background.Valid()
    }

    /** `RatioPaddedView::new`: centred, no size of its own, transparent
        background. */
    constructor (subviewPreferred: RectSize)
      ensures Valid() && fresh(background)
      ensures size == None && ratioLeft == Half && ratioTop == Half
      ensures this.subviewPreferred == subviewPreferred && subviewSize == None
      ensures background.fillColor == Transparent && background.size == ZeroSize && background.raw == None
      ensures !BackgroundShown(background)
      ensures placements == [] && warnings == 0
    {
      var bg := new RectView(ZeroSize);
      bg.SetFillColor(Transparent);
      size := None;
      ratioLeft := Half;
      ratioTop := Half;
      this.subviewPreferred := subviewPreferred;
      subviewSize := None;
      background := bg;
      placements := [];
      warnings := 0;
    }

    /** `RatioPaddedView::spread`: asks for infinite room on both axes. */
    constructor Spread(subviewPreferred: RectSize)
      ensures Valid() && fresh(background)
      ensures size == Some(RectSize(PosInf, PosInf)) && ratioLeft == Half && ratioTop == Half
      ensures this.subviewPreferred == subviewPreferred && subviewSize == None
      ensures background.fillColor == Transparent && !BackgroundShown(background)
      ensures placements == [] && warnings == 0
    {
      var bg := new RectView(ZeroSize);
      bg.SetFillColor(Transparent);
      size := Some(RectSize(PosInf, PosInf));
      ratioLeft := Half;
      ratioTop := Half;
      this.subviewPreferred := subviewPreferred;
      subviewSize := None;
      background := bg;
      placements := [];
      warnings := 0;
    }

    method SetSize(s: Option<RectSize>)
      modifies this`size
      ensures size == s
    {
      size := s;
    }

    method SetRatioLeft(r: Float)
      modifies this`ratioLeft
      ensures ratioLeft == r
    {
      ratioLeft := r;
    }

    method SetRatioTop(r: Float)
      modifies this`ratioTop
      ensures ratioTop == r
    {
      ratioTop := r;
    }

    function RatioRight(): (r: Float)
      reads this
    {
      Sub(One, ratioLeft)
    }

    function RatioBottom(): (r: Float)
      reads this
    {
      Sub(One, ratioTop)
    }

    /** `set_ratio_right` stores the complement in `ratio_left`; a finite value
        reads back unchanged. */
    method SetRatioRight(r: Float)
      modifies this`ratioLeft
      ensures ratioLeft == Sub(One, r)
      ensures r.Num? ==> RatioRight() == r
    {
      ratioLeft := Sub(One, r);
      if r.Num? {
        ComplementInvolutive(r);
      }
    }

    method SetRatioBottom(r: Float)
      modifies this`ratioTop
      ensures ratioTop == Sub(One, r)
      ensures r.Num? ==> RatioBottom() == r
    {
      ratioTop := Sub(One, r);
      if r.Num? {
        ComplementInvolutive(r);
      }
    }

    function BackgroundColor(): (r: Rgba)
      reads this, background
    {
      background.fillColor
    }

    method SetBackgroundColor(c: Rgba)
      requires Valid()
      modifies background`fillColor, background`needsUpdate
      ensures Valid() && BackgroundColor() == c && background.needsUpdate
    {
      background.SetFillColor(c);
    }

    /** `preferred_size`: remembers the subview's size and asks for the view's
        own size if it has one, the subview's otherwise. */
    method PreferredSize() returns (s: RectSize)
      modifies this`subviewSize
      ensures subviewSize == Some(subviewPreferred)
      ensures size.Some? ==> s == size.value
      ensures size.None? ==> s == subviewPreferred
    {
      subviewSize := Some(subviewPreferred);
      s := size.UnwrapOr(subviewPreferred);
    }

    /** `apply_bounds`: the background takes the whole bounds; with a remembered
        subview size the subview is placed by the ratios as the program computes
        it (the width loses only the trailing share of the slack), and without one
        the view only warns. */
    method ApplyBounds(bounds: Bounds)
      requires Valid()
      modifies this`placements, this`warnings, background`bounds, background`needsUpdate
      ensures Valid() && background.bounds == bounds && background.needsUpdate
      ensures subviewSize.Some? ==>
                placements == old(placements) + [RatioSubviewBoundsAsWritten(ratioLeft, ratioTop, subviewSize.value, bounds)]
                && warnings == old(warnings)
      ensures subviewSize.None? ==> placements == old(placements) && warnings == old(warnings) + 1
    {
      background.ApplyBounds(bounds);
      match subviewSize
      case Some(measured) =>
        placements := placements + [RatioSubviewBoundsAsWritten(ratioLeft, ratioTop, measured, bounds)];
      case None =>
        warnings := warnings + 1;
    }

    method PrepareForDrawing(canvas: RectSize)
      requires Valid()
      modifies background
      ensures Valid()
      ensures BackgroundShown(background) ==> background.ReadyToDraw()
      ensures !old(BackgroundShown(background)) ==> unchanged(background)
      ensures background.Params() == old(background.Params()) && background.size == old(background.size)
    {
      PrepareBackground(background, canvas);
    }

    method Draw() returns (drawn: Option<RectParams>)
      requires Valid()
      ensures drawn.Some? <==> BackgroundShown(background) && background.ReadyToDraw()
      ensures drawn.Some? ==> drawn == Some(background.Params())
    {
      drawn := DrawBackground(background);
    }
  }
}
