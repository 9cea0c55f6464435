/** The older stack view of `src/view/stack.rs`. It measures its subviews in one
    pass (remembering their sizes and the sum of their lengths along the axis), and
    in the bounds pass walks them again in order, giving each the remembered size
    clipped to what is left of the axis and centring it across the axis. Each
    subview is represented by the size it reports when measured; the bounds handed
    to the subviews are recorded in `placements`. */
module StackViews {
  import opened Wrappers
  import opened Floats
  import opened Rect
  import opened Color
  import opened Axes
  import opened LayoutStacks
  import opened RectViews

  // `StackPaddingType` and the gap count `n_paddings` of this view are the same as
  // those of the stack layout, and the same definitions are used.

  /** The gap the bounds pass puts after every subview: the fixed padding, or the
      leftover length shared between the `n_paddings` gaps. */
  function ViewPadding(fixedPadding: Option<Float>, lengthAlpha: Float, total: Float, nPaddings: nat): (g: Float)
    ensures fixedPadding.Some? ==> g == fixedPadding.value
    ensures fixedPadding.None? && lengthAlpha.Num? && total.Num? && nPaddings > 0 ==>
              g == Num((lengthAlpha.r - total.r) / nPaddings as real)
  {
    match fixedPadding
    case Some(f) => f
    case None => Div(Sub(lengthAlpha, total), FromNat(nPaddings))
  }

  /** What the bounds pass derives from the view before the walk. */
  datatype ViewStackPlan = ViewStackPlan(axis: Axis, bounds: Bounds, sizes: seq<RectSize>, padding: Float, start: Float)

  function ViewPlan(axis: Axis, paddingType: StackPaddingType, fixedPadding: Option<Float>,
                    sizes: seq<RectSize>, total: Float, bounds: Bounds): (p: ViewStackPlan)
    ensures p.axis == axis && p.bounds == bounds && p.sizes == sizes
    ensures p.padding == ViewPadding(fixedPadding, BoundsLengthAlpha(bounds, axis), total, NPaddings(|sizes|, paddingType))
    ensures p.start == Add(AlphaMin(bounds, axis), if paddingType == Interpadded then Zero else p.padding)
  {
    var padding := ViewPadding(fixedPadding, BoundsLengthAlpha(bounds, axis), total, NPaddings(|sizes|, paddingType));
    var start := match paddingType
      case Interpadded => Add(AlphaMin(bounds, axis), Zero)
      case Omnipadded => Add(AlphaMin(bounds, axis), padding);
    ViewStackPlan(axis, bounds, sizes, padding, start)
  }

  /** The bounds subview `i` gets when the walk reaches it at `offset`: its measured
      size clipped to what is left of the axis and to the bounds across it, centred
      across the axis. */
  function PlaceInStack(p: ViewStackPlan, i: nat, offset: Float): (r: Bounds)
    requires i < |p.sizes|
  {
    var remaining := SizeOnAxis(p.axis,
                                Add(Sub(BoundsLengthAlpha(p.bounds, p.axis), offset), AlphaMin(p.bounds, p.axis)),
                                BoundsLengthBeta(p.bounds, p.axis));
    var size := p.sizes[i].Min(remaining);
    var offsetBeta := Add(BetaMin(p.bounds, p.axis),
                          Mul(Half, Sub(BoundsLengthBeta(p.bounds, p.axis), LengthBeta(size, p.axis))));
    Bounds(PointOnAxis(p.axis, offset, offsetBeta), size)
  }

  /** The offset and the bounds handed out after the first `k` subviews. */
  function ViewWalk(p: ViewStackPlan, k: nat): (w: (Float, seq<Bounds>))
    requires k <= |p.sizes|
    ensures |w.1| == k
  {
    if k == 0 then (p.start, [])
    else
      var prev := ViewWalk(p, k - 1);
      var b := PlaceInStack(p, k - 1, prev.0);
      (Add(Add(prev.0, p.padding), LengthAlpha(b.size, p.axis)), prev.1 + [b])
  }

  /** The walk hands the subviews out in order: a longer walk extends a shorter one. */
  lemma {:induction false} ViewWalkPrefix(p: ViewStackPlan, j: nat, k: nat)
    requires j <= k <= |p.sizes|
    ensures ViewWalk(p, j).1 <= ViewWalk(p, k).1
  {
    if j < k {
      ViewWalkPrefix(p, j, k - 1);
      var prev := ViewWalk(p, k - 1);
      assert ViewWalk(p, k).1 == prev.1 + [PlaceInStack(p, k - 1, prev.0)];
    }
  }

  /** With finite lengths, a placed subview never runs past the far end of the axis
      (it is clipped to what is left), and it starts where the walk is. */
  lemma PlaceInStackFits(p: ViewStackPlan, i: nat, offset: real)
    requires i < |p.sizes|
    requires AlphaMin(p.bounds, p.axis).Num? && BoundsLengthAlpha(p.bounds, p.axis).Num?
    requires LengthAlpha(p.sizes[i], p.axis).Num?
    ensures var b := PlaceInStack(p, i, Num(offset));
            var alphaMin := AlphaMin(p.bounds, p.axis).r;
            && AlphaMin(b, p.axis) == Num(offset)
            && LengthAlpha(b.size, p.axis).Num?
            && LengthAlpha(b.size, p.axis).r <= LengthAlpha(p.sizes[i], p.axis).r
            && offset + LengthAlpha(b.size, p.axis).r <= alphaMin + BoundsLengthAlpha(p.bounds, p.axis).r
  {
    var remaining := SizeOnAxis(p.axis,
                                Add(Sub(BoundsLengthAlpha(p.bounds, p.axis), Num(offset)), AlphaMin(p.bounds, p.axis)),
                                BoundsLengthBeta(p.bounds, p.axis));
    SizeMinOnAxis(p.sizes[i], remaining, p.axis);
  }

  /** A subview no longer across the axis than the bounds is centred across it: the
      space before it equals the space after it. */
  lemma PlaceInStackCentred(p: ViewStackPlan, i: nat, offset: Float)
    requires i < |p.sizes|
    requires BetaMin(p.bounds, p.axis).Num? && BoundsLengthBeta(p.bounds, p.axis).Num?
    requires LengthBeta(p.sizes[i], p.axis).Num?
    requires LengthBeta(p.sizes[i], p.axis).r <= BoundsLengthBeta(p.bounds, p.axis).r
    ensures var b := PlaceInStack(p, i, offset);
            var betaMin := BetaMin(p.bounds, p.axis).r;
            var lengthBeta := BoundsLengthBeta(p.bounds, p.axis).r;
            && LengthBeta(b.size, p.axis) == LengthBeta(p.sizes[i], p.axis)
            && BetaMin(b, p.axis).Num?
            && BetaMin(b, p.axis).r - betaMin
               == (betaMin + lengthBeta) - (BetaMin(b, p.axis).r + LengthBeta(b.size, p.axis).r)
  {
    var remaining := SizeOnAxis(p.axis,
                                Add(Sub(BoundsLengthAlpha(p.bounds, p.axis), offset), AlphaMin(p.bounds, p.axis)),
                                BoundsLengthBeta(p.bounds, p.axis));
    SizeMinOnAxis(p.sizes[i], remaining, p.axis);
  }

  /** `k` gaps of length `g` end to end. */
  function GapTotal(k: nat, g: real): (r: real) {
    if k == 0 then 0.0 else GapTotal(k - 1, g) + g
  }

  lemma {:induction false} GapTotalMonotone(j: nat, k: nat, g: real)
    requires j <= k && g >= 0.0
    ensures GapTotal(j, g) <= GapTotal(k, g)
  {
    if j < k {
      GapTotalMonotone(j, k - 1, g);
    }
  }

  lemma {:induction false} GapTotalProduct(k: nat, g: real)
    ensures GapTotal(k, g) == k as real * g
  {
    if k > 0 {
      GapTotalProduct(k - 1, g);
      assert (k - 1) as real * g + g == k as real * g;
    }
  }

  /** A subview that fits in what is left of the axis keeps its length. */
  lemma PlaceInStackUnclipped(p: ViewStackPlan, i: nat, offset: real)
    requires i < |p.sizes|
    requires AlphaMin(p.bounds, p.axis).Num? && BoundsLengthAlpha(p.bounds, p.axis).Num?
    requires LengthAlpha(p.sizes[i], p.axis).Num?
    requires offset + LengthAlpha(p.sizes[i], p.axis).r <= AlphaMin(p.bounds, p.axis).r + BoundsLengthAlpha(p.bounds, p.axis).r
    ensures LengthAlpha(PlaceInStack(p, i, Num(offset)).size, p.axis) == LengthAlpha(p.sizes[i], p.axis)
  {
    var remaining := SizeOnAxis(p.axis,
                                Add(Sub(BoundsLengthAlpha(p.bounds, p.axis), Num(offset)), AlphaMin(p.bounds, p.axis)),
                                BoundsLengthBeta(p.bounds, p.axis));
    SizeMinOnAxis(p.sizes[i], remaining, p.axis);
  }

  /** One step of the walk from a finite offset, for a subview that fits. */
  lemma ViewWalkStepUnclipped(p: ViewStackPlan, i: nat, offset: real, g: real)
    requires i < |p.sizes| && ViewWalk(p, i).0 == Num(offset) && p.padding == Num(g)
    requires AlphaMin(p.bounds, p.axis).Num? && BoundsLengthAlpha(p.bounds, p.axis).Num?
    requires LengthAlpha(p.sizes[i], p.axis).Num?
    requires offset + LengthAlpha(p.sizes[i], p.axis).r <= AlphaMin(p.bounds, p.axis).r + BoundsLengthAlpha(p.bounds, p.axis).r
    ensures ViewWalk(p, i + 1).0 == Num(offset + g + LengthAlpha(p.sizes[i], p.axis).r)
    ensures LengthAlpha(ViewWalk(p, i + 1).1[i].size, p.axis) == LengthAlpha(p.sizes[i], p.axis)
  {
    PlaceInStackUnclipped(p, i, offset);
  }

  /** While everything fits, no subview is clipped along the axis: the walk reaches
      subview `k` after the first `k` lengths and `k` gaps. */
  lemma {:induction false} ViewWalkUnclipped(p: ViewStackPlan, s0: real, g: real, k: nat)
    requires 1 <= |p.sizes| && k <= |p.sizes|
    requires p.start == Num(s0) && p.padding == Num(g) && g >= 0.0
    requires AlphaMin(p.bounds, p.axis).Num? && BoundsLengthAlpha(p.bounds, p.axis).Num?
    requires forall i | 0 <= i < |p.sizes| :: LengthAlpha(p.sizes[i], p.axis).Num? && LengthAlpha(p.sizes[i], p.axis).r >= 0.0
    requires s0 + RealAlphaSum(p.sizes, p.axis) + GapTotal(|p.sizes| - 1, g)
             <= AlphaMin(p.bounds, p.axis).r + BoundsLengthAlpha(p.bounds, p.axis).r
    ensures ViewWalk(p, k).0 == Num(s0 + RealAlphaSum(p.sizes[..k], p.axis) + GapTotal(k, g))
    ensures k > 0 ==> LengthAlpha(ViewWalk(p, k).1[k - 1].size, p.axis) == LengthAlpha(p.sizes[k - 1], p.axis)
  {
    if k > 0 {
      ViewWalkUnclipped(p, s0, g, k - 1);
      var i := k - 1;
      var pre := p.sizes[..k];
      var before := RealAlphaSum(p.sizes[..i], p.axis);
      var a := LengthAlpha(p.sizes[i], p.axis).r;
      assert RealAlphaSum(pre, p.axis) == before + a by {
        assert pre[..i] == p.sizes[..i];
      }
      RealAlphaSumPrefix(p.sizes, p.axis, k);
      GapTotalMonotone(i, |p.sizes| - 1, g);
      ViewWalkStepUnclipped(p, i, s0 + before + GapTotal(i, g), g);
    }
  }

  /** Without a fixed padding and with room for two or more subviews, the leftover
      length is shared equally: an `Interpadded` stack's last subview ends exactly at
      the far end of the axis, and an `Omnipadded` stack leaves after its last
      subview the same gap it left before its first. */
  lemma AutoPaddingFillsView(axis: Axis, t: StackPaddingType, sizes: seq<RectSize>, bounds: Bounds)
    requires |sizes| >= 2
    requires forall i | 0 <= i < |sizes| :: LengthAlpha(sizes[i], axis).Num? && LengthAlpha(sizes[i], axis).r >= 0.0
    requires AlphaMin(bounds, axis).Num? && BoundsLengthAlpha(bounds, axis).Num?
    requires RealAlphaSum(sizes, axis) <= BoundsLengthAlpha(bounds, axis).r
    ensures var p := ViewPlan(axis, t, None, sizes, AlphaSum(sizes, axis), bounds);
            var last := ViewWalk(p, |sizes|).1[|sizes| - 1];
            var alphaMin := AlphaMin(bounds, axis).r;
            && p.start.Num? && AlphaMin(last, axis).Num? && LengthAlpha(last.size, axis).Num?
            && AlphaMin(last, axis).r + LengthAlpha(last.size, axis).r
               == alphaMin + BoundsLengthAlpha(bounds, axis).r - (p.start.r - alphaMin)
            && (t == Interpadded ==> p.start.r == alphaMin)
  {
    AutoViewPlan(axis, t, sizes, bounds);
    AutoPaddedLastEnd(ViewPlan(axis, t, None, sizes, AlphaSum(sizes, axis), bounds), t);
  }

  /** The last subview of a plan whose gaps share the leftover length equally, and
      which starts at the near end of the axis (`Interpadded`) or one gap after it
      (`Omnipadded`), ends as far from the far end as the walk started from the
      near end. */
  lemma AutoPaddedLastEnd(p: ViewStackPlan, t: StackPaddingType)
    requires |p.sizes| >= 2
    requires forall i | 0 <= i < |p.sizes| :: LengthAlpha(p.sizes[i], p.axis).Num? && LengthAlpha(p.sizes[i], p.axis).r >= 0.0
    requires AlphaMin(p.bounds, p.axis).Num? && BoundsLengthAlpha(p.bounds, p.axis).Num?
    requires p.padding.Num? && p.padding.r >= 0.0
    requires GapTotal(NPaddings(|p.sizes|, t), p.padding.r) == BoundsLengthAlpha(p.bounds, p.axis).r - RealAlphaSum(p.sizes, p.axis)
    requires p.start == Num(if t == Interpadded then AlphaMin(p.bounds, p.axis).r else AlphaMin(p.bounds, p.axis).r + p.padding.r)
    ensures var last := ViewWalk(p, |p.sizes|).1[|p.sizes| - 1];
            var alphaMin := AlphaMin(p.bounds, p.axis).r;
            && AlphaMin(last, p.axis).Num? && LengthAlpha(last.size, p.axis).Num?
            && AlphaMin(last, p.axis).r + LengthAlpha(last.size, p.axis).r
               == alphaMin + BoundsLengthAlpha(p.bounds, p.axis).r - (p.start.r - alphaMin)
  {
    var n := |p.sizes|;
    var g := p.padding.r;
    assert GapTotal(n + 1, g) == GapTotal(n - 1, g) + g + g;
    LastSubviewEnd(p, p.start.r, g);
  }

  /** The plan of an automatically padded view: the leftover length is shared
      equally between the `n_paddings` gaps, and the walk starts at the near end of
      the axis, or one gap after it. */
  lemma AutoViewPlan(axis: Axis, t: StackPaddingType, sizes: seq<RectSize>, bounds: Bounds)
    requires |sizes| >= 2
    requires forall i | 0 <= i < |sizes| :: LengthAlpha(sizes[i], axis).Num? && LengthAlpha(sizes[i], axis).r >= 0.0
    requires AlphaMin(bounds, axis).Num? && BoundsLengthAlpha(bounds, axis).Num?
    requires RealAlphaSum(sizes, axis) <= BoundsLengthAlpha(bounds, axis).r
    ensures var p := ViewPlan(axis, t, None, sizes, AlphaSum(sizes, axis), bounds);
            && p.padding.Num? && p.padding.r >= 0.0
            && GapTotal(NPaddings(|sizes|, t), p.padding.r) == BoundsLengthAlpha(bounds, axis).r - RealAlphaSum(sizes, axis)
            && p.start == Num(if t == Interpadded then AlphaMin(bounds, axis).r else AlphaMin(bounds, axis).r + p.padding.r)
  {
    AlphaSumFinite(sizes, axis);
    var len := BoundsLengthAlpha(bounds, axis).r;
    var sum := RealAlphaSum(sizes, axis);
    ShareEvenly(len - sum, NPaddings(|sizes|, t));
  }

  /** When everything fits, the last subview keeps its length and ends after all
      the lengths and one gap fewer than there are subviews. */
  lemma LastSubviewEnd(p: ViewStackPlan, s0: real, g: real)
    requires 1 <= |p.sizes|
    requires p.start == Num(s0) && p.padding == Num(g) && g >= 0.0
    requires AlphaMin(p.bounds, p.axis).Num? && BoundsLengthAlpha(p.bounds, p.axis).Num?
    requires forall i | 0 <= i < |p.sizes| :: LengthAlpha(p.sizes[i], p.axis).Num? && LengthAlpha(p.sizes[i], p.axis).r >= 0.0
    requires s0 + RealAlphaSum(p.sizes, p.axis) + GapTotal(|p.sizes| - 1, g)
             <= AlphaMin(p.bounds, p.axis).r + BoundsLengthAlpha(p.bounds, p.axis).r
    ensures var last := ViewWalk(p, |p.sizes|).1[|p.sizes| - 1];
            && AlphaMin(last, p.axis).Num? && LengthAlpha(last.size, p.axis).Num?
            && AlphaMin(last, p.axis).r + LengthAlpha(last.size, p.axis).r
               == s0 + RealAlphaSum(p.sizes, p.axis) + GapTotal(|p.sizes| - 1, g)
  {
    var n := |p.sizes|;
    var i := n - 1;
    ViewWalkUnclipped(p, s0, g, i);
    ViewWalkUnclipped(p, s0, g, n);
    var last := ViewWalk(p, n).1[i];
    assert last == PlaceInStack(p, i, ViewWalk(p, i).0);
    PlaceInStackFits(p, i, s0 + RealAlphaSum(p.sizes[..i], p.axis) + GapTotal(i, g));
    assert p.sizes[..n] == p.sizes;
    assert RealAlphaSum(p.sizes, p.axis) == RealAlphaSum(p.sizes[..i], p.axis) + LengthAlpha(p.sizes[i], p.axis).r;
  }

  /** A non-negative length shared equally between `gaps` gaps fills it exactly. */
  lemma ShareEvenly(space: real, gaps: nat)
    requires gaps > 0 && space >= 0.0
    ensures space / gaps as real >= 0.0 && GapTotal(gaps, space / gaps as real) == space
  {
    GapTotalProduct(gaps, space / gaps as real);
  }

  /** The stack view: its subviews, its optional background rectangle, and what the
      measuring pass remembered. */
  class StackView {
    var axis: Axis
    /** The size each subview reports when measured, in order. */
    const subviews: seq<RectSize>
    var background: RectView?
    var paddingType: StackPaddingType
    var fixedPadding: Option<Float>
    var subviewSizes: seq<RectSize>
    var subviewLengthAlphaTotal: Float
    /** The bounds handed to the subviews, in order. */
    var placements: seq<Bounds>
    /** How many times the bounds pass found fewer remembered sizes than subviews. */
    var warnings: nat

    ghost predicate Valid()
      reads this, background
    {
      background != null ==> background.Valid()
    }

    /** `StackView::new`: gaps only between subviews, computed padding, no
        background and nothing measured yet. `horizontal` and `vertical` are this
        constructor with the axis fixed. */
    constructor (axis: Axis, subviews: seq<RectSize>)
      ensures Valid()
      ensures this.axis == axis && this.subviews == subviews && background == null
      ensures paddingType == Interpadded && fixedPadding == None
      ensures subviewSizes == [] && subviewLengthAlphaTotal == Zero && placements == [] && warnings == 0
    {
      this.axis := axis;
      this.subviews := subviews;
      background := null;
      paddingType := Interpadded;
      fixedPadding := None;
      subviewSizes := [];
      subviewLengthAlphaTotal := Zero;
      placements := [];
      warnings := 0;
    }

    method SetAxis(a: Axis)
      modifies this`axis
      ensures axis == a
    {
      axis := a;
    }

    method SetPaddingType(t: StackPaddingType)
      modifies this`paddingType
      ensures paddingType == t
    {
      paddingType := t;
    }

    method SetFixedPadding(f: Option<Float>)
      modifies this`fixedPadding
      ensures fixedPadding == f
    {
      fixedPadding := f;
    }

    /** `background_color`: the background's fill, or transparent black when there
        is no background. */
    function BackgroundColor(): (c: Rgba)
      reads this, background
      ensures background == null ==> c == RgbaFromHex(0)
    {
      if background == null then RgbaFromHex(0) else background.fillColor
    }

    /** `set_background_color`: a colour whose alpha is zero is ignored (so a
        background, once shown, cannot be cleared this way); any other colour creates
        the background rectangle, with a zero size, if there is none, and fills it. */
    method SetBackgroundColor(c: Rgba)
      requires Valid()
      modifies this`background, background
      ensures Valid()
      ensures Eq(c.a, Zero) ==> background == old(background) && BackgroundColor() == old(BackgroundColor())
      ensures !Eq(c.a, Zero) ==> background != null && BackgroundColor() == c
      ensures !Eq(c.a, Zero) && old(background) != null ==> background == old(background)
      ensures !Eq(c.a, Zero) && old(background) != null ==>
                background.Params() == old(background.Params()).(fillColor := c) && background.needsUpdate
                && background.size == old(background.size) && background.raw == old(background.raw)
      ensures !Eq(c.a, Zero) && old(background) == null ==> fresh(background) && background.size == ZeroSize
    {
      if Eq(c.a, Zero) {
        return;
      }
      if background == null {
        background := new RectView(ZeroSize);
      }
      background.SetFillColor(c);
    }

    /** `preferred_size`: measures every subview in order, remembers the sizes and
        their total length along the axis, and asks for that total plus one fixed
        padding per gap along the axis and the largest length across it. */
    method PreferredSize() returns (s: RectSize)
      modifies this`subviewSizes, this`subviewLengthAlphaTotal
      ensures subviewSizes == subviews
      ensures subviewLengthAlphaTotal == AlphaSum(subviews, axis)
      ensures LengthAlpha(s, axis) == Add(AlphaSum(subviews, axis),
                                          Mul(FromNat(NPaddings(|subviews|, paddingType)), fixedPadding.UnwrapOr(Zero)))
      ensures LengthBeta(s, axis) == BetaMax(subviews, axis)
    {
      var lengthAlpha := Zero;
      var lengthBeta := Zero;
      subviewSizes := [];
      var i := 0;
      while i < |subviews|
        invariant 0 <= i <= |subviews|
        invariant subviewSizes == subviews[..i]
        invariant lengthAlpha == AlphaSum(subviews[..i], axis)
        invariant lengthBeta == BetaMax(subviews[..i], axis)
      {
        var size := subviews[i];
        subviewSizes := subviewSizes + [size];
        lengthAlpha := Add(lengthAlpha, LengthAlpha(size, axis));
        lengthBeta := Max(lengthBeta, LengthBeta(size, axis));
        i := i + 1;
        assert subviews[..i][..i - 1] == subviews[..i - 1];
      }
      assert subviews[..i] == subviews;
      var nPaddings := NPaddings(|subviewSizes|, paddingType);
      subviewLengthAlphaTotal := lengthAlpha;
      var paddingTotal := Mul(FromNat(nPaddings), fixedPadding.UnwrapOr(Zero));
      lengthAlpha := Add(lengthAlpha, paddingTotal);
      s := SizeOnAxis(axis, lengthAlpha, lengthBeta);
    }

    /** The plan the bounds pass follows for `bounds`. */
    function CurrentPlan(bounds: Bounds): (p: ViewStackPlan)
      reads this
      ensures p == ViewPlan(axis, paddingType, fixedPadding, subviewSizes, subviewLengthAlphaTotal, bounds)
    {
      ViewPlan(axis, paddingType, fixedPadding, subviewSizes, subviewLengthAlphaTotal, bounds)
    }

    /** How many subviews the bounds pass reaches: all of them, unless fewer sizes
        were remembered (the bounds pass came before any measuring pass, say). */
    function Reached(): (n: nat)
      reads this
      ensures n <= |subviews| && n <= |subviewSizes|
      ensures n == |subviews| || n == |subviewSizes|
    {
      if |subviews| <= |subviewSizes| then |subviews| else |subviewSizes|
    }

    /** `apply_bounds`: gives the background the whole bounds, then walks the
        subviews in order; when the remembered sizes run out it warns and stops. */
    method ApplyBounds(bounds: Bounds)
      requires Valid()
      modifies this`placements, this`warnings, background
      ensures Valid()
      ensures placements == old(placements) + ViewWalk(old(CurrentPlan(bounds)), Reached()).1
      ensures warnings == old(warnings) + (if |subviews| > |subviewSizes| then 1 else 0)
      ensures background != null ==> background.bounds == bounds && background.needsUpdate
      ensures background != null ==>
                background.Params() == old(background.Params()).(bounds := bounds)
                && background.size == old(background.size) && background.raw == old(background.raw)
    {
      if background != null {
        background.ApplyBounds(bounds);
      }
      WalkSubviews(bounds);
    }

    /** The walk of `apply_bounds` over the subviews. */
    method WalkSubviews(bounds: Bounds)
      modifies this`placements, this`warnings
      ensures placements == old(placements) + ViewWalk(old(CurrentPlan(bounds)), old(Reached())).1
      ensures warnings == old(warnings) + (if |subviews| > |subviewSizes| then 1 else 0)
    {
      var placed := WalkPlan(CurrentPlan(bounds), Reached());
      placements := placements + placed;
      // The visitor finds no remembered size for the next subview: it warns and
      // stops the visit.
      if |subviews| > |subviewSizes| {
        warnings := warnings + 1;
      }
    }

    /** `prepare_for_drawing`, as far as the background goes: it is prepared only
        when its fill is not fully transparent. */
    method PrepareForDrawing(canvas: RectSize)
      requires Valid()
      modifies background
      ensures Valid()
      ensures background != null && !Eq(background.fillColor.a, Zero) ==> background.ReadyToDraw()
      ensures background != null && Eq(background.fillColor.a, Zero) ==> unchanged(background)
      ensures background != null ==>
                background.Params() == old(background.Params()) && background.size == old(background.size)
    {
      if background != null && !Eq(background.fillColor.a, Zero) {
        background.PrepareForDrawing(canvas);
      }
    }

    /** `draw`, as far as the background goes: it is drawn only when its fill is not
        fully transparent, and then it is drawn as it stands. */
    method Draw() returns (drawn: Option<RectParams>)
      requires Valid()
      ensures drawn.Some? ==> background != null && !Eq(background.fillColor.a, Zero) && drawn == Some(background.Params())
      ensures background != null && !Eq(background.fillColor.a, Zero) && background.ReadyToDraw() ==> drawn.Some?
    {
      drawn := None;
      if background != null && !Eq(background.fillColor.a, Zero) {
        drawn := background.Draw();
      }
    }
  }

  /** The loop of `apply_bounds` over the first `n` subviews of the plan: the
      bounds handed to them, in order. */
  method WalkPlan(p: ViewStackPlan, n: nat) returns (placed: seq<Bounds>)
    requires n <= |p.sizes|
    ensures placed == ViewWalk(p, n).1
  {
    var offsetAlpha := p.start;
    placed := [];
    var i := 0;
    while i < n
      invariant 0 <= i <= n
      invariant offsetAlpha == ViewWalk(p, i).0
      invariant placed == ViewWalk(p, i).1
    {
      var subviewBounds;
      subviewBounds, offsetAlpha := PlaceSubviewInStack(p, i, offsetAlpha);
      placed := placed + [subviewBounds];
      i := i + 1;
    }
  }

  /** One visit of the walk in `apply_bounds`: the bounds subview `i` gets when the
      walk reaches it at `offsetAlpha`, and the offset after it and its gap. */
  method PlaceSubviewInStack(p: ViewStackPlan, i: nat, offsetAlpha: Float) returns (subviewBounds: Bounds, next: Float)
    requires i < |p.sizes| && offsetAlpha == ViewWalk(p, i).0
    ensures ViewWalk(p, i + 1) == (next, ViewWalk(p, i).1 + [subviewBounds])
  {
    var remainingSize := SizeOnAxis(p.axis,
                                    Add(Sub(BoundsLengthAlpha(p.bounds, p.axis), offsetAlpha), AlphaMin(p.bounds, p.axis)),
                                    BoundsLengthBeta(p.bounds, p.axis));
    var subviewSize := p.sizes[i].Min(remainingSize);
    var offsetBeta := Add(BetaMin(p.bounds, p.axis),
                          Mul(Half, Sub(BoundsLengthBeta(p.bounds, p.axis), LengthBeta(subviewSize, p.axis))));
    subviewBounds := Bounds(PointOnAxis(p.axis, offsetAlpha, offsetBeta), subviewSize);
    next := offsetAlpha;
    next := Add(next, p.padding);
    next := Add(next, LengthAlpha(subviewSize, p.axis));
  }
}
