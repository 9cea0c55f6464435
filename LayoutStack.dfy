/** The builder-based stack of `src/layout/stack.rs`: subviews are measured once as
    they are added, three accumulators summarise their sizes, and the bounds pass
    walks them in order, placing each one after an optional gap. A subview is
    represented by the size it reported; the bounds handed to it are recorded as
    `placements`. */
module LayoutStacks {
  import opened Wrappers
  import opened Floats
  import opened Rect
  import opened Axes

  datatype StackPaddingType = Interpadded | Omnipadded

  datatype StackAlignmentHorizontal = Center | Left | Right | Ratio(r: Float)

  datatype StackAlignmentVertical = Center | Top | Bottom | Ratio(r: Float)

  /** The axis-generic alignment the stack stores. */
  datatype StackAlignment = Center | Leading | Trailing | Ratio(r: Float)

  /** `StackAlignment::ratio`: where in the leftover space the content sits. */
  function AlignmentRatio(a: StackAlignment): (k: Float)
    ensures a.Ratio? ==> k == a.r
  {
    match a
    case Center => Half
    case Leading => Zero
    case Trailing => One
    case Ratio(r) => r
  }

  function FromHorizontal(h: StackAlignmentHorizontal): (r: StackAlignment) {
    match h
    case Center => StackAlignment.Center
    case Left => Leading
    case Right => Trailing
    case Ratio(r) => StackAlignment.Ratio(r)
  }

  function FromVertical(v: StackAlignmentVertical): (r: StackAlignment) {
    match v
    case Center => StackAlignment.Center
    case Top => Leading
    case Bottom => Trailing
    case Ratio(r) => StackAlignment.Ratio(r)
  }

  function ToHorizontal(a: StackAlignment): (r: StackAlignmentHorizontal) {
    match a
    case Center => StackAlignmentHorizontal.Center
    case Leading => Left
    case Trailing => Right
    case Ratio(r) => StackAlignmentHorizontal.Ratio(r)
  }

  function ToVertical(a: StackAlignment): (r: StackAlignmentVertical) {
    match a
    case Center => StackAlignmentVertical.Center
    case Leading => Top
    case Trailing => Bottom
    case Ratio(r) => StackAlignmentVertical.Ratio(r)
  }

  /** The four `From` conversions are two pairs of mutually inverse bijections. */
  lemma AlignmentConversionsRoundTrip(h: StackAlignmentHorizontal, v: StackAlignmentVertical, a: StackAlignment)
    ensures ToHorizontal(FromHorizontal(h)) == h && FromHorizontal(ToHorizontal(a)) == a
    ensures ToVertical(FromVertical(v)) == v && FromVertical(ToVertical(a)) == a
  {
  }

  /** Left and top sit at the leading edge (ratio 0), right and bottom at the
      trailing edge (ratio 1), centre halfway. */
  lemma AlignmentRatios()
    ensures AlignmentRatio(FromHorizontal(StackAlignmentHorizontal.Center)) == Half
    ensures AlignmentRatio(FromVertical(StackAlignmentVertical.Center)) == Half
    ensures AlignmentRatio(FromHorizontal(Left)) == Zero && AlignmentRatio(FromVertical(Top)) == Zero
    ensures AlignmentRatio(FromHorizontal(Right)) == One && AlignmentRatio(FromVertical(Bottom)) == One
  {
  }

  /** `Stack::n_paddings`: gaps only between subviews (saturating at zero), or also
      before the first and after the last. */
  function NPaddings(n: nat, t: StackPaddingType): (r: nat) {
    match t
    case Interpadded => if n == 0 then 0 else n - 1
    case Omnipadded => n + 1
  }

  /** Whether the walk adds a gap before subview `i`. */
  predicate GapBefore(t: StackPaddingType, i: nat) {
    i != 0 || t == Omnipadded
  }

  /** The number of subviews of `[0, n)` preceded by a gap. */
  function GapsWalked(t: StackPaddingType, n: nat): (r: nat) {
    if n == 0 then 0 else GapsWalked(t, n - 1) + (if GapBefore(t, n - 1) then 1 else 0)
  }

  /** The gaps the walk adds, plus one trailing gap for `Omnipadded`, are the gaps
      `n_paddings` counts; so a stack that adds a gap always has at least one. */
  lemma {:induction false} GapsWalkedCount(t: StackPaddingType, n: nat)
    ensures GapsWalked(t, n) + (if t == Omnipadded && n > 0 then 1 else 0) == NPaddings(n, t) - (if t == Omnipadded && n == 0 then 1 else 0)
    ensures n > 0 && GapBefore(t, n - 1) ==> NPaddings(n, t) >= 1
  {
    if n > 0 {
      GapsWalkedCount(t, n - 1);
    }
  }

  // The three accumulators, as functions of the sizes added so far.

  function AlphaSum(sizes: seq<RectSize>, axis: Axis): (r: Float) {
    if sizes == [] then Zero
    else Add(AlphaSum(sizes[..|sizes| - 1], axis), LengthAlpha(sizes[|sizes| - 1], axis))
  }

  function BetaMax(sizes: seq<RectSize>, axis: Axis): (r: Float) {
    if sizes == [] then Zero
    else Max(BetaMax(sizes[..|sizes| - 1], axis), LengthBeta(sizes[|sizes| - 1], axis))
  }

  function BetaMaxFinite(sizes: seq<RectSize>, axis: Axis): (r: Float) {
    if sizes == [] then Zero
    else if LengthBeta(sizes[|sizes| - 1], axis).Num?
    then Max(BetaMaxFinite(sizes[..|sizes| - 1], axis), LengthBeta(sizes[|sizes| - 1], axis))
    else BetaMaxFinite(sizes[..|sizes| - 1], axis)
  }

  /** The real sum of the alpha lengths. A non-finite length adds nothing; the
      lemmas that use the sum require every length finite, where by
      `AlphaSumFinite` it is the float sum. */
  function RealAlphaSum(sizes: seq<RectSize>, axis: Axis): (r: real) {
    if sizes == [] then 0.0
    else
      var a := LengthAlpha(sizes[|sizes| - 1], axis);
      RealAlphaSum(sizes[..|sizes| - 1], axis) + (if a.Num? then a.r else 0.0)
  }

  lemma {:induction false} AlphaSumFinite(sizes: seq<RectSize>, axis: Axis)
    requires forall i | 0 <= i < |sizes| :: LengthAlpha(sizes[i], axis).Num?
    ensures AlphaSum(sizes, axis) == Num(RealAlphaSum(sizes, axis))
  {
    if sizes != [] {
      AlphaSumFinite(sizes[..|sizes| - 1], axis);
    }
  }

  /** The finite maximum is finite, non-negative, at least every finite beta, and
      either zero or one of them. */
  lemma {:induction false} BetaMaxFiniteBounds(sizes: seq<RectSize>, axis: Axis)
    ensures BetaMaxFinite(sizes, axis).Num? && BetaMaxFinite(sizes, axis).r >= 0.0
    ensures forall i | 0 <= i < |sizes| && LengthBeta(sizes[i], axis).Num? ::
              LengthBeta(sizes[i], axis).r <= BetaMaxFinite(sizes, axis).r
    ensures BetaMaxFinite(sizes, axis) == Zero ||
            exists i | 0 <= i < |sizes| :: LengthBeta(sizes[i], axis) == BetaMaxFinite(sizes, axis)
  {
    if sizes != [] {
      var init := sizes[..|sizes| - 1];
      BetaMaxFiniteBounds(init, axis);
      assert forall i | 0 <= i < |init| :: init[i] == sizes[i];
      if BetaMaxFinite(sizes, axis) != Zero && BetaMaxFinite(sizes, axis) != BetaMaxFinite(init, axis) {
        assert LengthBeta(sizes[|sizes| - 1], axis) == BetaMaxFinite(sizes, axis);
      }
    }
  }

  /** With no NaN beta the maximum bounds every beta from above. */
  lemma {:induction false} BetaMaxBounds(sizes: seq<RectSize>, axis: Axis)
    requires forall i | 0 <= i < |sizes| :: !LengthBeta(sizes[i], axis).NaN?
    ensures !BetaMax(sizes, axis).NaN?
    ensures forall i | 0 <= i < |sizes| :: Le(LengthBeta(sizes[i], axis), BetaMax(sizes, axis))
  {
    if sizes != [] {
      var init := sizes[..|sizes| - 1];
      assert forall i | 0 <= i < |init| :: init[i] == sizes[i];
      BetaMaxBounds(init, axis);
    }
  }

  /** What `apply_bounds` derives from the stack and its bounds before the walk. */
  datatype StackPlan = StackPlan(
    axis: Axis, bounds: Bounds, sizes: seq<RectSize>, paddingType: StackPaddingType,
    shrinkA: Float, shrinkB: Float, leading: Float, gap: Float, ratioB: Float)

  /** `alpha_sum + n_paddings * fixed_padding.unwrap_or(0)`, for `n` subviews. */
  function MinAlpha(n: nat, alphaSum: Float, t: StackPaddingType, fixedPadding: Option<Float>): (r: Float) {
    Add(alphaSum, Mul(FromNat(NPaddings(n, t)), fixedPadding.UnwrapOr(Zero)))
  }

  /** The prelude of `apply_bounds`, from the stack's configuration and accumulators. */
  function Plan(axis: Axis, alignmentAlpha: StackAlignment, alignmentBeta: StackAlignment, t: StackPaddingType,
                fixedPadding: Option<Float>, shrinkTogether: bool, sizes: seq<RectSize>,
                alphaSum: Float, betaMaxFinite: Float, bounds: Bounds)
    : (p: StackPlan)
    ensures p.axis == axis && p.bounds == bounds && p.sizes == sizes && p.paddingType == t
    ensures p.ratioB == AlignmentRatio(alignmentBeta)
  {
    var nPaddings := FromNat(NPaddings(|sizes|, t));
    var minAlpha := MinAlpha(|sizes|, alphaSum, t, fixedPadding);
    var leftover := Max(Sub(BoundsLengthAlpha(bounds, axis), minAlpha), Zero);
    var shrinkA := ShrinkFactor(BoundsLengthAlpha(bounds, axis), minAlpha);
    var shrinkB := if shrinkTogether then ShrinkFactor(BoundsLengthBeta(bounds, axis), betaMaxFinite) else One;
    var leading := if fixedPadding.None? then Zero else Mul(AlignmentRatio(alignmentAlpha), leftover);
    var gap := if fixedPadding.Some? then Mul(fixedPadding.value, shrinkA) else Div(leftover, nPaddings);
    StackPlan(axis, bounds, sizes, t, shrinkA, shrinkB, leading, gap, AlignmentRatio(alignmentBeta))
  }

  /** Where subview `i` starts on the alpha axis, relative to the stack's origin,
      when the walk reaches it at `offset`. */
  function SubviewStart(p: StackPlan, i: nat, offset: Float): (r: Float) {
    if GapBefore(p.paddingType, i) then Add(offset, p.gap) else offset
  }

  /** The scaled preferred size, clipped to what is left of the bounds. */
  function PlacedSize(p: StackPlan, i: nat, start: Float): (r: RectSize)
    requires i < |p.sizes|
  {
    var requested := SizeScaledOnAxis(p.sizes[i], p.axis, p.shrinkA, p.shrinkB);
    var remaining := SizeOnAxis(p.axis, Sub(BoundsLengthAlpha(p.bounds, p.axis), start), BoundsLengthBeta(p.bounds, p.axis));
    requested.Min(remaining)
  }

  /** The bounds handed to subview `i` starting at `start`. */
  function PlacedBounds(p: StackPlan, i: nat, start: Float): (r: Bounds)
    requires i < |p.sizes|
  {
    var size := PlacedSize(p, i, start);
    var offsetB := Mul(p.ratioB, Sub(BoundsLengthBeta(p.bounds, p.axis), LengthBeta(size, p.axis)));
    Bounds(Translate(p.bounds.origin, PointOnAxis(p.axis, start, offsetB)), size)
  }

  datatype Placement = Placement(index: nat, bounds: Bounds)

  /** The walk over subviews `[0, k)`: the alpha offset reached and the placements made. */
  function Walk(p: StackPlan, k: nat): (Float, seq<Placement>)
    requires k <= |p.sizes|
  {
    if k == 0 then (p.leading, [])
    else
      var before := Walk(p, k - 1);
      var start := SubviewStart(p, k - 1, before.0);
      var b := PlacedBounds(p, k - 1, start);
      (Add(start, LengthAlpha(b.size, p.axis)), before.1 + [Placement(k - 1, b)])
  }

  /** A walk step with known numbers: subview `i`, started at `x` and placed at `b`
      of alpha length `w`, takes the walk to `x + w`, and the next subview starts
      one gap `g` further on. */
  lemma WalkStepNum(p: StackPlan, i: nat, x: real, w: real, g: real, b: Bounds)
    requires i < |p.sizes| && p.paddingType == Interpadded && p.gap == Num(g)
    requires StartOf(p, i) == Num(x) && PlacedBounds(p, i, Num(x)) == b && LengthAlpha(b.size, p.axis) == Num(w)
    ensures Walk(p, i + 1) == (Num(x + w), Walk(p, i).1 + [Placement(i, b)])
    ensures i + 1 < |p.sizes| ==> StartOf(p, i + 1) == Num(x + w + g)
  {
  }

  /** Where the walk starts subview `i`. */
  function StartOf(p: StackPlan, i: nat): (r: Float)
    requires i < |p.sizes|
  {
    SubviewStart(p, i, Walk(p, i).0)
  }

  /** The walk places every subview once, in order, at the bounds computed from
      where the walk reached it. */
  lemma {:induction false} WalkPlacements(p: StackPlan, k: nat)
    requires k <= |p.sizes|
    ensures |Walk(p, k).1| == k
    ensures forall i | 0 <= i < k :: Walk(p, k).1[i] == Placement(i, PlacedBounds(p, i, StartOf(p, i)))
  {
    if k > 0 {
      WalkPlacements(p, k - 1);
    }
  }

  /** A placed subview never exceeds the stack's beta length, and, where its start
      and the stack's alpha length are finite, it ends at or before the stack's
      alpha end; its beta offset is `ratio_b * (bounds.beta - placed.beta)`. */
  lemma PlacementFits(p: StackPlan, i: nat, start: Float)
    requires i < |p.sizes|
    ensures var b := PlacedBounds(p, i, start);
            && (!BoundsLengthBeta(p.bounds, p.axis).NaN? ==> Le(LengthBeta(b.size, p.axis), BoundsLengthBeta(p.bounds, p.axis)))
            && (start.Num? && BoundsLengthAlpha(p.bounds, p.axis).Num? ==>
                  Le(Add(start, LengthAlpha(b.size, p.axis)), BoundsLengthAlpha(p.bounds, p.axis)))
            && b.origin == Translate(p.bounds.origin, PointOnAxis(p.axis, start,
                  Mul(p.ratioB, Sub(BoundsLengthBeta(p.bounds, p.axis), LengthBeta(b.size, p.axis)))))
  {
    var requested := SizeScaledOnAxis(p.sizes[i], p.axis, p.shrinkA, p.shrinkB);
    var remaining := SizeOnAxis(p.axis, Sub(BoundsLengthAlpha(p.bounds, p.axis), start), BoundsLengthBeta(p.bounds, p.axis));
    SizeMinOnAxis(requested, remaining, p.axis);
  }

  /** Partial sums of non-negative lengths grow with the prefix. */
  lemma {:induction false} RealAlphaSumPrefix(sizes: seq<RectSize>, axis: Axis, j: nat)
    requires j <= |sizes|
    requires forall i | 0 <= i < |sizes| :: LengthAlpha(sizes[i], axis).Num? && LengthAlpha(sizes[i], axis).r >= 0.0
    ensures RealAlphaSum(sizes[..j], axis) <= RealAlphaSum(sizes, axis)
  {
    if j < |sizes| {
      var init := sizes[..|sizes| - 1];
      assert init[..j] == sizes[..j];
      RealAlphaSumPrefix(init, axis, j);
    } else {
      assert sizes[..j] == sizes;
    }
  }

  /** The total length of the gaps before the first `k` subviews, each `g` long. */
  function GapLength(t: StackPaddingType, k: nat, g: real): (r: real) {
    if k == 0 then 0.0 else GapLength(t, k - 1, g) + (if GapBefore(t, k - 1) then g else 0.0)
  }

  lemma {:induction false} GapLengthMonotone(t: StackPaddingType, g: real, j: nat, n: nat)
    requires j <= n && g >= 0.0
    ensures GapLength(t, j, g) <= GapLength(t, n, g)
  {
    if j < n {
      GapLengthMonotone(t, g, j, n - 1);
    }
  }

  lemma {:induction false} GapLengthCount(t: StackPaddingType, g: real, k: nat)
    ensures GapLength(t, k, g) == GapsWalked(t, k) as real * g
  {
    if k > 0 {
      GapLengthCount(t, g, k - 1);
      var x := GapsWalked(t, k - 1) as real;
      var prev := GapLength(t, k - 1, g);
      assert prev == x * g;
      if GapBefore(t, k - 1) {
        calc {
          GapLength(t, k, g);
          prev + g;
          (x + 1.0) * g;
          GapsWalked(t, k) as real * g;
        }
      } else {
        calc {
          GapLength(t, k, g);
          prev;
          GapsWalked(t, k) as real * g;
        }
      }
    }
  }

  /** A subview that nothing shrinks along the axis, started at `s` with room for
      its alpha length, is placed with exactly that length. */
  lemma PlacedAlphaUnclipped(p: StackPlan, i: nat, s: real)
    requires i < |p.sizes| && p.shrinkA == One
    requires LengthAlpha(p.sizes[i], p.axis).Num? && BoundsLengthAlpha(p.bounds, p.axis).Num?
    requires s + LengthAlpha(p.sizes[i], p.axis).r <= BoundsLengthAlpha(p.bounds, p.axis).r
    ensures LengthAlpha(PlacedBounds(p, i, Num(s)).size, p.axis) == LengthAlpha(p.sizes[i], p.axis)
  {
    var len := BoundsLengthAlpha(p.bounds, p.axis);
    var requested := SizeScaledOnAxis(p.sizes[i], p.axis, p.shrinkA, p.shrinkB);
    var remaining := SizeOnAxis(p.axis, Sub(len, Num(s)), BoundsLengthBeta(p.bounds, p.axis));
    assert LengthAlpha(requested, p.axis) == LengthAlpha(p.sizes[i], p.axis);
    assert LengthAlpha(remaining, p.axis) == Num(len.r - s);
    SizeMinOnAxis(requested, remaining, p.axis);
  }

  /** Where the walk starts subview `i`, having reached `y`. */
  lemma StartOfNum(p: StackPlan, i: nat, y: real, g: real)
    requires i < |p.sizes| && Walk(p, i).0 == Num(y) && p.gap == Num(g)
    ensures StartOf(p, i) == Num(y + (if GapBefore(p.paddingType, i) then g else 0.0))
  {
  }

  /** A walk step with room to spare: the walk past subview `i`, having reached
      `y`, adds the gap before it (if any) and its full alpha length. */
  lemma WalkStepUnclipped(p: StackPlan, i: nat, y: real, g: real)
    requires i < |p.sizes| && p.shrinkA == One && p.gap == Num(g) && Walk(p, i).0 == Num(y)
    requires LengthAlpha(p.sizes[i], p.axis).Num? && BoundsLengthAlpha(p.bounds, p.axis).Num?
    requires var x := y + (if GapBefore(p.paddingType, i) then g else 0.0);
             x + LengthAlpha(p.sizes[i], p.axis).r <= BoundsLengthAlpha(p.bounds, p.axis).r
    ensures var x := y + (if GapBefore(p.paddingType, i) then g else 0.0);
            Walk(p, i + 1).0 == Num(x + LengthAlpha(p.sizes[i], p.axis).r)
  {
    var x := y + (if GapBefore(p.paddingType, i) then g else 0.0);
    StartOfNum(p, i, y, g);
    PlacedAlphaUnclipped(p, i, x);
  }

  /** The room left for subview `k - 1` of a stack whose lengths and gaps fit:
      started after the leading padding, the alpha lengths before it and the gaps
      up to it, it still ends inside the stack, at the sum that includes it. */
  lemma UnclippedRoom(p: StackPlan, l0: real, g: real, k: nat)
    requires 0 < k <= |p.sizes| && g >= 0.0
    requires forall i | 0 <= i < |p.sizes| :: LengthAlpha(p.sizes[i], p.axis).Num? && LengthAlpha(p.sizes[i], p.axis).r >= 0.0
    requires BoundsLengthAlpha(p.bounds, p.axis).Num?
    requires l0 + RealAlphaSum(p.sizes, p.axis) + GapLength(p.paddingType, |p.sizes|, g) <= BoundsLengthAlpha(p.bounds, p.axis).r
    ensures var x := l0 + RealAlphaSum(p.sizes[..k - 1], p.axis) + GapLength(p.paddingType, k, g);
            var a := LengthAlpha(p.sizes[k - 1], p.axis).r;
            && x + a <= BoundsLengthAlpha(p.bounds, p.axis).r
            && x + a == l0 + RealAlphaSum(p.sizes[..k], p.axis) + GapLength(p.paddingType, k, g)
  {
    var pre := p.sizes[..k];
    assert pre[..k - 1] == p.sizes[..k - 1];
    RealAlphaSumPrefix(p.sizes, p.axis, k);
    GapLengthMonotone(p.paddingType, g, k, |p.sizes|);
  }

  /** When nothing has to shrink along the axis and everything fits, no subview is
      clipped: the walk reaches subview `k` after the leading padding, the first `k`
      alpha lengths and the gaps walked so far. */
  lemma {:induction false} WalkUnclipped(p: StackPlan, l0: real, g: real, k: nat)
    requires k <= |p.sizes|
    requires p.leading == Num(l0) && p.gap == Num(g) && g >= 0.0 && p.shrinkA == One
    requires forall i | 0 <= i < |p.sizes| :: LengthAlpha(p.sizes[i], p.axis).Num? && LengthAlpha(p.sizes[i], p.axis).r >= 0.0
    requires BoundsLengthAlpha(p.bounds, p.axis).Num?
    requires l0 + RealAlphaSum(p.sizes, p.axis) + GapLength(p.paddingType, |p.sizes|, g) <= BoundsLengthAlpha(p.bounds, p.axis).r
    ensures Walk(p, k).0 == Num(l0 + RealAlphaSum(p.sizes[..k], p.axis) + GapLength(p.paddingType, k, g))
  {
    if k > 0 {
      WalkUnclipped(p, l0, g, k - 1);
      UnclippedRoom(p, l0, g, k);
      WalkStepUnclipped(p, k - 1, l0 + RealAlphaSum(p.sizes[..k - 1], p.axis) + GapLength(p.paddingType, k - 1, g), g);
    }
  }

  /** Splitting `space` evenly between the gaps of `n` interpadded subviews adds up
      to `space`. */
  lemma AutoGapTotal(n: nat, space: real)
    requires n >= 2 && space >= 0.0
    ensures var gaps: nat := n - 1; space / gaps as real >= 0.0 && GapLength(Interpadded, n, space / gaps as real) == space
  {
    var gaps: nat := n - 1;
    var g := space / gaps as real;
    GapsWalkedCount(Interpadded, n);
    GapLengthCount(Interpadded, g, n);
    assert gaps as real * g == space;
  }

  /** Without a fixed padding and with room for the subviews, nothing shrinks along
      the axis, nothing goes before the first subview, and the leftover is shared
      equally between the gaps. */
  lemma PlanAutoFits(axis: Axis, alignmentAlpha: StackAlignment, alignmentBeta: StackAlignment, t: StackPaddingType,
                     shrinkTogether: bool, sizes: seq<RectSize>, sum: real, betaMaxFinite: Float, bounds: Bounds)
    requires NPaddings(|sizes|, t) > 0 && sum >= 0.0
    requires BoundsLengthAlpha(bounds, axis).Num? && sum <= BoundsLengthAlpha(bounds, axis).r
    ensures var p := Plan(axis, alignmentAlpha, alignmentBeta, t, None, shrinkTogether, sizes, Num(sum), betaMaxFinite, bounds);
            var leftover := BoundsLengthAlpha(bounds, axis).r - sum;
            && p.shrinkA == One && p.leading == Zero && p.gap == Num(leftover / NPaddings(|sizes|, t) as real)
  {
    assert MinAlpha(|sizes|, Num(sum), t, None) == Num(sum);
  }

  /** Without a fixed padding, an `Interpadded` stack of two or more subviews whose
      lengths fit divides the leftover space equally between the gaps, so the last
      subview ends exactly at the far edge of the bounds. */
  lemma AutoPaddingFills(axis: Axis, alignmentAlpha: StackAlignment, alignmentBeta: StackAlignment,
                         shrinkTogether: bool, sizes: seq<RectSize>, betaMaxFinite: Float, bounds: Bounds)
    requires |sizes| >= 2
    requires forall i | 0 <= i < |sizes| :: LengthAlpha(sizes[i], axis).Num? && LengthAlpha(sizes[i], axis).r >= 0.0
    requires BoundsLengthAlpha(bounds, axis).Num? && RealAlphaSum(sizes, axis) <= BoundsLengthAlpha(bounds, axis).r
    ensures var p := Plan(axis, alignmentAlpha, alignmentBeta, Interpadded, None, shrinkTogether, sizes,
                          AlphaSum(sizes, axis), betaMaxFinite, bounds);
            Walk(p, |sizes|).0 == BoundsLengthAlpha(bounds, axis)
  {
    var n := |sizes|;
    var len := BoundsLengthAlpha(bounds, axis).r;
    var sum := RealAlphaSum(sizes, axis);
    AlphaSumFinite(sizes, axis);
    RealAlphaSumPrefix(sizes, axis, 0);
    PlanAutoFits(axis, alignmentAlpha, alignmentBeta, Interpadded, shrinkTogether, sizes, sum, betaMaxFinite, bounds);
    var p := Plan(axis, alignmentAlpha, alignmentBeta, Interpadded, None, shrinkTogether, sizes, Num(sum), betaMaxFinite, bounds);
    var g := (len - sum) / (n - 1) as real;
    AutoGapTotal(n, len - sum);
    WalkUnclipped(p, 0.0, g, n);
    assert sizes[..n] == sizes;
  }

  /** The subviews of the worked examples: 50, 80 and 30 wide, 20 high. */
  const ExampleSizes: seq<RectSize> :=
    [RectSize(Num(50.0), Num(20.0)), RectSize(Num(80.0), Num(20.0)), RectSize(Num(30.0), Num(20.0))]

  /** The example subviews add up to 160 along the axis; each is 20 high. */
  lemma ExampleSums()
    ensures AlphaSum(ExampleSizes, Horizontal) == Num(160.0)
    ensures BetaMaxFinite(ExampleSizes, Horizontal) == Num(20.0)
  {
    var s := ExampleSizes;
    assert s[..2] == [s[0], s[1]] && s[..2][..1] == [s[0]] && [s[0]][..0] == [];
    assert AlphaSum([s[0]], Horizontal) == Num(50.0);
    assert AlphaSum(s[..2], Horizontal) == Num(130.0);
    assert BetaMaxFinite([s[0]], Horizontal) == Num(20.0);
    assert BetaMaxFinite(s[..2], Horizontal) == Num(20.0);
  }

  /** A horizontal stack of the example subviews with a fixed padding of 10, in an
      area `width` by 20 at the origin; by `ExampleSums` its accumulators are those
      of a stack that was given the example subviews. */
  function ExamplePlan(alignmentAlpha: StackAlignment, width: real): (r: StackPlan) {
    Plan(Horizontal, alignmentAlpha, StackAlignment.Center, Interpadded, Some(Num(10.0)), false, ExampleSizes,
         Num(160.0), Num(20.0), Bounds(Point(Zero, Zero), RectSize(Num(width), Num(20.0))))
  }

  /** In a horizontal stack at the origin whose subviews all have the stack's height,
      subview `i` started at `x`, if its scaled size fits, is placed at `(x, 0)`
      with that size. */
  lemma PlacedAt(p: StackPlan, i: nat, x: real, size: RectSize)
    requires i < |p.sizes| && p.axis == Horizontal && p.bounds.origin == Point(Zero, Zero) && p.ratioB.Num?
    requires SizeScaledOnAxis(p.sizes[i], Horizontal, p.shrinkA, p.shrinkB) == size
    requires size.width.Num? && size.height.Num? && p.bounds.size.height == size.height
    requires p.bounds.size.width.Num? && x >= 0.0 && x + size.width.r <= p.bounds.size.width.r
    ensures PlacedBounds(p, i, Num(x)) == Bounds(Point(Num(x), Zero), size)
  {
    PlacedUnclipped(p, i, Num(x));
    assert Mul(p.ratioB, Sub(size.height, size.height)) == Zero;
  }

  /** Scaling the example subviews by `k` along the axis. */
  lemma ExampleShrinks(p: StackPlan, k: real)
    requires p.axis == Horizontal && p.sizes == ExampleSizes && p.shrinkA == Num(k) && p.shrinkB == One
    ensures SizeScaledOnAxis(p.sizes[0], Horizontal, p.shrinkA, p.shrinkB) == RectSize(Num(50.0 * k), Num(20.0))
    ensures SizeScaledOnAxis(p.sizes[1], Horizontal, p.shrinkA, p.shrinkB) == RectSize(Num(80.0 * k), Num(20.0))
    ensures SizeScaledOnAxis(p.sizes[2], Horizontal, p.shrinkA, p.shrinkB) == RectSize(Num(30.0 * k), Num(20.0))
  {
  }

  /** A three-subview interpadded walk in which each subview is placed, along a
      horizontal axis, one gap after the end of the previous one. */
  lemma ThreeWalk(p: StackPlan, x0: real, g: real, b0: Bounds, b1: Bounds, b2: Bounds)
    requires |p.sizes| == 3 && p.axis == Horizontal && p.paddingType == Interpadded && p.gap == Num(g) && p.leading == Num(x0)
    requires b1.origin.x.Num? && b2.origin.x.Num? && b0.size.width.Num? && b1.size.width.Num? && b2.size.width.Num?
    requires b0.origin.x == Num(x0) && PlacedBounds(p, 0, Num(x0)) == b0
    requires b1.origin.x.r == x0 + b0.size.width.r + g && PlacedBounds(p, 1, b1.origin.x) == b1
    requires b2.origin.x.r == b1.origin.x.r + b1.size.width.r + g && PlacedBounds(p, 2, b2.origin.x) == b2
    ensures Walk(p, 3) == (Num(b2.origin.x.r + b2.size.width.r), [Placement(0, b0), Placement(1, b1), Placement(2, b2)])
  {
    assert Walk(p, 0) == (Num(x0), []);
    WalkStepNum(p, 0, x0, b0.size.width.r, g, b0);
    assert Walk(p, 1).1 == [Placement(0, b0)];
    WalkStepNum(p, 1, b1.origin.x.r, b1.size.width.r, g, b1);
    assert Walk(p, 2).1 == [Placement(0, b0), Placement(1, b1)];
    WalkStepNum(p, 2, b2.origin.x.r, b2.size.width.r, g, b2);
    assert Walk(p, 3).1 == [Placement(0, b0), Placement(1, b1)] + [Placement(2, b2)];
    assert Walk(p, 3).0 == Num(b2.origin.x.r + b2.size.width.r);
    assert Walk(p, 3).1 == [Placement(0, b0), Placement(1, b1), Placement(2, b2)];
  }

  /** `MinAlpha` over finite numbers is the real sum of the lengths and paddings. */
  lemma MinAlphaNum(n: nat, sum: real, t: StackPaddingType, f: real)
    ensures MinAlpha(n, Num(sum), t, Some(Num(f))) == Num(sum + NPaddings(n, t) as real * f)
  {
  }

  /** The plan for a fixed padding, in terms of the float operations of the prelude. */
  lemma FixedPlanFields(axis: Axis, alignmentAlpha: StackAlignment, alignmentBeta: StackAlignment, t: StackPaddingType,
                        f: Float, sizes: seq<RectSize>, alphaSum: Float, betaMaxFinite: Float, bounds: Bounds)
    ensures var p := Plan(axis, alignmentAlpha, alignmentBeta, t, Some(f), false, sizes, alphaSum, betaMaxFinite, bounds);
            var len := BoundsLengthAlpha(bounds, axis);
            var minAlpha := MinAlpha(|sizes|, alphaSum, t, Some(f));
            && p.shrinkA == ShrinkFactor(len, minAlpha) && p.shrinkB == One
            && p.gap == Mul(f, ShrinkFactor(len, minAlpha))
            && p.leading == Mul(AlignmentRatio(alignmentAlpha), Max(Sub(len, minAlpha), Zero))
  {
  }

  /** With a fixed padding `f` and room for the subviews and their paddings
      (`minAlpha`, the real sum `MinAlphaNum` gives), nothing shrinks along the
      axis, every gap is `f`, and the alignment ratio decides how much of the
      leftover goes before the first subview. */
  lemma PlanFixedFits(axis: Axis, alignmentAlpha: StackAlignment, alignmentBeta: StackAlignment, t: StackPaddingType,
                      f: real, sizes: seq<RectSize>, sum: real, minAlpha: real, betaMaxFinite: Float, bounds: Bounds)
    requires MinAlpha(|sizes|, Num(sum), t, Some(Num(f))) == Num(minAlpha)
    requires BoundsLengthAlpha(bounds, axis).Num? && 0.0 < minAlpha <= BoundsLengthAlpha(bounds, axis).r
    ensures var p := Plan(axis, alignmentAlpha, alignmentBeta, t, Some(Num(f)), false, sizes, Num(sum), betaMaxFinite, bounds);
            && p.shrinkA == One && p.shrinkB == One && p.gap == Num(f)
            && p.leading == Mul(AlignmentRatio(alignmentAlpha), Num(BoundsLengthAlpha(bounds, axis).r - minAlpha))
  {
    var len := BoundsLengthAlpha(bounds, axis).r;
    FixedPlanFields(axis, alignmentAlpha, alignmentBeta, t, Num(f), sizes, Num(sum), betaMaxFinite, bounds);
    assert ShrinkFactor(Num(len), Num(minAlpha)) == One;
    assert Max(Sub(Num(len), Num(minAlpha)), Zero) == Num(len - minAlpha);
  }

  /** With a fixed padding `f` and too little room for the `minAlpha` the subviews
      and their paddings ask for, everything along the axis, the paddings included,
      shrinks by the ratio of the room to `minAlpha`, and nothing is left over to
      align. */
  lemma PlanFixedShrinks(axis: Axis, alignmentAlpha: StackAlignment, alignmentBeta: StackAlignment, t: StackPaddingType,
                         f: real, sizes: seq<RectSize>, sum: real, minAlpha: real, betaMaxFinite: Float, bounds: Bounds)
    requires MinAlpha(|sizes|, Num(sum), t, Some(Num(f))) == Num(minAlpha)
    requires BoundsLengthAlpha(bounds, axis).Num? && 0.0 <= BoundsLengthAlpha(bounds, axis).r < minAlpha
    requires AlignmentRatio(alignmentAlpha).Num?
    ensures var p := Plan(axis, alignmentAlpha, alignmentBeta, t, Some(Num(f)), false, sizes, Num(sum), betaMaxFinite, bounds);
            var k := BoundsLengthAlpha(bounds, axis).r / minAlpha;
            && p.shrinkA == Num(k) && p.shrinkB == One && p.gap == Mul(Num(f), Num(k)) && p.leading == Zero
  {
    var len := BoundsLengthAlpha(bounds, axis).r;
    FixedPlanFields(axis, alignmentAlpha, alignmentBeta, t, Num(f), sizes, Num(sum), betaMaxFinite, bounds);
    assert ShrinkFactor(Num(len), Num(minAlpha)) == Num(len / minAlpha);
    assert Max(Sub(Num(len), Num(minAlpha)), Zero) == Zero;
  }

  /** The plan in a 500-wide area: nothing shrinks, the gaps are 10 and the 320
      left over is split by the alignment ratio. */
  lemma WidePlan(alignment: StackAlignment)
    requires alignment == Leading || alignment == StackAlignment.Center
    ensures var p := ExamplePlan(alignment, 500.0);
            && p.shrinkA == One && p.shrinkB == One && p.gap == Num(10.0) && p.ratioB == Half
            && p.leading == Num(AlignmentRatio(alignment).r * 320.0)
  {
    assert |ExampleSizes| == 3 && NPaddings(3, Interpadded) as real * 10.0 == 20.0;
    MinAlphaNum(3, 160.0, Interpadded, 10.0);
    PlanFixedFits(Horizontal, alignment, StackAlignment.Center, Interpadded, 10.0, ExampleSizes, 160.0, 180.0,
                  Num(20.0), Bounds(Point(Zero, Zero), RectSize(Num(500.0), Num(20.0))));
  }

  /** The plan in a 100-wide area: the axis shrinks by 100/180, the gaps with it,
      and nothing is left over. */
  lemma NarrowPlan()
    ensures var p := ExamplePlan(StackAlignment.Center, 100.0);
            && p.shrinkA == Num(100.0 / 180.0) && p.shrinkB == One && p.gap == Num(50.0 / 9.0) && p.ratioB == Half
            && p.leading == Zero
  {
    assert |ExampleSizes| == 3 && NPaddings(3, Interpadded) as real * 10.0 == 20.0;
    MinAlphaNum(3, 160.0, Interpadded, 10.0);
    PlanFixedShrinks(Horizontal, StackAlignment.Center, StackAlignment.Center, Interpadded, 10.0, ExampleSizes, 160.0, 180.0,
                     Num(20.0), Bounds(Point(Zero, Zero), RectSize(Num(100.0), Num(20.0))));
  }

  /** A plan of the example subviews scaled by `k` along the axis, with gaps of
      `10 k`, after a leading padding `l0`, in an area `w` by 20 at the origin that
      is at least as wide as all that. */
  predicate ExamplePlanned(p: StackPlan, l0: real, k: real, w: real) {
    && p.axis == Horizontal && p.sizes == ExampleSizes && p.bounds == Bounds(Point(Zero, Zero), RectSize(Num(w), Num(20.0)))
    && p.shrinkA == Num(k) && p.shrinkB == One && p.ratioB.Num? && p.paddingType == Interpadded
    && p.leading == Num(l0) && p.gap == Num(10.0 * k) && l0 >= 0.0 && k >= 0.0 && l0 + 180.0 * k <= w
  }

  /** The bounds each example subview gets when the walk reaches it. */
  lemma ExamplePlacements(p: StackPlan, l0: real, k: real, w: real)
    requires ExamplePlanned(p, l0, k, w)
    ensures PlacedBounds(p, 0, Num(l0)) == Bounds(Point(Num(l0), Zero), RectSize(Num(50.0 * k), Num(20.0)))
    ensures PlacedBounds(p, 1, Num(l0 + 60.0 * k)) == Bounds(Point(Num(l0 + 60.0 * k), Zero), RectSize(Num(80.0 * k), Num(20.0)))
    ensures PlacedBounds(p, 2, Num(l0 + 150.0 * k)) == Bounds(Point(Num(l0 + 150.0 * k), Zero), RectSize(Num(30.0 * k), Num(20.0)))
  {
    ExampleShrinks(p, k);
    PlacedAt(p, 0, l0, RectSize(Num(50.0 * k), Num(20.0)));
    PlacedAt(p, 1, l0 + 60.0 * k, RectSize(Num(80.0 * k), Num(20.0)));
    PlacedAt(p, 2, l0 + 150.0 * k, RectSize(Num(30.0 * k), Num(20.0)));
  }

  /** The walk of such a plan: each subview starts one gap after the previous one
      ends, and the last one ends `180 k` after the leading padding. */
  lemma ExampleWalk(p: StackPlan, l0: real, k: real, w: real)
    requires ExamplePlanned(p, l0, k, w)
    ensures Walk(p, 3) ==
              (Num(l0 + 180.0 * k),
               [Placement(0, Bounds(Point(Num(l0), Zero), RectSize(Num(50.0 * k), Num(20.0)))),
                Placement(1, Bounds(Point(Num(l0 + 60.0 * k), Zero), RectSize(Num(80.0 * k), Num(20.0)))),
                Placement(2, Bounds(Point(Num(l0 + 150.0 * k), Zero), RectSize(Num(30.0 * k), Num(20.0))))])
  {
    var b0 := Bounds(Point(Num(l0), Zero), RectSize(Num(50.0 * k), Num(20.0)));
    var b1 := Bounds(Point(Num(l0 + 60.0 * k), Zero), RectSize(Num(80.0 * k), Num(20.0)));
    var b2 := Bounds(Point(Num(l0 + 150.0 * k), Zero), RectSize(Num(30.0 * k), Num(20.0)));
    ExamplePlacements(p, l0, k, w);
    assert |p.sizes| == 3;
    assert Walk(p, 0) == (Num(l0), []);
    WalkStepNum(p, 0, l0, 50.0 * k, 10.0 * k, b0);
    assert l0 + 50.0 * k + 10.0 * k == l0 + 60.0 * k;
    WalkStepNum(p, 1, l0 + 60.0 * k, 80.0 * k, 10.0 * k, b1);
    assert l0 + 60.0 * k + 80.0 * k + 10.0 * k == l0 + 150.0 * k;
    WalkStepNum(p, 2, l0 + 150.0 * k, 30.0 * k, 10.0 * k, b2);
    assert l0 + 150.0 * k + 30.0 * k == l0 + 180.0 * k;
    var w1, w2, w3 := Walk(p, 1).1, Walk(p, 2).1, Walk(p, 3).1;
    assert w1 == [Placement(0, b0)];
    assert w2 == w1 + [Placement(1, b1)];
    assert w3 == w2 + [Placement(2, b2)];
    assert w3 == [Placement(0, b0), Placement(1, b1), Placement(2, b2)];
    var r := Walk(p, 3);
    assert r.0 == Num(l0 + 180.0 * k);
    assert r == (r.0, r.1);
  }

  /** A walk of the example subviews at their own sizes, 10 apart after `l`. */
  lemma UnshrunkWalk(p: StackPlan, l: real)
    requires ExamplePlanned(p, l, 1.0, 500.0)
    ensures Walk(p, 3).1 ==
              [Placement(0, Bounds(Point(Num(l), Zero), RectSize(Num(50.0), Num(20.0)))),
               Placement(1, Bounds(Point(Num(l + 60.0), Zero), RectSize(Num(80.0), Num(20.0)))),
               Placement(2, Bounds(Point(Num(l + 150.0), Zero), RectSize(Num(30.0), Num(20.0))))]
  {
    ExampleWalk(p, l, 1.0, 500.0);
    var ws := Walk(p, 3).1;
    assert 50.0 * 1.0 == 50.0 && 80.0 * 1.0 == 80.0 && 30.0 * 1.0 == 30.0;
    assert l + 60.0 * 1.0 == l + 60.0 && l + 150.0 * 1.0 == l + 150.0;
    assert |ws| == 3;
    assert ws == [ws[0], ws[1], ws[2]];
  }

  /** In a 500-wide area the subviews keep their sizes and sit 10 apart, after the
      share of the 320 left over that the alignment puts before them: 0 for leading
      alignment, so that they start at 0, 60 and 150. */
  lemma WideExample(alignment: StackAlignment, p: StackPlan, l: real)
    requires alignment == Leading || alignment == StackAlignment.Center
    requires p == ExamplePlan(alignment, 500.0) && AlignmentRatio(alignment) == Num(l / 320.0)
    ensures Walk(p, 3).1 ==
              [Placement(0, Bounds(Point(Num(l), Zero), RectSize(Num(50.0), Num(20.0)))),
               Placement(1, Bounds(Point(Num(l + 60.0), Zero), RectSize(Num(80.0), Num(20.0)))),
               Placement(2, Bounds(Point(Num(l + 150.0), Zero), RectSize(Num(30.0), Num(20.0))))]
  {
    WidePlanned(alignment);
    assert l == AlignmentRatio(alignment).r * 320.0;
    UnshrunkWalk(p, l);
  }

  /** With leading or centre alignment the 500-wide plan is an unshrunk example plan. */
  lemma WidePlanned(alignment: StackAlignment)
    requires alignment == Leading || alignment == StackAlignment.Center
    ensures ExamplePlanned(ExamplePlan(alignment, 500.0), AlignmentRatio(alignment).r * 320.0, 1.0, 500.0)
  {
    var p := ExamplePlan(alignment, 500.0);
    WidePlan(alignment);
    assert p.shrinkA == Num(1.0) && p.gap == Num(10.0 * 1.0);
  }

  /** The default centre alignment shifts them by half of the 320 left over, to 160,
      220 and 310. */
  lemma CentreExample(p: StackPlan)
    requires p == ExamplePlan(StackAlignment.Center, 500.0)
    ensures Walk(p, 3).1 ==
              [Placement(0, Bounds(Point(Num(160.0), Zero), RectSize(Num(50.0), Num(20.0)))),
               Placement(1, Bounds(Point(Num(220.0), Zero), RectSize(Num(80.0), Num(20.0)))),
               Placement(2, Bounds(Point(Num(310.0), Zero), RectSize(Num(30.0), Num(20.0))))]
  {
    WideExample(StackAlignment.Center, p, 160.0);
  }

  /** In an area only 100 wide everything along the axis, the padding included,
      shrinks by 100/180, and the subviews fill the width exactly. */
  lemma ShrinkExample(p: StackPlan)
    requires p == ExamplePlan(StackAlignment.Center, 100.0)
    ensures p.shrinkA == Num(100.0 / 180.0)
    ensures Walk(p, 3) ==
              (Num(100.0),
               [Placement(0, Bounds(Point(Num(0.0), Zero), RectSize(Num(250.0 / 9.0), Num(20.0)))),
                Placement(1, Bounds(Point(Num(300.0 / 9.0), Zero), RectSize(Num(400.0 / 9.0), Num(20.0)))),
                Placement(2, Bounds(Point(Num(750.0 / 9.0), Zero), RectSize(Num(150.0 / 9.0), Num(20.0))))])
  {
    NarrowPlanned(p);
    NarrowWalk(p, 100.0 / 180.0);
  }

  /** The 100-wide plan is an example plan shrunk by 100/180, with no leading padding. */
  lemma NarrowPlanned(p: StackPlan)
    requires p == ExamplePlan(StackAlignment.Center, 100.0)
    ensures p.shrinkA == Num(100.0 / 180.0) && ExamplePlanned(p, 0.0, 100.0 / 180.0, 100.0)
  {
    var k := 100.0 / 180.0;
    NarrowPlan();
    assert 180.0 * k == 100.0 && 10.0 * k == 50.0 / 9.0;
  }

  /** The walk of an example plan shrunk by 100/180 in a 100-wide area. */
  lemma NarrowWalk(p: StackPlan, k: real)
    requires k == 100.0 / 180.0 && ExamplePlanned(p, 0.0, k, 100.0)
    ensures Walk(p, 3) ==
              (Num(100.0),
               [Placement(0, Bounds(Point(Num(0.0), Zero), RectSize(Num(250.0 / 9.0), Num(20.0)))),
                Placement(1, Bounds(Point(Num(300.0 / 9.0), Zero), RectSize(Num(400.0 / 9.0), Num(20.0)))),
                Placement(2, Bounds(Point(Num(750.0 / 9.0), Zero), RectSize(Num(150.0 / 9.0), Num(20.0))))])
  {
    ExampleWalk(p, 0.0, k, 100.0);
    assert 0.0 + 60.0 * k == 300.0 / 9.0 && 0.0 + 150.0 * k == 750.0 / 9.0 && 0.0 + 180.0 * k == 100.0;
    assert 50.0 * k == 250.0 / 9.0 && 80.0 * k == 400.0 / 9.0 && 30.0 * k == 150.0 / 9.0;
  }

  /** A subview whose scaled size fits in what is left of the bounds gets exactly
      its scaled size. */
  lemma PlacedUnclipped(p: StackPlan, i: nat, start: Float)
    requires i < |p.sizes|
    requires var requested := SizeScaledOnAxis(p.sizes[i], p.axis, p.shrinkA, p.shrinkB);
             && LengthAlpha(requested, p.axis).Num? && LengthBeta(requested, p.axis).Num? && start.Num?
             && BoundsLengthAlpha(p.bounds, p.axis).Num? && BoundsLengthBeta(p.bounds, p.axis).Num?
             && LengthAlpha(requested, p.axis).r <= BoundsLengthAlpha(p.bounds, p.axis).r - start.r
             && LengthBeta(requested, p.axis).r <= BoundsLengthBeta(p.bounds, p.axis).r
    ensures PlacedSize(p, i, start) == SizeScaledOnAxis(p.sizes[i], p.axis, p.shrinkA, p.shrinkB)
  {
    var requested := SizeScaledOnAxis(p.sizes[i], p.axis, p.shrinkA, p.shrinkB);
    var len := BoundsLengthAlpha(p.bounds, p.axis);
    var remaining := SizeOnAxis(p.axis, Sub(len, start), BoundsLengthBeta(p.bounds, p.axis));
    assert LengthAlpha(remaining, p.axis) == Num(len.r - start.r);
    SizeMinOnAxis(requested, remaining, p.axis);
    assert LengthAlpha(requested.Min(remaining), p.axis) == LengthAlpha(requested, p.axis);
    assert LengthBeta(requested.Min(remaining), p.axis) == LengthBeta(requested, p.axis);
    match p.axis
    case Horizontal =>
    case Vertical =>
  }

  /** The stack being built. */
  class Stack {
    const axis: Axis
    var alignmentAlpha: StackAlignment
    var alignmentBeta: StackAlignment
    var paddingType: StackPaddingType
    var fixedPadding: Option<Float>
    var shrinkTogether: bool
    /** The preferred sizes of the subviews, in the order they were added. */
    var subviews: seq<RectSize>
    var alphaSum: Float
    var betaMax: Float
    var betaMaxFinite: Float
    /** The bounds handed to subviews, in order. */
    var placements: seq<Placement>

    /** The accumulators summarise the subviews added so far. */
    ghost predicate Valid()
      reads this
    {
      && alphaSum == AlphaSum(subviews, axis)
      && betaMax == BetaMax(subviews, axis)
      && betaMaxFinite == BetaMaxFinite(subviews, axis)
    }

    /** `Stack::new`: centred on both axes, gaps only between subviews, computed
        (not fixed) padding, independent shrinking, no subviews. */
    constructor (axis: Axis)
      ensures Valid()
      ensures this.axis == axis && alignmentAlpha == StackAlignment.Center && alignmentBeta == StackAlignment.Center
      ensures paddingType == Interpadded && fixedPadding == None && !shrinkTogether
      ensures subviews == [] && placements == []
    {
      this.axis := axis;
      alignmentAlpha := StackAlignment.Center;
      alignmentBeta := StackAlignment.Center;
      paddingType := Interpadded;
      fixedPadding := None;
      shrinkTogether := false;
      subviews := [];
      alphaSum := Zero;
      betaMax := Zero;
      betaMaxFinite := Zero;
      placements := [];
    }

    /** `Stack::subview`: records the size the subview reports and folds it into
        the three accumulators. */
    method Subview(size: RectSize)
      requires Valid()
      modifies this`subviews, this`alphaSum, this`betaMax, this`betaMaxFinite
      ensures Valid() && subviews == old(subviews) + [size]
    {
      alphaSum := Add(alphaSum, LengthAlpha(size, axis));
      var beta := LengthBeta(size, axis);
      betaMax := Max(betaMax, beta);
      if beta.IsFinite() {
        betaMaxFinite := Max(betaMaxFinite, beta);
      }
      subviews := subviews + [size];
      assert subviews[..|subviews| - 1] == old(subviews);
    }

    /** `preferred_size`: the subviews' alpha lengths plus one fixed padding per
        gap along the axis, and the largest beta length across it. */
    method PreferredSize() returns (s: RectSize)
      requires Valid()
      ensures LengthAlpha(s, axis) == MinAlpha(|subviews|, AlphaSum(subviews, axis), paddingType, fixedPadding)
      ensures LengthBeta(s, axis) == BetaMax(subviews, axis)
    {
      var nPaddings := FromNat(NPaddings(|subviews|, paddingType));
      s := SizeOnAxis(axis, Add(alphaSum, Mul(nPaddings, fixedPadding.UnwrapOr(Zero))), betaMax);
    }

    /** The plan `apply_bounds` follows for `bounds`. */
    ghost function CurrentPlan(bounds: Bounds): (p: StackPlan)
      reads this
      requires Valid()
      ensures p == Plan(axis, alignmentAlpha, alignmentBeta, paddingType, fixedPadding, shrinkTogether, subviews,
                        AlphaSum(subviews, axis), BetaMaxFinite(subviews, axis), bounds)
    {
      Plan(axis, alignmentAlpha, alignmentBeta, paddingType, fixedPadding, shrinkTogether, subviews,
           alphaSum, betaMaxFinite, bounds)
    }

    /** `apply_bounds`: hands every subview, in order, the bounds the walk computes. */
    method ApplyBounds(bounds: Bounds)
      requires Valid()
      modifies this`placements
      ensures placements == old(placements) + Walk(CurrentPlan(bounds), |subviews|).1
    {
      var p := Plan(axis, alignmentAlpha, alignmentBeta, paddingType, fixedPadding, shrinkTogether, subviews,
                    alphaSum, betaMaxFinite, bounds);
      var placed := WalkStack(p);
      placements := placements + placed;
    }
  }

  /** The loop of `apply_bounds` over a plan: every subview, in order, gets the
      bounds the walk computes for it. */
  method WalkStack(p: StackPlan) returns (placed: seq<Placement>)
    ensures placed == Walk(p, |p.sizes|).1
  {
    // Accumulator for the alpha offset while the subviews are walked.
    var offsetA := p.leading;
    var i := 0;
    placed := [];
    while i < |p.sizes|
      invariant 0 <= i <= |p.sizes|
      invariant offsetA == Walk(p, i).0
      invariant placed == Walk(p, i).1
    {
      var subviewBounds;
      subviewBounds, offsetA := PlaceSubview(p, i, offsetA);
      placed := placed + [Placement(i, subviewBounds)];
      i := i + 1;
    }
  }

  /** One iteration of the loop in `apply_bounds`: the bounds subview `i` gets when
      the walk reaches it at `offsetA`, and the offset after it. */
  method PlaceSubview(p: StackPlan, i: nat, offsetA: Float) returns (subviewBounds: Bounds, next: Float)
    requires i < |p.sizes| && offsetA == Walk(p, i).0
    ensures Walk(p, i + 1) == (next, Walk(p, i).1 + [Placement(i, subviewBounds)])
  {
    var axis, bounds := p.axis, p.bounds;
    var lengthAlpha, lengthBeta := BoundsLengthAlpha(bounds, axis), BoundsLengthBeta(bounds, axis);
    var start := offsetA;
    if i != 0 || p.paddingType == Omnipadded {
      start := Add(start, p.gap);
    }
    var requestedSize := SizeScaledOnAxis(p.sizes[i], axis, p.shrinkA, p.shrinkB);
    var remainingSize := SizeOnAxis(axis, Sub(lengthAlpha, start), lengthBeta);
    var subviewSize := requestedSize.Min(remainingSize);
    var leftoverBeta := Sub(lengthBeta, LengthBeta(subviewSize, axis));
    var offsetB := Mul(p.ratioB, leftoverBeta);
    subviewBounds := Bounds(Translate(bounds.origin, PointOnAxis(axis, start, offsetB)), subviewSize);
    next := Add(start, LengthAlpha(subviewSize, axis));
  }

  /** `StackBuilder`: configures a stack before it is laid out. */
  class StackBuilder {
    const stack: Stack

    constructor (axis: Axis)
      ensures fresh(stack) && stack.Valid() && stack.axis == axis
      ensures stack.alignmentAlpha == StackAlignment.Center && stack.alignmentBeta == StackAlignment.Center
      ensures stack.paddingType == Interpadded && stack.fixedPadding == None && !stack.shrinkTogether
      ensures stack.subviews == [] && stack.placements == []
    {
      stack := new Stack(axis);
    }

    method Subview(size: RectSize)
      requires stack.Valid()
      modifies stack`subviews, stack`alphaSum, stack`betaMax, stack`betaMaxFinite
      ensures stack.Valid() && stack.subviews == old(stack.subviews) + [size]
    {
      stack.Subview(size);
    }

    /** Vertical alignment is cross-axis for a horizontal stack and along the axis
        for a vertical one. */
    method SetAlignmentVertical(alignment: StackAlignmentVertical)
      modifies stack`alignmentAlpha, stack`alignmentBeta
      ensures stack.axis.Horizontal? ==> stack.alignmentBeta == FromVertical(alignment) && stack.alignmentAlpha == old(stack.alignmentAlpha)
      ensures stack.axis.Vertical? ==> stack.alignmentAlpha == FromVertical(alignment) && stack.alignmentBeta == old(stack.alignmentBeta)
    {
      match stack.axis
      case Horizontal => stack.alignmentBeta := FromVertical(alignment);
      case Vertical => stack.alignmentAlpha := FromVertical(alignment);
    }

    /** Horizontal alignment is along the axis for a horizontal stack and
        cross-axis for a vertical one. */
    method SetAlignmentHorizontal(alignment: StackAlignmentHorizontal)
      modifies stack`alignmentAlpha, stack`alignmentBeta
      ensures stack.axis.Horizontal? ==> stack.alignmentAlpha == FromHorizontal(alignment) && stack.alignmentBeta == old(stack.alignmentBeta)
      ensures stack.axis.Vertical? ==> stack.alignmentBeta == FromHorizontal(alignment) && stack.alignmentAlpha == old(stack.alignmentAlpha)
    {
      match stack.axis
      case Horizontal => stack.alignmentAlpha := FromHorizontal(alignment);
      case Vertical => stack.alignmentBeta := FromHorizontal(alignment);
    }

    method SetPaddingType(t: StackPaddingType)
      modifies stack`paddingType
      ensures stack.paddingType == t
    {
      stack.paddingType := t;
    }

    method SetFixedPadding(fixedPadding: Option<Float>)
      modifies stack`fixedPadding
      ensures stack.fixedPadding == fixedPadding
    {
      stack.fixedPadding := fixedPadding;
    }

    method SetShrinkTogether(shrinkTogether: bool)
      modifies stack`shrinkTogether
      ensures stack.shrinkTogether == shrinkTogether
    {
      stack.shrinkTogether := shrinkTogether;
    }

    method Finish() returns (s: Stack)
      ensures s == stack
    {
      s := stack;
    }
  }
}
