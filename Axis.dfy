/** The axis algebra of `src/view/axis.rs`: the layout axis ("alpha") and the cross
    axis ("beta") select components of points, sizes and bounds. The `*_mut`
    accessors, which hand out a reference to one component, are modelled as
    functional updates of that component. */
module Axes {
  import opened Floats
  import opened Rect

  datatype Axis = Horizontal | Vertical
  {
    function Other(): (o: Axis)
      ensures o != this && (o.Horizontal? <==> Vertical?)
    {
      if Horizontal? then Vertical else Horizontal
    }
  }

  // Points

  function PointOnAxis(axis: Axis, alpha: Float, beta: Float): (p: Point)
    ensures PointAlpha(p, axis) == alpha && PointBeta(p, axis) == beta
    ensures axis.Horizontal? ==> p == Point(alpha, beta)
    ensures axis.Vertical? ==> p == Point(beta, alpha)
  {
    match axis
    case Horizontal => Point(alpha, beta)
    case Vertical => Point(beta, alpha)
  }

  function PointAlpha(p: Point, axis: Axis): (r: Float) {
    match axis
    case Horizontal => p.x
    case Vertical => p.y
  }

  function PointBeta(p: Point, axis: Axis): (b: Float)
    ensures b == PointAlpha(p, axis.Other())
  {
    match axis
    case Horizontal => p.y
    case Vertical => p.x
  }

  /** `*p.alpha_mut(axis) = v` */
  function PointWithAlpha(p: Point, axis: Axis, v: Float): (q: Point)
    ensures PointAlpha(q, axis) == v && PointBeta(q, axis) == PointBeta(p, axis)
  {
    match axis
    case Horizontal => p.(x := v)
    case Vertical => p.(y := v)
  }

  /** `*p.beta_mut(axis) = v` */
  function PointWithBeta(p: Point, axis: Axis, v: Float): (q: Point)
    ensures PointBeta(q, axis) == v && PointAlpha(q, axis) == PointAlpha(p, axis)
  {
    match axis
    case Horizontal => p.(y := v)
    case Vertical => p.(x := v)
  }

  /** Every point is rebuilt from its own alpha and beta. */
  lemma PointReassemble(p: Point, axis: Axis)
    ensures PointOnAxis(axis, PointAlpha(p, axis), PointBeta(p, axis)) == p
  {
  }

  // Sizes

  function SizeOnAxis(axis: Axis, lengthAlpha: Float, lengthBeta: Float): (s: RectSize)
    ensures LengthAlpha(s, axis) == lengthAlpha && LengthBeta(s, axis) == lengthBeta
    ensures axis.Horizontal? ==> s == RectSize(lengthAlpha, lengthBeta)
    ensures axis.Vertical? ==> s == RectSize(lengthBeta, lengthAlpha)
  {
    match axis
    case Horizontal => RectSize(lengthAlpha, lengthBeta)
    case Vertical => RectSize(lengthBeta, lengthAlpha)
  }

  function LengthAlpha(s: RectSize, axis: Axis): (r: Float) {
    match axis
    case Horizontal => s.width
    case Vertical => s.height
  }

  function LengthBeta(s: RectSize, axis: Axis): (l: Float)
    ensures l == LengthAlpha(s, axis.Other())
  {
    match axis
    case Horizontal => s.height
    case Vertical => s.width
  }

  /** `*s.length_alpha_mut(axis) = v` */
  function SizeWithLengthAlpha(s: RectSize, axis: Axis, v: Float): (t: RectSize)
    ensures LengthAlpha(t, axis) == v && LengthBeta(t, axis) == LengthBeta(s, axis)
  {
    match axis
    case Horizontal => s.(width := v)
    case Vertical => s.(height := v)
  }

  /** `*s.length_beta_mut(axis) = v` */
  function SizeWithLengthBeta(s: RectSize, axis: Axis, v: Float): (t: RectSize)
    ensures LengthBeta(t, axis) == v && LengthAlpha(t, axis) == LengthAlpha(s, axis)
  {
    match axis
    case Horizontal => s.(height := v)
    case Vertical => s.(width := v)
  }

  /** `RectSize::scaled_on_axis(axis, ka, kb)`, which is not part of this model: taken
      to scale the alpha length by `ka` and the beta length by `kb`. */
  function SizeScaledOnAxis(s: RectSize, axis: Axis, ka: Float, kb: Float): (t: RectSize)
    ensures LengthAlpha(t, axis) == Mul(LengthAlpha(s, axis), ka)
    ensures LengthBeta(t, axis) == Mul(LengthBeta(s, axis), kb)
  {
    SizeOnAxis(axis, Mul(LengthAlpha(s, axis), ka), Mul(LengthBeta(s, axis), kb))
  }

  /** The component-wise minimum commutes with taking the alpha or beta length. */
  lemma SizeMinOnAxis(s: RectSize, t: RectSize, axis: Axis)
    ensures LengthAlpha(s.Min(t), axis) == Floats.Min(LengthAlpha(s, axis), LengthAlpha(t, axis))
    ensures LengthBeta(s.Min(t), axis) == Floats.Min(LengthBeta(s, axis), LengthBeta(t, axis))
  {
  }

  // Bounds

  function AlphaMin(b: Bounds, axis: Axis): (m: Float)
    ensures m == PointAlpha(b.origin, axis)
    ensures axis.Horizontal? ==> m == b.XMin()
    ensures axis.Vertical? ==> m == b.YMin()
  {
    match axis
    case Horizontal => b.XMin()
    case Vertical => b.YMin()
  }

  function BetaMin(b: Bounds, axis: Axis): (m: Float)
    ensures m == PointBeta(b.origin, axis) && m == AlphaMin(b, axis.Other())
  {
    match axis
    case Horizontal => b.YMin()
    case Vertical => b.XMin()
  }

  function BoundsLengthAlpha(b: Bounds, axis: Axis): (l: Float)
    ensures l == LengthAlpha(b.size, axis)
  {
    LengthAlpha(b.size, axis)
  }

  function BoundsLengthBeta(b: Bounds, axis: Axis): (l: Float)
    ensures l == LengthBeta(b.size, axis) && l == BoundsLengthAlpha(b, axis.Other())
  {
    LengthBeta(b.size, axis)
  }

  /** `*b.alpha_min_mut(axis) = v` */
  function BoundsWithAlphaMin(b: Bounds, axis: Axis, v: Float): (c: Bounds)
    ensures c.size == b.size && AlphaMin(c, axis) == v && BetaMin(c, axis) == BetaMin(b, axis)
  {
    b.(origin := PointWithAlpha(b.origin, axis, v))
  }

  /** `*b.beta_min_mut(axis) = v` */
  function BoundsWithBetaMin(b: Bounds, axis: Axis, v: Float): (c: Bounds)
    ensures c.size == b.size && BetaMin(c, axis) == v && AlphaMin(c, axis) == AlphaMin(b, axis)
  {
    b.(origin := PointWithBeta(b.origin, axis, v))
  }

  /** `*b.length_alpha_mut(axis) = v` */
  function BoundsWithLengthAlpha(b: Bounds, axis: Axis, v: Float): (c: Bounds)
    ensures c.origin == b.origin && BoundsLengthAlpha(c, axis) == v
    ensures BoundsLengthBeta(c, axis) == BoundsLengthBeta(b, axis)
  {
    b.(size := SizeWithLengthAlpha(b.size, axis, v))
  }

  /** `*b.length_beta_mut(axis) = v` */
  function BoundsWithLengthBeta(b: Bounds, axis: Axis, v: Float): (c: Bounds)
    ensures c.origin == b.origin && BoundsLengthBeta(c, axis) == v
    ensures BoundsLengthAlpha(c, axis) == BoundsLengthAlpha(b, axis)
  {
    b.(size := SizeWithLengthBeta(b.size, axis, v))
  }
}
