/** Single-precision floating point as the layout code uses it: exact real arithmetic
    extended with the two infinities and NaN. Rounding is not modelled and the two
    zeros are one value (+0). `Min` and `Max` follow Rust's `f32::min`/`f32::max`:
    when exactly one operand is NaN the other one is returned. */
module Floats {

  datatype Float = Num(r: real) | PosInf | NegInf | NaN
  {
    /** `f32::is_finite` */
    predicate IsFinite() { Num? }
  }

  const Zero: Float := Num(0.0)
  const One: Float := Num(1.0)
  const Half: Float := Num(0.5)

  function Neg(a: Float): (r: Float) {
    match a
    case Num(x) => Num(-x)
    case PosInf => NegInf
    case NegInf => PosInf
    case NaN => NaN
  }

  function Add(a: Float, b: Float): (c: Float)
    ensures a.Num? && b.Num? ==> c == Num(a.r + b.r)
    ensures c.NaN? <==> (a.NaN? || b.NaN? || (a.PosInf? && b.NegInf?) || (a.NegInf? && b.PosInf?))
  {
    match (a, b)
    case (NaN, _) => NaN
    case (_, NaN) => NaN
    case (PosInf, NegInf) => NaN
    case (NegInf, PosInf) => NaN
    case (PosInf, _) => PosInf
    case (_, PosInf) => PosInf
    case (NegInf, _) => NegInf
    case (_, NegInf) => NegInf
    case (Num(x), Num(y)) => Num(x + y)
  }

  function Sub(a: Float, b: Float): (r: Float) {
    Add(a, Neg(b))
  }

  function SignedInf(positive: bool): (r: Float) {
    if positive then PosInf else NegInf
  }

  function Mul(a: Float, b: Float): (c: Float)
    ensures a.Num? && b.Num? ==> c == Num(a.r * b.r)
  {
    if a.NaN? || b.NaN? then NaN
    else if a.Num? && b.Num? then Num(a.r * b.r)
    else if a.Num? then (if a.r == 0.0 then NaN else SignedInf((a.r > 0.0) == b.PosInf?))
    else if b.Num? then (if b.r == 0.0 then NaN else SignedInf((b.r > 0.0) == a.PosInf?))
    else SignedInf(a.PosInf? == b.PosInf?)
  }

  function Div(a: Float, b: Float): (c: Float)
    ensures a.Num? && b.Num? && b.r != 0.0 ==> c == Num(a.r / b.r)
  {
    match (a, b)
    case (NaN, _) => NaN
    case (_, NaN) => NaN
    case (Num(x), Num(y)) =>
      if y != 0.0 then Num(x / y)
      else if x == 0.0 then NaN
      else SignedInf(x > 0.0)
    case (Num(_), _) => Zero
    case (_, Num(y)) => SignedInf((y >= 0.0) == a.PosInf?)
    case (_, _) => NaN
  }

  /** IEEE `<`: false whenever NaN is involved. */
  predicate Lt(a: Float, b: Float) {
    match (a, b)
    case (Num(x), Num(y)) => x < y
    case (NegInf, _) => !b.NaN? && !b.NegInf?
    case (_, PosInf) => !a.NaN? && !a.PosInf?
    case (_, _) => false
  }

  /** IEEE `==`: NaN is equal to nothing, itself included. */
  predicate Eq(a: Float, b: Float) {
    !a.NaN? && a == b
  }

  predicate Le(a: Float, b: Float) {
    Lt(a, b) || Eq(a, b)
  }

  /** `f32::min` */
  function Min(a: Float, b: Float): (c: Float)
    ensures a.NaN? ==> c == b
    ensures !a.NaN? && b.NaN? ==> c == a
    ensures !a.NaN? && !b.NaN? ==> Le(c, a) && Le(c, b) && (c == a || c == b)
  {
    if a.NaN? then b
    else if b.NaN? then a
    else if Lt(b, a) then b
    else a
  }

  /** `f32::max` */
  function Max(a: Float, b: Float): (c: Float)
    ensures a.NaN? ==> c == b
    ensures !a.NaN? && b.NaN? ==> c == a
    ensures !a.NaN? && !b.NaN? ==> Le(a, c) && Le(b, c) && (c == a || c == b)
  {
    if a.NaN? then b
    else if b.NaN? then a
    else if Lt(a, b) then b
    else a
  }

  /** `n as f32` for a count. */
  function FromNat(n: nat): (r: Float) {
    Num(n as real)
  }

  /** The clamped ratio `(a / b).min(1.)` that both layout passes use as a shrink
      factor. It is never NaN and never above one; a zero denominator with a
      non-negative numerator gives one, because both `+inf.min(1.)` and
      `NaN.min(1.)` are one. */
  function ShrinkFactor(a: Float, b: Float): (k: Float)
    ensures !k.NaN? && Le(k, One)
    ensures b == Zero && a.Num? && a.r >= 0.0 ==> k == One
    ensures b.PosInf? && a.Num? ==> k == Zero
    ensures a.Num? && b.Num? && a.r >= 0.0 && b.r > 0.0 ==>
              k.Num? && 0.0 <= k.r <= 1.0 && (a.r < b.r ==> k.r == a.r / b.r) && (a.r >= b.r ==> k == One)
  {
    if a.Num? && b.Num? && a.r >= b.r > 0.0 then
      assert a.r / b.r >= 1.0 by { assert a.r / b.r * b.r == a.r; }
      Min(Div(a, b), One)
    else
      Min(Div(a, b), One)
  }
}
