/** The single-subview container of `src/layout/container.rs`. Each of the four
    edges has a padding policy; the container measures its subview once when it is
    built, and its bounds pass computes both paddings of each axis, shrinks the
    subview when the padded size does not fit, and finally clips the subview to the
    container's own far edges. The subview is represented by the size it reported;
    the bounds handed to it are recorded in `placements`. */
module Containers {
  import opened Wrappers
  import opened Floats
  import opened Rect

  datatype ContainerPadding =
    | Fixed(v: Float)
      /** As a ratio of the subview's length on that axis. */
    | RatioOfViewSize(ratio: Float)
      /** Takes what is left of the axis. */
    | Spread

  /** `ContainerPadding::default()` */
  const DefaultPadding: ContainerPadding := Fixed(Zero)

  /** `as_fixed`: the amount of a fixed padding, nothing for the other policies. */
  function AsFixed(p: ContainerPadding): (r: Option<Float>)
    ensures r.Some? <==> p.Fixed?
    ensures r.Some? ==> r.value == p.v
  {
    if p.Fixed? then Some(p.v) else None
  }

  /** One edge evaluated on its own. */
  function EdgePadding(p: ContainerPadding, spreadRatio: Float, viewLength: Float, remaining: Float): (r: Float) {
    match p
    case Fixed(f) => f
    case RatioOfViewSize(r) => Mul(r, viewLength)
    case Spread => Mul(spreadRatio, remaining)
  }

  /** `Container::padding`: the leading and trailing padding of one axis. */
  function Padding(leading: ContainerPadding, trailing: ContainerPadding, spreadRatio: Float,
                   viewLength: Float, remaining: Float): (r: (Float, Float))
  {
    if leading.Spread? && trailing.Spread? then
      (Mul(spreadRatio, remaining), Mul(spreadRatio, remaining))
    else if trailing.Spread? then
      var l := EdgePadding(leading, spreadRatio, viewLength, remaining);
      (l, Sub(remaining, l))
    else if leading.Spread? then
      var t := EdgePadding(trailing, spreadRatio, viewLength, remaining);
      (Sub(remaining, t), t)
    else
      (EdgePadding(leading, spreadRatio, viewLength, remaining), EdgePadding(trailing, spreadRatio, viewLength, remaining))
  }

  /** With no `Spread` edge each edge is evaluated on its own: `Fixed(v)` gives `v`,
      `RatioOfViewSize(r)` gives `r` times the view's length, and neither depends on
      the other edge or on the remaining space. */
  lemma PaddingNoSpread(leading: ContainerPadding, trailing: ContainerPadding, other: ContainerPadding,
                        spreadRatio: Float, viewLength: Float, remaining: Float, remaining': Float)
    requires !leading.Spread? && !trailing.Spread? && !other.Spread?
    ensures var p := Padding(leading, trailing, spreadRatio, viewLength, remaining);
            && p.0 == Padding(leading, other, spreadRatio, viewLength, remaining').0
            && p.1 == Padding(other, trailing, spreadRatio, viewLength, remaining').1
            && (leading.Fixed? ==> p.0 == leading.v)
            && (leading.RatioOfViewSize? ==> p.0 == Mul(leading.ratio, viewLength))
            && (trailing.Fixed? ==> p.1 == trailing.v)
            && (trailing.RatioOfViewSize? ==> p.1 == Mul(trailing.ratio, viewLength))
  {
  }

  /** With `Spread` on exactly one edge, that edge takes what the other edge leaves
      of the remaining space: the two paddings add up to it. */
  lemma PaddingOneSpread(leading: ContainerPadding, trailing: ContainerPadding, spreadRatio: Float,
                         viewLength: Float, remaining: real)
    requires leading.Spread? != trailing.Spread?
    requires var other := if leading.Spread? then trailing else leading;
             EdgePadding(other, spreadRatio, viewLength, Num(remaining)).Num?
    ensures var p := Padding(leading, trailing, spreadRatio, viewLength, Num(remaining));
            p.0.Num? && p.1.Num? && p.0.r + p.1.r == remaining
  {
  }

  /** With `Spread` on both edges, both get the spread ratio of the remaining space.
      The trailing edge therefore gets `(1 - ratio)` of a non-zero remaining space,
      as the type's documentation describes, exactly when the ratio is one half. */
  lemma PaddingBothSpread(spreadRatio: real, viewLength: Float, remaining: real)
    ensures Padding(Spread, Spread, Num(spreadRatio), viewLength, Num(remaining)) ==
              (Num(spreadRatio * remaining), Num(spreadRatio * remaining))
    ensures remaining != 0.0 ==>
              (Padding(Spread, Spread, Num(spreadRatio), viewLength, Num(remaining)).1 == Num((1.0 - spreadRatio) * remaining)
               <==> spreadRatio == 0.5)
  {
    var p := Padding(Spread, Spread, Num(spreadRatio), viewLength, Num(remaining));
    assert p.0 == Num(spreadRatio * remaining) && p.1 == Num(spreadRatio * remaining);
    if remaining != 0.0 && spreadRatio * remaining == (1.0 - spreadRatio) * remaining {
      assert (2.0 * spreadRatio - 1.0) * remaining == 0.0;
    }
  }

  /** What the container knows about its subview and its edges. */
  datatype ContainerConfig = ContainerConfig(
    paddingLeft: ContainerPadding, paddingRight: ContainerPadding,
    paddingTop: ContainerPadding, paddingBottom: ContainerPadding,
    spreadRatioHorizontal: Float, spreadRatioVertical: Float,
    subviewSize: RectSize, overrideSize: Option<RectSize>)
  {
    /** The size the container lays out: the override if there is one. */
    function RequestedSize(): (s: RectSize)
      ensures overrideSize.Some? ==> s == overrideSize.value
      ensures overrideSize.None? ==> s == subviewSize
    {
      overrideSize.UnwrapOr(subviewSize)
    }
  }

  /** The measured length of one axis: the paddings evaluated against an infinite
      remaining space, around the view's length. */
  function PreferredLength(leading: ContainerPadding, trailing: ContainerPadding, spreadRatio: Float,
                           viewLength: Float): (r: Float)
  {
    var p := Padding(leading, trailing, spreadRatio, viewLength, PosInf);
    Add(Add(p.0, viewLength), p.1)
  }

  /** `preferred_size` */
  function PreferredSizeOf(c: ContainerConfig): (s: RectSize)
    ensures s.width == PreferredLength(c.paddingLeft, c.paddingRight, c.spreadRatioHorizontal, c.RequestedSize().width)
    ensures s.height == PreferredLength(c.paddingTop, c.paddingBottom, c.spreadRatioVertical, c.RequestedSize().height)
  {
    var size := c.RequestedSize();
    RectSize(PreferredLength(c.paddingLeft, c.paddingRight, c.spreadRatioHorizontal, size.width),
             PreferredLength(c.paddingTop, c.paddingBottom, c.spreadRatioVertical, size.height))
  }

  /** On an axis with no `Spread` edge and finite paddings, the measured length is
      the plain leading padding plus the view plus the trailing padding. */
  lemma PreferredLengthNoSpread(leading: ContainerPadding, trailing: ContainerPadding, spreadRatio: Float, viewLength: real)
    requires !leading.Spread? && !trailing.Spread?
    requires EdgePadding(leading, spreadRatio, Num(viewLength), PosInf).Num?
    requires EdgePadding(trailing, spreadRatio, Num(viewLength), PosInf).Num?
    ensures var l := EdgePadding(leading, spreadRatio, Num(viewLength), PosInf).r;
            var t := EdgePadding(trailing, spreadRatio, Num(viewLength), PosInf).r;
            PreferredLength(leading, trailing, spreadRatio, Num(viewLength)) == Num(l + viewLength + t)
  {
  }

  /** With `Spread` on exactly one edge of an axis, a finite view and a finite other
      edge, the container asks for an infinite length on that axis. */
  lemma PreferredLengthOneSpread(leading: ContainerPadding, trailing: ContainerPadding, spreadRatio: Float, viewLength: real)
    requires leading.Spread? != trailing.Spread?
    requires var other := if leading.Spread? then trailing else leading;
             EdgePadding(other, spreadRatio, Num(viewLength), PosInf).Num?
    ensures PreferredLength(leading, trailing, spreadRatio, Num(viewLength)) == PosInf
  {
  }

  /** `as_fixed().unwrap_or(0.)` */
  function FixedOrZero(p: ContainerPadding): (f: Float)
    ensures p.Fixed? ==> f == p.v
    ensures !p.Fixed? ==> f == Zero
  {
    AsFixed(p).UnwrapOr(Zero)
  }

  /** What the bounds pass computes along one axis before the final clip. */
  datatype AxisLayout = AxisLayout(length: Float, leading: Float, trailing: Float, shrink: Float, start: Float, scaled: Float)

  /** One axis of `apply_bounds` up to the final clip: the requested length clipped
      to the bounds less the fixed paddings only, both paddings evaluated against
      what that length leaves of the bounds, and the shrink factor of the padded
      length. */
  function LayoutAxis(leading: ContainerPadding, trailing: ContainerPadding, spreadRatio: Float,
                      boundsMin: Float, boundsLength: Float, requested: Float): (a: AxisLayout)
    ensures a.start == Add(boundsMin, a.leading)
    ensures a.scaled == Mul(a.length, a.shrink)
    ensures !a.shrink.NaN? && Le(a.shrink, One)
  {
    var length := FittedLength(leading, trailing, boundsLength, requested);
    var p := AxisPaddings(leading, trailing, spreadRatio, boundsLength, length);
    var shrink := ShrinkFactor(boundsLength, Add(Add(p.0, length), p.1));
    AxisLayout(length, p.0, p.1, shrink, Add(boundsMin, p.0), Mul(length, shrink))
  }

  /** The requested length clipped to the bounds less the fixed paddings only. */
  function FittedLength(leading: ContainerPadding, trailing: ContainerPadding, boundsLength: Float, requested: Float): (r: Float) {
    Min(requested, Max(Sub(Sub(boundsLength, FixedOrZero(leading)), FixedOrZero(trailing)), Zero))
  }

  /** Both paddings, against what the fitted length leaves of the bounds. */
  function AxisPaddings(leading: ContainerPadding, trailing: ContainerPadding, spreadRatio: Float,
                        boundsLength: Float, length: Float): (r: (Float, Float))
  {
    Padding(leading, trailing, spreadRatio, length, Max(Sub(boundsLength, length), Zero))
  }

  /** The final clip of one axis: a subview running past the far edge of the bounds
      is cut back to it (to nothing if it starts beyond it). */
  function ClipLength(boundsMin: Float, boundsLength: Float, start: Float, length: Float): (r: Float) {
    var boundsMax := Add(boundsMin, boundsLength);
    if Lt(boundsMax, Add(start, length)) then Max(Sub(boundsMax, start), Zero) else length
  }

  /** After the clip, the subview ends at or before the far edge of the bounds, or
      where it starts if that is beyond the far edge; a subview that fitted is not
      touched. */
  lemma ClipFits(boundsMin: real, boundsLength: real, start: real, length: real)
    ensures var l := ClipLength(Num(boundsMin), Num(boundsLength), Num(start), Num(length));
            && l.Num?
            && start + l.r <= (if boundsMin + boundsLength > start then boundsMin + boundsLength else start)
            && (start + length <= boundsMin + boundsLength ==> l == Num(length))
  {
  }

  /** `apply_bounds`: the bounds the subview is given. */
  function SubviewBounds(c: ContainerConfig, bounds: Bounds): (r: Bounds)
  {
    var requested := c.RequestedSize();
    var h := LayoutAxis(c.paddingLeft, c.paddingRight, c.spreadRatioHorizontal, bounds.XMin(), bounds.Width(), requested.width);
    var v := LayoutAxis(c.paddingTop, c.paddingBottom, c.spreadRatioVertical, bounds.YMin(), bounds.Height(), requested.height);
    Bounds(Point(h.start, v.start),
           RectSize(ClipLength(bounds.XMin(), bounds.Width(), h.start, h.scaled),
                    ClipLength(bounds.YMin(), bounds.Height(), v.start, v.scaled)))
  }

  /** A subview placed by the container never ends past the container's far edge
      on either axis, unless it already starts past it (then it is empty). */
  lemma SubviewWithinBounds(c: ContainerConfig, bounds: Bounds)
    requires var b := SubviewBounds(c, bounds);
             && bounds.origin.x.Num? && bounds.origin.y.Num? && bounds.size.width.Num? && bounds.size.height.Num?
             && b.origin.x.Num? && b.origin.y.Num?
             && LayoutAxis(c.paddingLeft, c.paddingRight, c.spreadRatioHorizontal, bounds.XMin(), bounds.Width(), c.RequestedSize().width).scaled.Num?
             && LayoutAxis(c.paddingTop, c.paddingBottom, c.spreadRatioVertical, bounds.YMin(), bounds.Height(), c.RequestedSize().height).scaled.Num?
    ensures var b := SubviewBounds(c, bounds);
            && b.XMax().Num? && b.YMax().Num?
            && b.XMax().r <= (if bounds.XMax().r > b.XMin().r then bounds.XMax().r else b.XMin().r)
            && b.YMax().r <= (if bounds.YMax().r > b.YMin().r then bounds.YMax().r else b.YMin().r)
  {
    var requested := c.RequestedSize();
    var h := LayoutAxis(c.paddingLeft, c.paddingRight, c.spreadRatioHorizontal, bounds.XMin(), bounds.Width(), requested.width);
    var v := LayoutAxis(c.paddingTop, c.paddingBottom, c.spreadRatioVertical, bounds.YMin(), bounds.Height(), requested.height);
    ClipFits(bounds.origin.x.r, bounds.size.width.r, h.start.r, h.scaled.r);
    ClipFits(bounds.origin.y.r, bounds.size.height.r, v.start.r, v.scaled.r);
  }

  /** A ratio between 0 and one half of a non-negative slack. */
  lemma GapBounds(ratio: real, slack: real, gap: real)
    requires 0.0 <= ratio <= 0.5 && 0.0 <= slack && gap == ratio * slack
    ensures 0.0 <= gap && gap + gap <= slack
    ensures ratio == 0.5 ==> gap + gap == slack
  {
    ProductNonNegative(ratio, slack);
    ProductNonNegative(0.5 - ratio, slack);
    assert (0.5 - ratio) * slack == 0.5 * slack - gap;
  }

  lemma ProductNonNegative(a: real, b: real)
    requires 0.0 <= a && 0.0 <= b
    ensures 0.0 <= a * b
  {
  }

  lemma SpreadBothFitted(boundsLength: real, requested: real)
    requires 0.0 <= requested <= boundsLength
    ensures FittedLength(Spread, Spread, Num(boundsLength), Num(requested)) == Num(requested)
  {
  }

  lemma SpreadBothPaddings(spreadRatio: real, boundsLength: real, requested: real)
    requires 0.0 <= requested <= boundsLength
    ensures var gap := Num(spreadRatio * (boundsLength - requested));
            AxisPaddings(Spread, Spread, Num(spreadRatio), Num(boundsLength), Num(requested)) == (gap, gap)
  {
    var remaining := Max(Sub(Num(boundsLength), Num(requested)), Zero);
    assert remaining == Num(boundsLength - requested);
    var p := Padding(Spread, Spread, Num(spreadRatio), Num(requested), remaining);
    assert p.0 == Num(spreadRatio * (boundsLength - requested));
    assert p.1 == Num(spreadRatio * (boundsLength - requested));
  }

  lemma SpreadBothUnshrunk(gap: real, boundsLength: real, requested: real)
    requires 0.0 <= gap && 0.0 <= requested && requested + gap + gap <= boundsLength
    ensures ShrinkFactor(Num(boundsLength), Add(Add(Num(gap), Num(requested)), Num(gap))) == One
  {
    var padded := Add(Add(Num(gap), Num(requested)), Num(gap));
    assert padded == Num(gap + requested + gap);
    if gap + requested + gap == 0.0 {
      assert padded == Zero;
    } else {
      assert boundsLength >= gap + requested + gap > 0.0;
    }
  }

  /** The arithmetic behind `SpreadBothPlacement`: the subview keeps its length,
      is not shrunk, and starts one ratio of the slack into the bounds. */
  lemma SpreadBothLayout(spreadRatio: real, boundsMin: real, boundsLength: real, requested: real)
    requires 0.0 <= spreadRatio <= 0.5 && 0.0 <= requested <= boundsLength
    ensures var a := LayoutAxis(Spread, Spread, Num(spreadRatio), Num(boundsMin), Num(boundsLength), Num(requested));
            a.start == Num(boundsMin + spreadRatio * (boundsLength - requested)) && a.scaled == Num(requested)
  {
    var gap := spreadRatio * (boundsLength - requested);
    GapBounds(spreadRatio, boundsLength - requested, gap);
    SpreadBothFitted(boundsLength, requested);
    SpreadBothPaddings(spreadRatio, boundsLength, requested);
    SpreadBothUnshrunk(gap, boundsLength, requested);
    var a := LayoutAxis(Spread, Spread, Num(spreadRatio), Num(boundsMin), Num(boundsLength), Num(requested));
    assert a.length == Num(requested);
    assert a.leading == Num(gap) && a.trailing == Num(gap);
    assert a.shrink == One;
    assert a.scaled == Mul(Num(requested), One);
  }

  /** Both edges of an axis `Spread`, a ratio between 0 and one half, and a subview
      no longer than the bounds: the subview keeps its length and the leading gap is
      the ratio of the slack, so a ratio of one half centres it. */
  lemma SpreadBothPlacement(spreadRatio: real, boundsMin: real, boundsLength: real, requested: real)
    requires 0.0 <= spreadRatio <= 0.5 && 0.0 <= requested <= boundsLength
    ensures var a := LayoutAxis(Spread, Spread, Num(spreadRatio), Num(boundsMin), Num(boundsLength), Num(requested));
            var slack := boundsLength - requested;
            && a.start == Num(boundsMin + spreadRatio * slack)
            && ClipLength(Num(boundsMin), Num(boundsLength), a.start, a.scaled) == Num(requested)
            && (spreadRatio == 0.5 ==>
                  a.start.r - boundsMin == (boundsMin + boundsLength) - (a.start.r + requested))
  {
    var slack := boundsLength - requested;
    var gap := spreadRatio * slack;
    SpreadBothLayout(spreadRatio, boundsMin, boundsLength, requested);
    GapBounds(spreadRatio, slack, gap);
    ClipFits(boundsMin, boundsLength, boundsMin + gap, requested);
  }

  /** The container being laid out. */
  class Container {
    var paddingLeft: ContainerPadding
    var paddingRight: ContainerPadding
    var paddingTop: ContainerPadding
    var paddingBottom: ContainerPadding
    var spreadRatioHorizontal: Float
    var spreadRatioVertical: Float
    /** What the subview reported when the container was built. */
    const subviewSize: RectSize
    var overrideSize: Option<RectSize>
    /** The bounds handed to the subview, in order. */
    var placements: seq<Bounds>

    function Config(): (c: ContainerConfig)
      reads this
      ensures c.subviewSize == subviewSize && c.overrideSize == overrideSize
    {
      ContainerConfig(paddingLeft, paddingRight, paddingTop, paddingBottom,
                      spreadRatioHorizontal, spreadRatioVertical, subviewSize, overrideSize)
    }

    /** `Container::new`: measures the subview once; zero fixed padding on every
        edge, centred spreading, no override. */
    constructor (measured: RectSize)
      ensures subviewSize == measured && overrideSize == None && placements == []
      ensures paddingLeft == Fixed(Zero) && paddingRight == Fixed(Zero)
      ensures paddingTop == Fixed(Zero) && paddingBottom == Fixed(Zero)
      ensures spreadRatioHorizontal == Half && spreadRatioVertical == Half
    {
      subviewSize := measured;
      paddingLeft, paddingRight, paddingTop, paddingBottom := Fixed(Zero), Fixed(Zero), Fixed(Zero), Fixed(Zero);
      spreadRatioHorizontal, spreadRatioVertical := Half, Half;
      overrideSize := None;
      placements := [];
    }

    method SetPaddingLeft(p: ContainerPadding)
      modifies this`paddingLeft
      ensures paddingLeft == p
    {
      paddingLeft := p;
    }

    method SetPaddingRight(p: ContainerPadding)
      modifies this`paddingRight
      ensures paddingRight == p
    {
      paddingRight := p;
    }

    method SetPaddingTop(p: ContainerPadding)
      modifies this`paddingTop
      ensures paddingTop == p
    {
      paddingTop := p;
    }

    method SetPaddingBottom(p: ContainerPadding)
      modifies this`paddingBottom
      ensures paddingBottom == p
    {
      paddingBottom := p;
    }

    /** Sets all four edges. */
    method SetPadding(p: ContainerPadding)
      modifies this`paddingLeft, this`paddingRight, this`paddingTop, this`paddingBottom
      ensures paddingLeft == p && paddingRight == p && paddingTop == p && paddingBottom == p
    {
      SetPaddingLeft(p);
      SetPaddingRight(p);
      SetPaddingTop(p);
      SetPaddingBottom(p);
    }

    method SetSpreadRatioHorizontal(r: Float)
      modifies this`spreadRatioHorizontal
      ensures spreadRatioHorizontal == r
    {
      spreadRatioHorizontal := r;
    }

    method SetSpreadRatioVertical(r: Float)
      modifies this`spreadRatioVertical
      ensures spreadRatioVertical == r
    {
      spreadRatioVertical := r;
    }

    method OverrideSubviewSize(s: Option<RectSize>)
      modifies this`overrideSize
      ensures overrideSize == s
    {
      overrideSize := s;
    }

    /** The size the subview reported, whatever the override. */
    method SubviewSize() returns (s: RectSize)
      ensures s == subviewSize
    {
      s := subviewSize;
    }

    /** `preferred_size` */
    method PreferredSize() returns (s: RectSize)
      ensures s == PreferredSizeOf(Config())
    {
      var size := overrideSize.UnwrapOr(subviewSize);
      var h := Padding(paddingLeft, paddingRight, spreadRatioHorizontal, size.width, PosInf);
      var v := Padding(paddingTop, paddingBottom, spreadRatioVertical, size.height, PosInf);
      s := RectSize(Add(Add(h.0, size.width), h.1), Add(Add(v.0, size.height), v.1));
    }

    /** `apply_bounds`: hands the subview the bounds the container computes for it. */
    method ApplyBounds(bounds: Bounds)
      modifies this`placements
      ensures placements == old(placements) + [SubviewBounds(old(Config()), bounds)]
    {
      var requested := overrideSize.UnwrapOr(subviewSize);
      var h := LayoutAxis(paddingLeft, paddingRight, spreadRatioHorizontal, bounds.XMin(), bounds.Width(), requested.width);
      var v := LayoutAxis(paddingTop, paddingBottom, spreadRatioVertical, bounds.YMin(), bounds.Height(), requested.height);
      var subviewBounds := FromScalars(h.start, v.start, h.scaled, v.scaled);
      var xMax, yMax := bounds.XMax(), bounds.YMax();
      if Lt(xMax, subviewBounds.XMax()) {
        subviewBounds := subviewBounds.(size := subviewBounds.size.(width := Max(Sub(xMax, subviewBounds.XMin()), Zero)));
      }
      if Lt(yMax, subviewBounds.YMax()) {
        subviewBounds := subviewBounds.(size := subviewBounds.size.(height := Max(Sub(yMax, subviewBounds.YMin()), Zero)));
      }
      assert subviewBounds == Bounds(Point(h.start, v.start),
                                     RectSize(ClipLength(bounds.XMin(), bounds.Width(), h.start, h.scaled),
                                              ClipLength(bounds.YMin(), bounds.Height(), v.start, v.scaled)));
      var c := Config();
      assert c.RequestedSize() == requested;
      assert SubviewBounds(c, bounds) == subviewBounds;
      placements := placements + [subviewBounds];
    }
  }
}
