/** Fitting corner radii to a rectangle (src/geometry/rounding_radii.cc). */
module CornerRadii {
  import opened Geometry
  import opened Reals

  datatype RoundingRadii = RoundingRadii(topLeft: Size, topRight: Size, bottomLeft: Size, bottomRight: Size) {
    predicate AreAllCornersEmpty() {
      topLeft.IsEmpty() && topRight.IsEmpty() && bottomLeft.IsEmpty() && bottomRight.IsEmpty()
    }

    function Times(scale: real): RoundingRadii {
      RoundingRadii(Size(topLeft.width * scale, topLeft.height * scale),
                    Size(topRight.width * scale, topRight.height * scale),
                    Size(bottomLeft.width * scale, bottomLeft.height * scale),
                    Size(bottomRight.width * scale, bottomRight.height * scale))
    }

    /** Flat and negative corners become sharp ones. */
    function Normalized(): RoundingRadii {
      RoundingRadii(OrZero(topLeft), OrZero(topRight), OrZero(bottomLeft), OrZero(bottomRight))
    }

    predicate NonNegative() {
      && topLeft.width >= 0.0 && topLeft.height >= 0.0 && topRight.width >= 0.0 && topRight.height >= 0.0
      && bottomLeft.width >= 0.0 && bottomLeft.height >= 0.0 && bottomRight.width >= 0.0 && bottomRight.height >= 0.0
    }

    // The two radii of each edge together.
    function Top(): real { topLeft.width + topRight.width }
    function Bottom(): real { bottomLeft.width + bottomRight.width }
    function Left(): real { topLeft.height + bottomLeft.height }
    function Right(): real { topRight.height + bottomRight.height }

    predicate Fits(size: Size) {
      Top() <= size.width && Bottom() <= size.width && Left() <= size.height && Right() <= size.height
    }

    predicate MeetsAnEdge(size: Size) {
      Top() == size.width || Bottom() == size.width || Left() == size.height || Right() == size.height
    }
  }

  const NO_RADII := RoundingRadii(Size(0.0, 0.0), Size(0.0, 0.0), Size(0.0, 0.0), Size(0.0, 0.0))

  function OrZero(s: Size): Size { if s.IsEmpty() then Size(0.0, 0.0) else s }

  function Adjusted(sum: real, dimension: real, scale: real): real
    requires dimension > 0.0
  {
    if sum > dimension then Min(scale, dimension / sum) else scale
  }

  /** The one factor for all corners. */
  function Factor(n: RoundingRadii, size: Size): real
    requires !size.IsEmpty()
  {
    var top := Adjusted(n.Top(), size.width, 1.0);
    var bottom := Adjusted(n.Bottom(), size.width, top);
    var left := Adjusted(n.Left(), size.height, bottom);
    Adjusted(n.Right(), size.height, left)
  }

  function Scaled(radii: RoundingRadii, bounds: Rect): RoundingRadii {
    if bounds.GetPositive().IsEmpty() || radii.AreAllCornersEmpty() then NO_RADII
    else
      var n := radii.Normalized();
      var f := Factor(n, bounds.GetPositive().GetSize());
      if f < 1.0 then n.Times(f) else n
  }

  // ----- One edge

  /** One edge, shrunk by f. */
  ghost predicate EdgeFits(f: real, sum: real, dimension: real) { f * sum <= dimension }

  ghost predicate EdgeMet(f: real, sum: real, dimension: real) { f * sum == dimension }

  lemma AdjustedIs(sum: real, dimension: real, scale: real)
    requires sum >= 0.0 && dimension > 0.0 && 0.0 < scale <= 1.0
    ensures var f := Adjusted(sum, dimension, scale);
      && 0.0 < f <= scale && EdgeFits(f, sum, dimension)
      && (f < scale ==> EdgeMet(f, sum, dimension))
  {
    if sum > dimension {
      var q := dimension / sum;
      assert q * sum == dimension;
      if scale <= q { Product(q - scale, sum); assert (q - scale) * sum == q * sum - scale * sum; }
    } else {
      Product(1.0 - scale, sum);
      assert (1.0 - scale) * sum == sum - scale * sum;
    }
  }

  lemma SmallerFits(f: real, g: real, sum: real, dimension: real)
    requires f <= g && sum >= 0.0 && EdgeFits(g, sum, dimension)
    ensures EdgeFits(f, sum, dimension)
  {
    Product(g - f, sum);
    assert (g - f) * sum == g * sum - f * sum;
  }

  lemma LargerDoesNotFit(f: real, g: real, sum: real, dimension: real)
    requires f < g && sum >= 0.0 && dimension > 0.0 && EdgeMet(f, sum, dimension)
    ensures !EdgeFits(g, sum, dimension)
  {
    assert sum != 0.0;
    assert (g - f) * sum > 0.0;
    assert (g - f) * sum == g * sum - f * sum;
  }

  // ----- All edges

  ghost predicate FactorFits(f: real, n: RoundingRadii, size: Size) {
    && EdgeFits(f, n.Top(), size.width) && EdgeFits(f, n.Bottom(), size.width)
    && EdgeFits(f, n.Left(), size.height) && EdgeFits(f, n.Right(), size.height)
  }

  ghost predicate FactorMeets(f: real, n: RoundingRadii, size: Size) {
    || EdgeMet(f, n.Top(), size.width) || EdgeMet(f, n.Bottom(), size.width)
    || EdgeMet(f, n.Left(), size.height) || EdgeMet(f, n.Right(), size.height)
  }

  lemma NormalizedIsNonNegative(r: RoundingRadii)
    ensures r.Normalized().NonNegative()
  {
  }

  lemma EdgesNonNegative(n: RoundingRadii)
    requires n.NonNegative()
    ensures n.Top() >= 0.0 && n.Bottom() >= 0.0 && n.Left() >= 0.0 && n.Right() >= 0.0
  {
  }

  lemma FactorIs(n: RoundingRadii, size: Size)
    requires n.NonNegative() && !size.IsEmpty()
    ensures var f := Factor(n, size);
      0.0 < f <= 1.0 && FactorFits(f, n, size) && (f < 1.0 ==> FactorMeets(f, n, size))
  {
    hide Adjusted, EdgeFits, EdgeMet, RoundingRadii.Top, RoundingRadii.Bottom, RoundingRadii.Left, RoundingRadii.Right;
    EdgesNonNegative(n);
    var a := Adjusted(n.Top(), size.width, 1.0);
    AdjustedIs(n.Top(), size.width, 1.0);
    var b := Adjusted(n.Bottom(), size.width, a);
    AdjustedIs(n.Bottom(), size.width, a);
    var c := Adjusted(n.Left(), size.height, b);
    AdjustedIs(n.Left(), size.height, b);
    var d := Adjusted(n.Right(), size.height, c);
    AdjustedIs(n.Right(), size.height, c);
    SmallerFits(d, a, n.Top(), size.width);
    SmallerFits(d, b, n.Bottom(), size.width);
    SmallerFits(d, c, n.Left(), size.height);
  }

  lemma TimesEdges(n: RoundingRadii, f: real, size: Size)
    ensures n.Times(f).Fits(size) <==> FactorFits(f, n, size)
    ensures n.Times(f).MeetsAnEdge(size) <==> FactorMeets(f, n, size)
  {
    assert n.Times(f).Top() == f * n.Top() && n.Times(f).Bottom() == f * n.Bottom();
    assert n.Times(f).Left() == f * n.Left() && n.Times(f).Right() == f * n.Right();
  }

  lemma TimesOne(n: RoundingRadii)
    ensures n.Times(1.0) == n
  {
  }

  lemma NothingLarger(n: RoundingRadii, f: real, g: real, size: Size)
    requires n.NonNegative() && !size.IsEmpty() && f < g && FactorMeets(f, n, size)
    ensures !FactorFits(g, n, size)
  {
    hide EdgeFits, EdgeMet;
    if EdgeMet(f, n.Top(), size.width) { LargerDoesNotFit(f, g, n.Top(), size.width); }
    else if EdgeMet(f, n.Bottom(), size.width) { LargerDoesNotFit(f, g, n.Bottom(), size.width); }
    else if EdgeMet(f, n.Left(), size.height) { LargerDoesNotFit(f, g, n.Left(), size.height); }
    else { LargerDoesNotFit(f, g, n.Right(), size.height); }
  }

  /** Every edge fits its two radii; all corners shrink by one common factor; and that factor is
      the greatest up to one that fits, so when there was shrinking some edge is met exactly. */
  lemma ScaledFitsAndIsMaximal(radii: RoundingRadii, bounds: Rect) returns (f: real)
    requires !bounds.GetPositive().IsEmpty() && !radii.AreAllCornersEmpty()
    ensures var n := radii.Normalized(); var size := bounds.GetPositive().GetSize(); var r := Scaled(radii, bounds);
      && 0.0 < f <= 1.0 && r == n.Times(f) && r.Fits(size)
      && (f < 1.0 ==> r.MeetsAnEdge(size))
      && (forall g: real :: f < g <= 1.0 ==> !n.Times(g).Fits(size))
  {
    hide Factor, FactorFits, FactorMeets, RoundingRadii.Times, RoundingRadii.Fits, RoundingRadii.MeetsAnEdge,
      RoundingRadii.Normalized, RoundingRadii.AreAllCornersEmpty;
    var n, size := radii.Normalized(), bounds.GetPositive().GetSize();
    NormalizedIsNonNegative(radii);
    f := Factor(n, size);
    FactorIs(n, size);
    TimesEdges(n, f, size);
    TimesOne(n);
    forall g: real | f < g <= 1.0 ensures !n.Times(g).Fits(size) {
      NothingLarger(n, f, g, size);
      TimesEdges(n, g, size);
    }
  }

  lemma NothingToScale(radii: RoundingRadii, bounds: Rect)
    requires bounds.GetPositive().IsEmpty() || radii.AreAllCornersEmpty()
    ensures Scaled(radii, bounds) == NO_RADII
  {
  }

  /** Shrinking keeps round corners round. */
  lemma ShrunkIsNormal(n: RoundingRadii, f: real)
    requires 0.0 < f && exists r: RoundingRadii :: n == r.Normalized()
    ensures n.Times(f).Normalized() == n.Times(f)
    ensures n.Times(f).AreAllCornersEmpty() ==> n.Times(f) == NO_RADII
  {
    var r: RoundingRadii :| n == r.Normalized();
    SizeTimes(r.topLeft, f);
    SizeTimes(r.topRight, f);
    SizeTimes(r.bottomLeft, f);
    SizeTimes(r.bottomRight, f);
  }

  lemma SizeTimes(s: Size, f: real)
    requires 0.0 < f
    ensures var t := OrZero(s); var u := Size(t.width * f, t.height * f);
      OrZero(u) == u && (u.IsEmpty() ==> u == Size(0.0, 0.0))
  {
    if !s.IsEmpty() {
      assert s.width * f > 0.0 && s.height * f > 0.0;
    }
  }

  /** Radii that fit are left alone. */
  lemma FittingIsUnchanged(n: RoundingRadii, bounds: Rect)
    requires !bounds.GetPositive().IsEmpty() && n.Fits(bounds.GetPositive().GetSize())
    requires n.Normalized() == n && !n.AreAllCornersEmpty()
    ensures Scaled(n, bounds) == n
  {
  }

  /** Scaling twice is scaling once. */
  lemma ScaledIsIdempotent(radii: RoundingRadii, bounds: Rect)
    ensures Scaled(Scaled(radii, bounds), bounds) == Scaled(radii, bounds)
  {
    hide Scaled, RoundingRadii.Times, RoundingRadii.Fits, RoundingRadii.Normalized, RoundingRadii.MeetsAnEdge;
    var r := Scaled(radii, bounds);
    if bounds.GetPositive().IsEmpty() || radii.AreAllCornersEmpty() {
      NothingToScale(radii, bounds);
      NothingToScale(NO_RADII, bounds);
    } else {
      var f := ScaledFitsAndIsMaximal(radii, bounds);
      ShrunkIsNormal(radii.Normalized(), f);
      if r.AreAllCornersEmpty() {
        NothingToScale(r, bounds);
      } else {
        FittingIsUnchanged(r, bounds);
      }
    }
  }

  /** A proper corner shrunk by f; a flat or negative one made sharp. */
  ghost predicate CornerShrunk(corner: Size, f: real, result: Size) {
    if corner.width > 0.0 && corner.height > 0.0
    then result.width == f * corner.width && result.height == f * corner.height
    else result.width == 0.0 && result.height == 0.0
  }

  /** Each corner of the result is the given corner shrunk by one factor, the same for width and
      height and for all corners. */
  lemma ScaledShrinksCorners(radii: RoundingRadii, bounds: Rect) returns (f: real)
    requires !bounds.GetPositive().IsEmpty() && !radii.AreAllCornersEmpty()
    ensures var r := Scaled(radii, bounds);
      && 0.0 < f <= 1.0
      && CornerShrunk(radii.topLeft, f, r.topLeft) && CornerShrunk(radii.topRight, f, r.topRight)
      && CornerShrunk(radii.bottomLeft, f, r.bottomLeft) && CornerShrunk(radii.bottomRight, f, r.bottomRight)
  {
    hide CornerShrunk, Scaled, RoundingRadii.Times, RoundingRadii.Normalized, RoundingRadii.Fits, RoundingRadii.MeetsAnEdge,
      RoundingRadii.AreAllCornersEmpty, Rect.GetPositive;
    f := ScaledFitsAndIsMaximal(radii, bounds);
    NormalizedTimes(radii, f);
  }

  lemma NormalizedTimes(radii: RoundingRadii, f: real)
    ensures var r := radii.Normalized().Times(f);
      && CornerShrunk(radii.topLeft, f, r.topLeft) && CornerShrunk(radii.topRight, f, r.topRight)
      && CornerShrunk(radii.bottomLeft, f, r.bottomLeft) && CornerShrunk(radii.bottomRight, f, r.bottomRight)
  {
    hide CornerShrunk, OrZero;
    var r := radii.Normalized().Times(f);
    OneCorner(radii.topLeft, f, r.topLeft);
    OneCorner(radii.topRight, f, r.topRight);
    OneCorner(radii.bottomLeft, f, r.bottomLeft);
    OneCorner(radii.bottomRight, f, r.bottomRight);
  }

  lemma OneCorner(corner: Size, f: real, result: Size)
    requires result.width == OrZero(corner).width * f && result.height == OrZero(corner).height * f
    ensures CornerShrunk(corner, f, result)
  {
  }

  /** Radii that are all proper and fit every edge come back as they are. */
  lemma FittingRadiiAreKept(radii: RoundingRadii, bounds: Rect)
    requires !bounds.GetPositive().IsEmpty()
    requires radii.topLeft.width > 0.0 && radii.topLeft.height > 0.0 && radii.topRight.width > 0.0 && radii.topRight.height > 0.0
    requires radii.bottomLeft.width > 0.0 && radii.bottomLeft.height > 0.0
    requires radii.bottomRight.width > 0.0 && radii.bottomRight.height > 0.0
    requires var size := bounds.GetPositive().GetSize();
      && radii.topLeft.width + radii.topRight.width <= size.width
      && radii.bottomLeft.width + radii.bottomRight.width <= size.width
      && radii.topLeft.height + radii.bottomLeft.height <= size.height
      && radii.topRight.height + radii.bottomRight.height <= size.height
    ensures Scaled(radii, bounds) == radii
  {
    FittingIsUnchanged(radii, bounds);
  }

  lemma ScaledIsNonNegative(radii: RoundingRadii, bounds: Rect)
    ensures Scaled(radii, bounds).NonNegative()
  {
    if bounds.GetPositive().IsEmpty() || radii.AreAllCornersEmpty() {
      NothingToScale(radii, bounds);
    } else {
      var n, size := radii.Normalized(), bounds.GetPositive().GetSize();
      NormalizedIsNonNegative(radii);
      FactorIs(n, size);
      hide Factor, RoundingRadii.Normalized;
      TimesNonNegative(n, Factor(n, size));
    }
  }

  lemma TimesNonNegative(n: RoundingRadii, f: real)
    requires n.NonNegative() && f >= 0.0
    ensures n.Times(f).NonNegative()
  {
    Product(n.topLeft.width, f);
    Product(n.topLeft.height, f);
    Product(n.topRight.width, f);
    Product(n.topRight.height, f);
    Product(n.bottomLeft.width, f);
    Product(n.bottomLeft.height, f);
    Product(n.bottomRight.width, f);
    Product(n.bottomRight.height, f);
  }

  // ----- The steps of the original

  method NormalizeEmptyToZero(radii: Size) returns (r: Size)
    ensures r == OrZero(radii)
    ensures r == if radii.width > 0.0 && radii.height > 0.0 then radii else Size(0.0, 0.0)
  {
    r := radii;
    if radii.IsEmpty() {
      r := Size(0.0, 0.0);
    }
  }

  method AdjustScale(radius1: real, radius2: real, dimension: real, scale: real) returns (s: real)
    requires radius1 >= 0.0 && radius2 >= 0.0 && dimension > 0.0
    ensures s == Adjusted(radius1 + radius2, dimension, scale)
  {
    s := scale;
    if radius1 + radius2 > dimension {
      s := Min(scale, dimension / (radius1 + radius2));
    }
  }

  method ComputeScaled(radii: RoundingRadii, inBounds: Rect) returns (r: RoundingRadii)
    ensures r == Scaled(radii, inBounds)
  {
    var bounds := inBounds.GetPositive();
    if bounds.IsEmpty() || radii.AreAllCornersEmpty() {
      return NO_RADII;
    }
    var topLeft := NormalizeEmptyToZero(radii.topLeft);
    var topRight := NormalizeEmptyToZero(radii.topRight);
    var bottomLeft := NormalizeEmptyToZero(radii.bottomLeft);
    var bottomRight := NormalizeEmptyToZero(radii.bottomRight);
    var size := bounds.GetSize();
    var scale := 1.0;
    scale := AdjustScale(topLeft.width, topRight.width, size.width, scale);
    scale := AdjustScale(bottomLeft.width, bottomRight.width, size.width, scale);
    scale := AdjustScale(topLeft.height, bottomLeft.height, size.height, scale);
    scale := AdjustScale(topRight.height, bottomRight.height, size.height, scale);
    r := RoundingRadii(topLeft, topRight, bottomLeft, bottomRight);
    if scale < 1.0 {
      r := r.Times(scale);
    }
  }
}
