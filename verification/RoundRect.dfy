/** Containment in a rounded rectangle (src/geometry/round_rect.cc). */
module RoundRects {
  import opened CornerRadii
  import opened Geometry
  import opened Reals

  /** `direction` is the sign of (corner - centre). */
  predicate CornerContains(p: Point, corner: Point, direction: Point, radii: Size)
    requires radii.width >= 0.0 && radii.height >= 0.0
  {
    if radii.IsEmpty() then true
    else
      var u := radii.width - (corner.x - p.x) * direction.x;
      var v := radii.height - (corner.y - p.y) * direction.y;
      if u <= 0.0 || v <= 0.0 then true
      else (u / radii.width) * (u / radii.width) + (v / radii.height) * (v / radii.height) <= 1.0
  }

  const UPPER_LEFT := Point(-1.0, -1.0)
  const UPPER_RIGHT := Point(1.0, -1.0)
  const LOWER_LEFT := Point(-1.0, 1.0)
  const LOWER_RIGHT := Point(1.0, 1.0)

  datatype RoundRect = RoundRect(bounds: Rect, radii: RoundingRadii) {
    predicate Contains(p: Point)
      requires radii.NonNegative()
    {
      && bounds.Contains(p)
      && CornerContains(p, Point(bounds.left, bounds.top), UPPER_LEFT, radii.topLeft)
      && CornerContains(p, Point(bounds.right, bounds.top), UPPER_RIGHT, radii.topRight)
      && CornerContains(p, Point(bounds.left, bounds.bottom), LOWER_LEFT, radii.bottomLeft)
      && CornerContains(p, Point(bounds.right, bounds.bottom), LOWER_RIGHT, radii.bottomRight)
    }
  }

  /** A point of the segment from p to q. */
  function Mix(p: Point, q: Point, s: real, t: real): Point { Point(s * p.x + t * q.x, s * p.y + t * q.y) }

  /** How far into the curved part, in radii; zero outside it. */
  function Inward(radius: real, distance: real): (d: real)
    requires radius > 0.0
    ensures d >= 0.0
  {
    var d := (radius - distance) / radius;
    if d < 0.0 then 0.0 else d
  }

  /** Inside the bounds the corner test is one inequality without cases. */
  lemma CornerIsEllipse(p: Point, corner: Point, direction: Point, radii: Size)
    requires radii.width > 0.0 && radii.height > 0.0
    requires (corner.x - p.x) * direction.x >= 0.0 && (corner.y - p.y) * direction.y >= 0.0
    ensures var u := Inward(radii.width, (corner.x - p.x) * direction.x);
      var v := Inward(radii.height, (corner.y - p.y) * direction.y);
      CornerContains(p, corner, direction, radii) <==> u * u + v * v <= 1.0
  {
    InwardSign(radii.width, (corner.x - p.x) * direction.x);
    InwardSign(radii.height, (corner.y - p.y) * direction.y);
    var u := Inward(radii.width, (corner.x - p.x) * direction.x);
    var v := Inward(radii.height, (corner.y - p.y) * direction.y);
    SquareBelowOne(u);
    SquareBelowOne(v);
  }

  lemma InwardSign(radius: real, distance: real)
    requires radius > 0.0 && distance >= 0.0
    ensures Inward(radius, distance) <= 1.0
    ensures radius - distance <= 0.0 <==> Inward(radius, distance) == 0.0
  {
    var d := (radius - distance) / radius;
    assert d * radius == radius - distance;
    if d > 1.0 { assert (d - 1.0) * radius > 0.0; }
    if d < 0.0 { assert -d * radius > 0.0; }
    if d > 0.0 { assert d * radius > 0.0; }
  }

  lemma SquareBelowOne(d: real)
    requires 0.0 <= d <= 1.0
    ensures d * d <= 1.0
  {
    Product(d, 1.0 - d);
  }

  /** Two weights that make one. */
  predicate Weights(s: real, t: real) { s >= 0.0 && t >= 0.0 && s + t == 1.0 }

  lemma Whole(s: real, t: real, x: real)
    requires Weights(s, t)
    ensures s * x + t * x == x
  {
    assert (s + t) * x == s * x + t * x;
  }

  lemma WeightedBoth(a: real, x: real, b: real, y: real, s: real, t: real)
    requires Weights(s, t) && a <= x && b <= y
    ensures s * a <= s * x && t * b <= t * y
  {
    Weighted(a, x, s);
    Weighted(b, y, t);
  }

  lemma AddUp(a: real, b: real, x: real, y: real)
    requires a <= x && b <= y
    ensures a + b <= x + y
  {
  }

  lemma BelowMix(low: real, a: real, b: real, s: real, t: real)
    requires Weights(s, t) && low <= a && low <= b
    ensures low <= s * a + t * b
  {
    hide Weights;
    WeightedBoth(low, a, low, b, s, t);
    Whole(s, t, low);
    AddUp(s * low, t * low, s * a, t * b);
  }

  lemma MixBelow(a: real, b: real, high: real, s: real, t: real)
    requires Weights(s, t) && a <= high && b <= high
    ensures s * a + t * b <= high
  {
    hide Weights;
    WeightedBoth(a, high, b, high, s, t);
    Whole(s, t, high);
    AddUp(s * a, t * b, s * high, t * high);
  }

  lemma DivideIs(n: real, d: real, q: real)
    requires d > 0.0 && q * d == n
    ensures n / d == q
  {
    var k := n / d;
    assert k * d == n;
    assert (k - q) * d == 0.0;
  }

  lemma Linear(radius: real, a: real, b: real, s: real, t: real)
    requires radius > 0.0 && Weights(s, t)
    ensures (radius - (s * a + t * b)) / radius == s * ((radius - a) / radius) + t * ((radius - b) / radius)
  {
    var x, y := (radius - a) / radius, (radius - b) / radius;
    assert x * radius == radius - a && y * radius == radius - b;
    Whole(s, t, radius);
    assert (s * x + t * y) * radius == s * (x * radius) + t * (y * radius);
    assert s * (radius - a) == s * radius - s * a;
    assert t * (radius - b) == t * radius - t * b;
    DivideIs(radius - (s * a + t * b), radius, s * x + t * y);
  }

  /** The depth is convex along a segment. */
  lemma InwardConvex(radius: real, a: real, b: real, s: real, t: real)
    requires radius > 0.0 && Weights(s, t)
    ensures Inward(radius, s * a + t * b) <= s * Inward(radius, a) + t * Inward(radius, b)
  {
    Linear(radius, a, b, s, t);
    Weighted((radius - a) / radius, Inward(radius, a), s);
    Weighted((radius - b) / radius, Inward(radius, b), t);
    Weighted(0.0, Inward(radius, a), s);
    Weighted(0.0, Inward(radius, b), t);
  }

  /** The square is convex. */
  lemma SquareConvex(a: real, b: real, s: real, t: real)
    requires Weights(s, t)
    ensures (s * a + t * b) * (s * a + t * b) <= s * (a * a) + t * (b * b)
  {
    var d := (a - b) * (a - b);
    assert d >= 0.0;
    Product(s, t);
    Product(s * t, d);
    assert s == 1.0 - t;
    assert s * (a * a) + t * (b * b) - (s * a + t * b) * (s * a + t * b) == (s * t) * d;
  }

  lemma DiscConvex(u: real, v: real, x: real, y: real, z: real, w: real, s: real, t: real)
    requires Weights(s, t) && u * u + v * v <= 1.0 && x * x + y * y <= 1.0
    requires 0.0 <= z <= s * u + t * x && 0.0 <= w <= s * v + t * y
    ensures z * z + w * w <= 1.0
  {
    SquareGrows(z, s * u + t * x);
    SquareGrows(w, s * v + t * y);
    SquareConvex(u, x, s, t);
    SquareConvex(v, y, s, t);
    MixSum(u * u, v * v, x * x, y * y, s, t);
  }

  lemma MixSum(a: real, b: real, c: real, d: real, s: real, t: real)
    requires Weights(s, t) && a + b <= 1.0 && c + d <= 1.0
    ensures s * a + t * c + (s * b + t * d) <= 1.0
  {
    MixBelow(a + b, c + d, 1.0, s, t);
    assert s * (a + b) == s * a + s * b && t * (c + d) == t * c + t * d;
  }

  lemma Blend(c: real, a: real, b: real, k: real, s: real, t: real)
    requires Weights(s, t)
    ensures (c - (s * a + t * b)) * k == s * ((c - a) * k) + t * ((c - b) * k)
  {
    Whole(s, t, c);
    assert c - (s * a + t * b) == s * (c - a) + t * (c - b);
    assert (s * (c - a) + t * (c - b)) * k == s * ((c - a) * k) + t * ((c - b) * k);
  }

  lemma CornerConvex(p: Point, q: Point, s: real, t: real, corner: Point, direction: Point, radii: Size)
    requires radii.width >= 0.0 && radii.height >= 0.0 && Weights(s, t)
    requires (corner.x - p.x) * direction.x >= 0.0 && (corner.y - p.y) * direction.y >= 0.0
    requires (corner.x - q.x) * direction.x >= 0.0 && (corner.y - q.y) * direction.y >= 0.0
    requires CornerContains(p, corner, direction, radii) && CornerContains(q, corner, direction, radii)
    ensures CornerContains(Mix(p, q, s, t), corner, direction, radii)
  {
    hide Inward, CornerContains, Weights;
    if radii.IsEmpty() {
      EmptyCorner(Mix(p, q, s, t), corner, direction, radii);
    } else {
      var px, py := (corner.x - p.x) * direction.x, (corner.y - p.y) * direction.y;
      var qx, qy := (corner.x - q.x) * direction.x, (corner.y - q.y) * direction.y;
      CornerIsEllipse(p, corner, direction, radii);
      CornerIsEllipse(q, corner, direction, radii);
      Blend(corner.x, p.x, q.x, direction.x, s, t);
      Blend(corner.y, p.y, q.y, direction.y, s, t);
      BelowMix(0.0, px, qx, s, t);
      BelowMix(0.0, py, qy, s, t);
      EllipseConvex(radii, px, py, qx, qy, s, t);
      var m := Mix(p, q, s, t);
      assert (corner.x - m.x) * direction.x == s * px + t * qx;
      assert (corner.y - m.y) * direction.y == s * py + t * qy;
      CornerIsEllipse(m, corner, direction, radii);
    }
  }

  lemma EllipseConvex(radii: Size, px: real, py: real, qx: real, qy: real, s: real, t: real)
    requires radii.width > 0.0 && radii.height > 0.0 && Weights(s, t)
    requires var u, v := Inward(radii.width, px), Inward(radii.height, py); u * u + v * v <= 1.0
    requires var u, v := Inward(radii.width, qx), Inward(radii.height, qy); u * u + v * v <= 1.0
    ensures var u, v := Inward(radii.width, s * px + t * qx), Inward(radii.height, s * py + t * qy);
      u * u + v * v <= 1.0
  {
    hide Inward;
    InwardConvex(radii.width, px, qx, s, t);
    InwardConvex(radii.height, py, qy, s, t);
    DiscConvex(Inward(radii.width, px), Inward(radii.height, py), Inward(radii.width, qx), Inward(radii.height, qy),
      Inward(radii.width, s * px + t * qx), Inward(radii.height, s * py + t * qy), s, t);
  }

  lemma EmptyCorner(p: Point, corner: Point, direction: Point, radii: Size)
    requires radii.width >= 0.0 && radii.height >= 0.0 && radii.IsEmpty()
    ensures CornerContains(p, corner, direction, radii)
  {
  }

  lemma MixStrictlyBelow(a: real, b: real, high: real, s: real, t: real)
    requires Weights(s, t) && a < high && b < high
    ensures s * a + t * b < high
  {
    MixBelow(a, b, Max(a, b), s, t);
  }

  lemma CornersAhead(b: Rect, p: Point)
    requires b.Contains(p)
    ensures (b.left - p.x) * UPPER_LEFT.x >= 0.0 && (b.top - p.y) * UPPER_LEFT.y >= 0.0
    ensures (b.right - p.x) * UPPER_RIGHT.x >= 0.0 && (b.top - p.y) * UPPER_RIGHT.y >= 0.0
    ensures (b.left - p.x) * LOWER_LEFT.x >= 0.0 && (b.bottom - p.y) * LOWER_LEFT.y >= 0.0
    ensures (b.right - p.x) * LOWER_RIGHT.x >= 0.0 && (b.bottom - p.y) * LOWER_RIGHT.y >= 0.0
  {
    Product(p.x - b.left, 1.0);
    Product(b.right - p.x, 1.0);
    Product(p.y - b.top, 1.0);
    Product(b.bottom - p.y, 1.0);
  }

  /** The points a rounded rectangle contains form a convex set. */
  lemma ContainsIsConvex(r: RoundRect, p: Point, q: Point, s: real, t: real)
    requires r.radii.NonNegative() && Weights(s, t) && r.Contains(p) && r.Contains(q)
    ensures r.Contains(Mix(p, q, s, t))
  {
    hide CornerContains, Weights;
    var b := r.bounds;
    BelowMix(b.left, p.x, q.x, s, t);
    MixStrictlyBelow(p.x, q.x, b.right, s, t);
    BelowMix(b.top, p.y, q.y, s, t);
    MixStrictlyBelow(p.y, q.y, b.bottom, s, t);
    CornersAhead(b, p);
    CornersAhead(b, q);
    CornerConvex(p, q, s, t, Point(b.left, b.top), UPPER_LEFT, r.radii.topLeft);
    CornerConvex(p, q, s, t, Point(b.right, b.top), UPPER_RIGHT, r.radii.topRight);
    CornerConvex(p, q, s, t, Point(b.left, b.bottom), LOWER_LEFT, r.radii.bottomLeft);
    CornerConvex(p, q, s, t, Point(b.right, b.bottom), LOWER_RIGHT, r.radii.bottomRight);
  }

  function MakeRectRadii(inBounds: Rect, inRadii: RoundingRadii): RoundRect {
    RoundRect(inBounds.GetPositive(), Scaled(inRadii, inBounds.GetPositive()))
  }

  /** The factory keeps the rectangle, its edges put in order where they are not, and the radii as they
      are scaled to it: each proper corner shrunk by one factor, or all sharp if the rectangle is
      empty or no corner is proper. */
  lemma MadeFromBounds(inBounds: Rect, inRadii: RoundingRadii) returns (f: real)
    ensures var b := MakeRectRadii(inBounds, inRadii).bounds;
      if inBounds.left < inBounds.right && inBounds.top < inBounds.bottom then b == inBounds
      else
        && b.left <= b.right && b.top <= b.bottom
        && {b.left, b.right} == {inBounds.left, inBounds.right} && {b.top, b.bottom} == {inBounds.top, inBounds.bottom}
    ensures var r := MakeRectRadii(inBounds, inRadii); var c := r.radii;
      if r.bounds.IsEmpty() || inRadii.AreAllCornersEmpty() then c == NO_RADII
      else
        && 0.0 < f <= 1.0 && c.Fits(r.bounds.GetSize())
        && CornerShrunk(inRadii.topLeft, f, c.topLeft) && CornerShrunk(inRadii.topRight, f, c.topRight)
        && CornerShrunk(inRadii.bottomLeft, f, c.bottomLeft) && CornerShrunk(inRadii.bottomRight, f, c.bottomRight)
  {
    hide Scaled, CornerShrunk, RoundingRadii.Fits;
    var b := inBounds.GetPositive();
    PositiveTwice(inBounds);
    f := 1.0;
    if b.IsEmpty() || inRadii.AreAllCornersEmpty() {
      NothingToScale(inRadii, b);
    } else {
      var g := ScaledFitsAndIsMaximal(inRadii, b);
      f := ScaledShrinksCorners(inRadii, b);
    }
  }

  lemma PositiveTwice(r: Rect)
    ensures r.GetPositive().GetPositive() == r.GetPositive()
  {
  }

  /** Whatever the radii asked for, the factory makes a convex shape. */
  lemma MadeIsConvex(inBounds: Rect, inRadii: RoundingRadii, p: Point, q: Point, s: real, t: real)
    requires Weights(s, t)
    ensures var r := MakeRectRadii(inBounds, inRadii);
      r.radii.NonNegative() && (r.Contains(p) && r.Contains(q) ==> r.Contains(Mix(p, q, s, t)))
  {
    hide Scaled, RoundRect.Contains;
    var r := MakeRectRadii(inBounds, inRadii);
    ScaledIsNonNegative(inRadii, inBounds.GetPositive());
    if r.Contains(p) && r.Contains(q) {
      ContainsIsConvex(r, p, q, s, t);
    }
  }

  // ----- The shape itself

  /** Off the ellipse with the given centre and radii. */
  predicate OffEllipse(p: Point, centre: Point, radii: Size)
    requires radii.width > 0.0 && radii.height > 0.0
  {
    var x, y := (p.x - centre.x) / radii.width, (p.y - centre.y) / radii.height;
    x * x + y * y > 1.0
  }

  /** Cut away: between the corner and the centre of its ellipse, and off the ellipse. `left` and
      `top` say which corner it is. */
  predicate CutAway(b: Rect, radii: Size, left: bool, top: bool, p: Point) {
    && radii.width > 0.0 && radii.height > 0.0
    && (if left then p.x < b.left + radii.width else p.x > b.right - radii.width)
    && (if top then p.y < b.top + radii.height else p.y > b.bottom - radii.height)
    && OffEllipse(p, Point(if left then b.left + radii.width else b.right - radii.width,
                           if top then b.top + radii.height else b.bottom - radii.height), radii)
  }

  lemma NegatedSquare(a: real, d: real)
    requires d > 0.0
    ensures (-a / d) * (-a / d) == (a / d) * (a / d)
  {
    assert (-(a / d)) * d == -a;
    DivideIs(-a, d, -(a / d));
  }

  lemma CornerCuts(b: Rect, radii: Size, left: bool, top: bool, p: Point)
    requires radii.width >= 0.0 && radii.height >= 0.0
    ensures CornerContains(p, Point(if left then b.left else b.right, if top then b.top else b.bottom),
                           Point(if left then -1.0 else 1.0, if top then -1.0 else 1.0), radii)
      <==> !CutAway(b, radii, left, top, p)
  {
    if !radii.IsEmpty() {
      var cx := if left then b.left + radii.width else b.right - radii.width;
      var cy := if top then b.top + radii.height else b.bottom - radii.height;
      NegatedSquare(p.x - cx, radii.width);
      NegatedSquare(p.y - cy, radii.height);
    }
  }

  /** The rounded rectangle is its bounds without the four corners outside their own ellipses. */
  lemma ContainsIsShape(r: RoundRect, p: Point)
    requires r.radii.NonNegative()
    ensures r.Contains(p) <==>
      && r.bounds.Contains(p)
      && !CutAway(r.bounds, r.radii.topLeft, true, true, p) && !CutAway(r.bounds, r.radii.topRight, false, true, p)
      && !CutAway(r.bounds, r.radii.bottomLeft, true, false, p) && !CutAway(r.bounds, r.radii.bottomRight, false, false, p)
  {
    hide CornerContains, CutAway;
    CornerCuts(r.bounds, r.radii.topLeft, true, true, p);
    CornerCuts(r.bounds, r.radii.topRight, false, true, p);
    CornerCuts(r.bounds, r.radii.bottomLeft, true, false, p);
    CornerCuts(r.bounds, r.radii.bottomRight, false, false, p);
  }
}
