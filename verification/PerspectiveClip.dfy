/** Why four clipped corners tell enough about a whole rectangle: inequalities between the values
    of two affine functions at the corners of a rectangle. */
module PerspectiveClip {
  import opened Geometry
  import opened Reals

  datatype Affine = Affine(a: real, b: real, c: real) {
    function At(p: Point): real { Times(p.x, a) + Times(p.y, b) + c }
  }

  function Times(x: real, a: real): real { x * a }

  /** Crossing from a clipped corner i to a visible corner j: where h is zero, g is not positive. */
  ghost predicate Cross(gi: real, hi: real, gj: real, hj: real) { hj * gi <= hi * gj }

  /** Opposite corners, when both neighbours are visible or both clipped. */
  lemma DiagonalSame(g0: real, h0: real, g1: real, h1: real, g2: real, h2: real, g3: real, h3: real)
    requires g0 + g2 == g1 + g3 && h0 + h2 == h1 + h3
    requires (Cross(g0, h0, g1, h1) && Cross(g0, h0, g3, h3)) || (Cross(g1, h1, g2, h2) && Cross(g3, h3, g2, h2))
    ensures Cross(g0, h0, g2, h2)
  {
    if Cross(g0, h0, g1, h1) && Cross(g0, h0, g3, h3) {
      assert h1 * g0 + h3 * g0 == (h0 + h2) * g0 && h0 * g1 + h0 * g3 == h0 * (g0 + g2);
    } else {
      assert h2 * g1 + h2 * g3 == h2 * (g0 + g2) && h1 * g2 + h3 * g2 == (h0 + h2) * g2;
    }
  }

  /** And when one of each. */
  lemma DiagonalMixed(g0: real, h0: real, g1: real, h1: real, g2: real, h2: real, g3: real, h3: real)
    requires g0 + g2 == g1 + g3 && h0 + h2 == h1 + h3
    requires h0 < 0.0 && h3 < 0.0 && h1 >= 0.0 && h2 >= 0.0 && g1 <= 0.0
    requires Cross(g0, h0, g1, h1) && Cross(g3, h3, g2, h2)
    ensures Cross(g0, h0, g2, h2)
  {
    var d := h2 * g0 - h0 * g2;
    var e := h2 * g1 - h1 * g2;
    assert h2 * g3 - h3 * g2 == d - e by {
      assert h2 * g3 == h2 * g0 + h2 * g2 - h2 * g1;
      assert h3 * g2 == h0 * g2 + h2 * g2 - h1 * g2;
    }
    if d > 0.0 {
      Product(h2, -g1);
      if h1 > 0.0 {
        Scaled(h1, g0, h0, g1, h2);
        assert h1 * d == h2 * (h1 * g0) - h1 * (h0 * g2);
        assert h0 * e == h2 * (h0 * g1) - h1 * (h0 * g2);
        Positive(h1, d);
        Positive(-h0, e);
      }
    }
  }

  lemma Scaled(h1: real, g0: real, h0: real, g1: real, h2: real)
    requires h1 * g0 <= h0 * g1 && h2 >= 0.0
    ensures h2 * (h1 * g0) <= h2 * (h0 * g1)
  {
    Product(h2, h0 * g1 - h1 * g0);
  }

  /** Both functions at the four corners, in order around the rectangle; what clipping guarantees. */
  ghost predicate Sides(g0: real, h0: real, g1: real, h1: real) {
    && (h0 >= 0.0 ==> g0 <= 0.0)
    && (h0 < 0.0 && h1 >= 0.0 ==> Cross(g0, h0, g1, h1))
    && (h1 < 0.0 && h0 >= 0.0 ==> Cross(g1, h1, g0, h0))
  }

  lemma Diagonal(g0: real, h0: real, g1: real, h1: real, g2: real, h2: real, g3: real, h3: real)
    requires g0 + g2 == g1 + g3 && h0 + h2 == h1 + h3
    requires Sides(g0, h0, g1, h1) && Sides(g1, h1, g2, h2) && Sides(g2, h2, g3, h3) && Sides(g3, h3, g0, h0)
    requires h0 < 0.0 && h2 >= 0.0
    ensures Cross(g0, h0, g2, h2)
  {
    hide Cross;
    if (h1 >= 0.0) == (h3 >= 0.0) {
      DiagonalSame(g0, h0, g1, h1, g2, h2, g3, h3);
    } else if h1 >= 0.0 {
      DiagonalMixed(g0, h0, g1, h1, g2, h2, g3, h3);
    } else {
      DiagonalMixed(g0, h0, g3, h3, g2, h2, g1, h1);
    }
  }

  function Ratio(g: real, h: real): real { if h < 0.0 then Max(0.0, g / -h) else 0.0 }

  lemma RatioCoversSelf(g: real, h: real, mu: real)
    requires mu >= Ratio(g, h) && h < 0.0
    ensures g + mu * h <= 0.0
  {
    var q := g / -h;
    assert q * -h == g;
    Product(mu - q, -h);
    assert (mu - q) * -h == -(mu * h) - q * -h;
  }

  lemma RatioCoversVisible(gi: real, hi: real, gj: real, hj: real)
    requires hj >= 0.0 && gj <= 0.0 && (hi < 0.0 ==> Cross(gi, hi, gj, hj))
    ensures gj + Ratio(gi, hi) * hj <= 0.0
  {
    if hi < 0.0 && gi / -hi > 0.0 {
      var q := gi / -hi;
      assert q * -hi == gi;
      var x := gj + q * hj;
      assert x * -hi == (q * -hi) * hj - hi * gj;
      if x > 0.0 { Positive(x, -hi); }
    }
  }

  /** One multiplier for all corners. */
  lemma Multiplier(g0: real, h0: real, g1: real, h1: real, g2: real, h2: real, g3: real, h3: real) returns (mu: real)
    requires g0 + g2 == g1 + g3 && h0 + h2 == h1 + h3
    requires Sides(g0, h0, g1, h1) && Sides(g1, h1, g2, h2) && Sides(g2, h2, g3, h3) && Sides(g3, h3, g0, h0)
    ensures mu >= 0.0 && g0 + mu * h0 <= 0.0 && g1 + mu * h1 <= 0.0 && g2 + mu * h2 <= 0.0 && g3 + mu * h3 <= 0.0
  {
    hide Cross, Ratio;
    RatioSign(g0, h0);
    RatioSign(g1, h1);
    RatioSign(g2, h2);
    RatioSign(g3, h3);
    mu := Max(Max(Ratio(g0, h0), Ratio(g1, h1)), Max(Ratio(g2, h2), Ratio(g3, h3)));
    if h0 < 0.0 && h2 >= 0.0 { Diagonal(g0, h0, g1, h1, g2, h2, g3, h3); }
    if h1 < 0.0 && h3 >= 0.0 { Diagonal(g1, h1, g2, h2, g3, h3, g0, h0); }
    if h2 < 0.0 && h0 >= 0.0 { Diagonal(g2, h2, g3, h3, g0, h0, g1, h1); }
    if h3 < 0.0 && h1 >= 0.0 { Diagonal(g3, h3, g0, h0, g1, h1, g2, h2); }
    CornerCovered(g0, h0, g1, h1, g2, h2, g3, h3, mu);
    CornerCovered(g1, h1, g2, h2, g3, h3, g0, h0, mu);
    CornerCovered(g2, h2, g3, h3, g0, h0, g1, h1, mu);
    CornerCovered(g3, h3, g0, h0, g1, h1, g2, h2, mu);
  }

  lemma RatioSign(g: real, h: real)
    ensures Ratio(g, h) >= 0.0 && (h >= 0.0 ==> Ratio(g, h) == 0.0)
  {
  }

  lemma CornerCovered(g: real, h: real, g1: real, h1: real, g2: real, h2: real, g3: real, h3: real, mu: real)
    requires mu >= Ratio(g, h)
    requires mu == Ratio(g, h) || mu == Ratio(g1, h1) || mu == Ratio(g2, h2) || mu == Ratio(g3, h3)
    requires h >= 0.0 ==> g <= 0.0
    requires h >= 0.0 && h1 < 0.0 ==> Cross(g1, h1, g, h)
    requires h >= 0.0 && h2 < 0.0 ==> Cross(g2, h2, g, h)
    requires h >= 0.0 && h3 < 0.0 ==> Cross(g3, h3, g, h)
    ensures g + mu * h <= 0.0
  {
    hide Cross, Ratio;
    if h < 0.0 {
      RatioCoversSelf(g, h, mu);
    } else {
      RatioSign(g, h);
      RatioCoversVisible(g, h, g, h);
      RatioCoversVisible(g1, h1, g, h);
      RatioCoversVisible(g2, h2, g, h);
      RatioCoversVisible(g3, h3, g, h);
    }
  }

  /** An affine function that is not positive at the corners is not positive inside. */
  lemma NotPositiveInside(e: Affine, r: Rect, p: Point)
    requires r.left <= p.x <= r.right && r.top <= p.y <= r.bottom
    requires e.At(Point(r.left, r.top)) <= 0.0 && e.At(Point(r.right, r.top)) <= 0.0
    requires e.At(Point(r.left, r.bottom)) <= 0.0 && e.At(Point(r.right, r.bottom)) <= 0.0
    ensures e.At(p) <= 0.0
  {
    hide Times;
    Between(e.a, r.left, p.x, r.right);
    Between(e.b, r.top, p.y, r.bottom);
  }

  lemma Between(a: real, low: real, x: real, high: real)
    requires low <= x <= high
    ensures Times(x, a) <= Times(low, a) || Times(x, a) <= Times(high, a)
  {
    if a >= 0.0 {
      Product(high - x, a);
      assert (high - x) * a == high * a - x * a;
    } else {
      Product(x - low, -a);
      assert (x - low) * -a == low * a - x * a;
    }
  }
}
