/** How much a matrix can stretch or shrink a direction (src/geometry/matrix.cc). */
module Scales {
  import opened Geometry
  import opened Matrices
  import opened Reals
  import opened Wrappers

  function Abs(a: real): real { if a < 0.0 then -a else a }

  function SquaredLength(v: Point): real { v.x * v.x + v.y * v.y }

  /** The square roots the computation takes. */
  datatype Roots = Roots(quadratic: real, low: real, high: real)

  ghost predicate IsRoot(q: real, x: real) { q >= 0.0 && q * q == x }

  // The entries of transpose(A) * A, where A is the upper left 2x2 part.
  function A2(m: Matrix): real { m.m0 * m.m0 + m.m1 * m.m1 }
  function B2(m: Matrix): real { m.m0 * m.m4 + m.m1 * m.m5 }
  function D2(m: Matrix): real { m.m4 * m.m4 + m.m5 * m.m5 }

  function MinusB(m: Matrix): real { A2(m) + D2(m) }

  function Discriminant(m: Matrix): real { MinusB(m) * MinusB(m) - 4.0 * (A2(m) * D2(m) - B2(m) * B2(m)) }

  predicate IsDiagonal(m: Matrix) { m.m1 == 0.0 && m.m4 == 0.0 }

  predicate IsAntidiagonal(m: Matrix) { m.m0 == 0.0 && m.m5 == 0.0 }

  /** The roots are those of the numbers the code hands to sqrt. */
  ghost predicate RootsOf(m: Matrix, r: Roots) {
    && (if Discriminant(m) <= 0.0 then r.quadratic == 0.0 else IsRoot(r.quadratic, Discriminant(m)))
    && IsRoot(r.low, (MinusB(m) - r.quadratic) / 2.0)
    && IsRoot(r.high, (MinusB(m) + r.quadratic) / 2.0)
  }

  function GetScales2D(m: Matrix, r: Roots): Option<(real, real)> {
    if m.HasPerspective2D() then None
    else if IsDiagonal(m) then Some((Abs(m.m0), Abs(m.m5)))
    else if IsAntidiagonal(m) then Some((Abs(m.m1), Abs(m.m4)))
    else Some((r.low, r.high))
  }

  function GetMinScale2D(m: Matrix, r: Roots): Option<real> {
    match GetScales2D(m, r)
    case None => None
    case Some(s) => Some(Min(s.0, s.1))
  }

  function GetMaxScale2D(m: Matrix, r: Roots): Option<real> {
    match GetScales2D(m, r)
    case None => None
    case Some(s) => Some(Max(s.0, s.1))
  }

  /** There are scales exactly when w is one at every point. */
  lemma ScalesExist(m: Matrix, r: Roots)
    ensures GetScales2D(m, r).Some? <==> forall p :: m.TransformHomogenous(p).z == 1.0
    ensures GetMinScale2D(m, r).Some? <==> GetScales2D(m, r).Some?
    ensures GetMaxScale2D(m, r).Some? <==> GetScales2D(m, r).Some?
  {
    PerspectiveExactly(m);
    hide Matrix.HasPerspective2D, Matrix.TransformHomogenous;
  }

  // ----- Squares

  lemma Square(a: real)
    ensures a * a >= 0.0
  {
  }

  lemma SquareOrder(a: real, b: real)
    requires a >= 0.0 && b >= 0.0 && a * a <= b * b
    ensures a <= b
  {
    assert (a - b) * (a + b) == a * a - b * b;
    if a > b {
      Positive(a - b, a + b);
    }
  }

  lemma NonZeroSquare(b: real)
    requires b != 0.0
    ensures b * b > 0.0
  {
    if b > 0.0 {
      Positive(b, b);
    } else {
      Positive(-b, -b);
      assert -b * -b == b * b;
    }
  }

  /** |Av|^2 as a form in the entries of transpose(A) * A. */
  lemma StretchIsForm(m: Matrix, v: Point)
    ensures SquaredLength(m.TransformDirection(v)) == A2(m) * (v.x * v.x) + 2.0 * B2(m) * (v.x * v.y) + D2(m) * (v.y * v.y)
  {
  }

  /** The two determinants: Gram's is the square of the matrix's. */
  lemma GramDeterminant(m: Matrix)
    ensures A2(m) * D2(m) - B2(m) * B2(m) == (m.m0 * m.m5 - m.m1 * m.m4) * (m.m0 * m.m5 - m.m1 * m.m4)
  {
  }

  lemma DiscriminantIs(a: real, b: real, d: real)
    ensures (a + d) * (a + d) - 4.0 * (a * d - b * b) == (a - d) * (a - d) + 4.0 * (b * b)
  {
  }

  lemma GramIsNonNegative(m: Matrix)
    ensures A2(m) >= 0.0 && D2(m) >= 0.0 && A2(m) * D2(m) - B2(m) * B2(m) >= 0.0
  {
    GramDeterminant(m);
    Square(m.m0 * m.m5 - m.m1 * m.m4);
    Square(m.m0);
    Square(m.m1);
    Square(m.m4);
    Square(m.m5);
  }

  /** No square root is taken of a negative number, whatever the matrix. */
  lemma RadicandsAreNonNegative(m: Matrix, q: real)
    requires if Discriminant(m) <= 0.0 then q == 0.0 else IsRoot(q, Discriminant(m))
    ensures Discriminant(m) >= 0.0 && IsRoot(q, Discriminant(m))
    ensures MinusB(m) - q >= 0.0 && MinusB(m) + q >= 0.0
  {
    hide A2, B2, D2;
    GramIsNonNegative(m);
    DiscriminantIs(A2(m), B2(m), D2(m));
    Square(A2(m) - D2(m));
    Square(B2(m));
    SquareOrder(q, MinusB(m));
  }

  /** A symmetric form whose diagonal is non-negative and whose determinant is zero. */
  lemma DegenerateForm(a: real, b: real, d: real, x: real, y: real)
    requires a >= 0.0 && d >= 0.0 && a * d == b * b
    ensures a * (x * x) - 2.0 * b * (x * y) + d * (y * y) >= 0.0
  {
    var f := a * (x * x) - 2.0 * b * (x * y) + d * (y * y);
    if a == 0.0 {
      if b != 0.0 { NonZeroSquare(b); }
      Square(y);
      Product(d, y * y);
    } else {
      Square(a * x - b * y);
      assert a * f == (a * x - b * y) * (a * x - b * y) + (a * d - b * b) * (y * y);
      if f < 0.0 { Positive(a, -f); }
    }
  }

  /** What an eigenvalue L of [a b; b d] leaves of the diagonal. */
  lemma Eigenvalue(a: real, b: real, d: real, q: real)
    requires q >= 0.0 && q * q == (a - d) * (a - d) + 4.0 * (b * b)
    ensures var l := (a + d + q) / 2.0; (l - a) * (l - d) == b * b && l - a >= 0.0 && l - d >= 0.0
    ensures var l := (a + d - q) / 2.0; (a - l) * (d - l) == b * b && a - l >= 0.0 && d - l >= 0.0
  {
    Square(b);
    assert (q + (d - a)) * (q + (a - d)) == q * q - (a - d) * (a - d);
    if a >= d { SquareOrder(a - d, q); } else {
      assert (d - a) * (d - a) == (a - d) * (a - d);
      SquareOrder(d - a, q);
    }
    var h, k := (q + (d - a)) / 2.0, (q + (a - d)) / 2.0;
    assert h * k == (q + (d - a)) * (q + (a - d)) / 4.0;
  }

  /** Both roots bound the form, from below and from above. */
  lemma FormBounds(a: real, b: real, d: real, q: real, x: real, y: real)
    requires q >= 0.0 && q * q == (a - d) * (a - d) + 4.0 * (b * b)
    ensures var f := a * (x * x) + 2.0 * b * (x * y) + d * (y * y);
      (a + d - q) / 2.0 * (x * x + y * y) <= f <= (a + d + q) / 2.0 * (x * x + y * y)
  {
    Eigenvalue(a, b, d, q);
    var h, l := (a + d + q) / 2.0, (a + d - q) / 2.0;
    DegenerateForm(h - a, b, h - d, x, y);
    DegenerateForm(a - l, -b, d - l, x, y);
    Regroup(h, a, x * x);
    Regroup(h, d, y * y);
    Regroup(l, a, x * x);
    Regroup(l, d, y * y);
    assert h * (x * x + y * y) == h * (x * x) + h * (y * y);
    assert l * (x * x + y * y) == l * (x * x) + l * (y * y);
  }

  lemma Regroup(h: real, a: real, z: real)
    ensures (h - a) * z == h * z - a * z && (a - h) * z == a * z - h * z
  {
  }

  // ----- The bounds

  lemma AbsSquared(a: real)
    ensures Abs(a) * Abs(a) == a * a
  {
  }

  lemma Scaled(low: real, mid: real, high: real, z: real)
    requires low <= mid <= high && z >= 0.0
    ensures low * z <= mid * z <= high * z
  {
    Product(mid - low, z);
    Product(high - mid, z);
    Regroup(mid, low, z);
    Regroup(high, mid, z);
  }

  /** Two axes stretched by |a| and |d|, in either order. */
  lemma AxesBounds(a: real, d: real, x: real, y: real)
    ensures var low, high := Min(Abs(a), Abs(d)), Max(Abs(a), Abs(d)); var f := (a * a) * (x * x) + (d * d) * (y * y);
      0.0 <= low <= high && (low * low) * (x * x + y * y) <= f <= (high * high) * (x * x + y * y)
  {
    var low, high := Min(Abs(a), Abs(d)), Max(Abs(a), Abs(d));
    AbsSquared(a);
    AbsSquared(d);
    SquareGrows(low, Abs(a));
    SquareGrows(low, Abs(d));
    SquareGrows(Abs(a), high);
    SquareGrows(Abs(d), high);
    Square(x);
    Square(y);
    Scaled(low * low, a * a, high * high, x * x);
    Scaled(low * low, d * d, high * high, y * y);
    Spread(low * low, x * x, y * y);
    Spread(high * high, x * x, y * y);
  }

  lemma Spread(k: real, x: real, y: real)
    ensures k * (x + y) == k * x + k * y
  {
  }

  /** The least and the greatest stretch of a direction. */
  ghost predicate Bounds(low: real, high: real, m: Matrix, v: Point) {
    && 0.0 <= low <= high
    && (low * low) * SquaredLength(v) <= SquaredLength(m.TransformDirection(v)) <= (high * high) * SquaredLength(v)
  }

  lemma AxesStretch(a: real, d: real, v: Point)
    ensures SquaredLength(Point(v.x * a, v.y * d)) == (a * a) * (v.x * v.x) + (d * d) * (v.y * v.y)
    ensures SquaredLength(Point(v.y * d, v.x * a)) == (a * a) * (v.x * v.x) + (d * d) * (v.y * v.y)
  {
  }

  lemma DiagonalBounds(m: Matrix, v: Point)
    requires IsDiagonal(m)
    ensures Bounds(Min(Abs(m.m0), Abs(m.m5)), Max(Abs(m.m0), Abs(m.m5)), m, v)
  {
    hide Abs;
    AxesBounds(m.m0, m.m5, v.x, v.y);
    AxesStretch(m.m0, m.m5, v);
    assert m.TransformDirection(v) == Point(v.x * m.m0, v.y * m.m5);
  }

  lemma AntidiagonalBounds(m: Matrix, v: Point)
    requires IsAntidiagonal(m)
    ensures Bounds(Min(Abs(m.m1), Abs(m.m4)), Max(Abs(m.m1), Abs(m.m4)), m, v)
  {
    hide Abs;
    AxesBounds(m.m1, m.m4, v.x, v.y);
    AxesStretch(m.m1, m.m4, v);
    assert m.TransformDirection(v) == Point(v.y * m.m4, v.x * m.m1);
  }

  lemma RootsInOrder(m: Matrix, r: Roots)
    requires RootsOf(m, r)
    ensures r.quadratic >= 0.0 && 0.0 <= r.low <= r.high
    ensures r.low * r.low == (MinusB(m) - r.quadratic) / 2.0 && r.high * r.high == (MinusB(m) + r.quadratic) / 2.0
    ensures r.quadratic * r.quadratic == Discriminant(m)
  {
    hide MinusB, Discriminant;
    RadicandsAreNonNegative(m, r.quadratic);
    SquareOrder(r.low, r.high);
  }

  lemma GeneralBounds(m: Matrix, r: Roots, v: Point)
    requires RootsOf(m, r)
    ensures Bounds(r.low, r.high, m, v)
  {
    hide RootsOf, A2, B2, D2;
    RootsInOrder(m, r);
    StretchIsForm(m, v);
    DiscriminantIs(A2(m), B2(m), D2(m));
    FormBounds(A2(m), B2(m), D2(m), r.quadratic, v.x, v.y);
  }

  /** No direction is stretched by less than the smaller scale or by more than the larger. */
  lemma ScalesBoundStretch(m: Matrix, r: Roots, v: Point)
    requires RootsOf(m, r) && !m.HasPerspective2D()
    ensures Bounds(GetMinScale2D(m, r).value, GetMaxScale2D(m, r).value, m, v)
  {
    hide RootsOf, Bounds, Abs;
    if IsDiagonal(m) {
      DiagonalBounds(m, v);
    } else if IsAntidiagonal(m) {
      AntidiagonalBounds(m, v);
    } else {
      GeneralBounds(m, r, v);
      RootsInOrder(m, r);
    }
  }

  // ----- The bounds are met

  /** A direction (b, l - a) that the form [a b; b d] with eigenvalue l stretches by exactly l. */
  lemma Eigenvector(a: real, b: real, d: real, l: real)
    requires (l - a) * (l - d) == b * b
    ensures var x, y := b, l - a; a * (x * x) + 2.0 * b * (x * y) + d * (y * y) == l * (x * x + y * y)
  {
    var x, y := b, l - a;
    assert (l - d) * (y * y) == (b * b) * y;
    assert l * (x * x + y * y) - (a * (x * x) + 2.0 * b * (x * y) + d * (y * y))
        == (l - a) * (x * x) - 2.0 * b * (x * y) + (l - d) * (y * y);
    assert (l - a) * (x * x) == (b * b) * y && b * (x * y) == (b * b) * y;
  }

  /** Some direction is stretched by exactly l. */
  lemma Attained(a: real, b: real, d: real, l: real) returns (v: Point)
    requires (l - a) * (l - d) == b * b
    ensures v != Point(0.0, 0.0)
    ensures a * (v.x * v.x) + 2.0 * b * (v.x * v.y) + d * (v.y * v.y) == l * (v.x * v.x + v.y * v.y)
  {
    if b == 0.0 && l == a {
      v := Point(1.0, 0.0);
    } else {
      v := Point(b, l - a);
      Eigenvector(a, b, d, l);
    }
  }

  /** v, not zero, is stretched by exactly k. */
  ghost predicate StretchedBy(m: Matrix, v: Point, k: real) {
    v != Point(0.0, 0.0) && SquaredLength(m.TransformDirection(v)) == (k * k) * SquaredLength(v)
  }

  lemma GeneralAttained(m: Matrix, r: Roots) returns (u: Point, v: Point)
    requires RootsOf(m, r)
    ensures StretchedBy(m, u, r.low) && StretchedBy(m, v, r.high)
  {
    hide RootsOf, A2, B2, D2;
    var a, b, d := A2(m), B2(m), D2(m);
    RootsInOrder(m, r);
    DiscriminantIs(a, b, d);
    Eigenvalue(a, b, d, r.quadratic);
    var low, high := r.low * r.low, r.high * r.high;
    assert (low - a) * (low - d) == (a - low) * (d - low);
    u := Attained(a, b, d, low);
    v := Attained(a, b, d, high);
    StretchIsForm(m, u);
    StretchIsForm(m, v);
  }

  lemma AxisStretch(m: Matrix, v: Point, a: real)
    requires v == Point(1.0, 0.0) || v == Point(0.0, 1.0)
    requires m.TransformDirection(v) == Point(a, 0.0) || m.TransformDirection(v) == Point(0.0, a)
    ensures StretchedBy(m, v, Abs(a))
  {
    hide Abs;
    AbsSquared(a);
  }

  lemma AxesAttained(m: Matrix)
    ensures IsDiagonal(m) ==> StretchedBy(m, Point(1.0, 0.0), Abs(m.m0)) && StretchedBy(m, Point(0.0, 1.0), Abs(m.m5))
    ensures IsAntidiagonal(m) ==> StretchedBy(m, Point(1.0, 0.0), Abs(m.m1)) && StretchedBy(m, Point(0.0, 1.0), Abs(m.m4))
  {
    assert m.TransformDirection(Point(1.0, 0.0)) == Point(m.m0, m.m1);
    assert m.TransformDirection(Point(0.0, 1.0)) == Point(m.m4, m.m5);
    hide Abs, StretchedBy, Matrix.TransformDirection;
    if IsDiagonal(m) {
      AxisStretch(m, Point(1.0, 0.0), m.m0);
      AxisStretch(m, Point(0.0, 1.0), m.m5);
    }
    if IsAntidiagonal(m) {
      AxisStretch(m, Point(1.0, 0.0), m.m1);
      AxisStretch(m, Point(0.0, 1.0), m.m4);
    }
  }

  /** In all three branches both scales are the stretch of some direction, so neither bound can be improved. */
  lemma ScalesAreAttained(m: Matrix, r: Roots) returns (u: Point, v: Point)
    requires RootsOf(m, r) && !m.HasPerspective2D()
    ensures StretchedBy(m, u, GetMinScale2D(m, r).value) && StretchedBy(m, v, GetMaxScale2D(m, r).value)
  {
    hide RootsOf, Abs, StretchedBy;
    AxesAttained(m);
    u, v := GeneralAttained(m, r);
    RootsInOrder(m, r);
    var x, y := Point(1.0, 0.0), Point(0.0, 1.0);
    if IsDiagonal(m) {
      u, v := if Abs(m.m5) < Abs(m.m0) then y else x, if Abs(m.m0) < Abs(m.m5) then y else x;
    } else if IsAntidiagonal(m) {
      u, v := if Abs(m.m4) < Abs(m.m1) then y else x, if Abs(m.m1) < Abs(m.m4) then y else x;
    }
  }
}
