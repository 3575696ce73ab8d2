/** Order and products of reals. */
module Reals {
  lemma Product(a: real, b: real)
    requires a >= 0.0 && b >= 0.0
    ensures a * b >= 0.0
  {
  }

  lemma Positive(a: real, b: real)
    requires a > 0.0 && b > 0.0
    ensures a * b > 0.0
  {
  }

  lemma Weighted(a: real, b: real, w: real)
    requires a <= b && w >= 0.0
    ensures w * a <= w * b
  {
    Product(w, b - a);
  }

  lemma SquareGrows(a: real, b: real)
    requires 0.0 <= a <= b
    ensures a * a <= b * b
  {
    Weighted(a, b, a);
    Weighted(a, b, b);
  }
}
