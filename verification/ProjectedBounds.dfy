/** TransformAndClipBounds holds the projection of every point in front of the near plane, and
    nothing smaller does. */
module ProjectedBounds {
  import opened Geometry
  import opened Matrices
  import opened PerspectiveClip
  import opened Reals
  import opened TransformedBounds
  import opened Wrappers

  // ----- One side of the box

  function CrossValue(ui: real, wi: real, uj: real, wj: real): real
    requires wi != wj
  {
    var t := (MINIMUM_HOMOGENOUS - wi) / (wj - wi);
    ((1.0 - t) * ui + t * uj) / MINIMUM_HOMOGENOUS
  }

  /** Along one edge of the rectangle, all that clipping keeps is at most `bound`. */
  ghost predicate EdgeBelow(ui: real, wi: real, uj: real, wj: real, bound: real) {
    && (wi >= MINIMUM_HOMOGENOUS ==> ui <= bound * wi)
    && (wi < MINIMUM_HOMOGENOUS <= wj ==> CrossValue(ui, wi, uj, wj) <= bound)
    && (wj < MINIMUM_HOMOGENOUS <= wi ==> CrossValue(uj, wj, ui, wi) <= bound)
  }

  lemma CrossingIsCross(ui: real, wi: real, uj: real, wj: real, bound: real)
    requires wi < MINIMUM_HOMOGENOUS <= wj && CrossValue(ui, wi, uj, wj) <= bound
    ensures Cross(ui - bound * wi, wi - MINIMUM_HOMOGENOUS, uj - bound * wj, wj - MINIMUM_HOMOGENOUS)
  {
    var k := MINIMUM_HOMOGENOUS;
    var d := wj - wi;
    var t := (k - wi) / d;
    assert t * d == k - wi;
    assert (1.0 - t) * d == wj - k;
    var n := (1.0 - t) * ui + t * uj;
    assert n <= bound * k;
    Product(bound * k - n, d);
    assert (bound * k - n) * d == bound * k * d - n * d;
    assert n * d == ((1.0 - t) * d) * ui + (t * d) * uj;
    assert (wj - k) * ui + (k - wi) * uj <= bound * k * d;
    assert bound * k * d == (wj - k) * (bound * wi) + (k - wi) * (bound * wj);
  }

  lemma EdgeSides(ui: real, wi: real, uj: real, wj: real, bound: real, gi: real, hi: real, gj: real, hj: real)
    requires EdgeBelow(ui, wi, uj, wj, bound)
    requires gi == ui - bound * wi && gj == uj - bound * wj
    requires hi == wi - MINIMUM_HOMOGENOUS && hj == wj - MINIMUM_HOMOGENOUS
    ensures Sides(gi, hi, gj, hj)
  {
    hide Cross, CrossValue;
    if wi < MINIMUM_HOMOGENOUS <= wj { CrossingIsCross(ui, wi, uj, wj, bound); }
    if wj < MINIMUM_HOMOGENOUS <= wi { CrossingIsCross(uj, wj, ui, wi, bound); }
  }

  function Plus(u: Affine, k: real, w: Affine): Affine { Affine(u.a + k * w.a, u.b + k * w.b, u.c + k * w.c) }

  lemma PlusAt(u: Affine, k: real, w: Affine, p: Point)
    ensures Plus(u, k, w).At(p) == u.At(p) + k * w.At(p)
  {
    var x, y := p.x, p.y;
    assert x * (u.a + k * w.a) == x * u.a + k * (x * w.a);
    assert y * (u.b + k * w.b) == y * u.b + k * (y * w.b);
    assert k * (x * w.a + y * w.b + w.c) == k * (x * w.a) + k * (y * w.b) + k * w.c;
  }

  lemma OppositeCorners(u: Affine, r: Rect)
    ensures u.At(Point(r.left, r.top)) + u.At(Point(r.right, r.bottom))
         == u.At(Point(r.right, r.top)) + u.At(Point(r.left, r.bottom))
  {
  }

  ghost predicate SideBelow(u: Affine, w: Affine, r: Rect, bound: real) {
    var ul, ur, lr, ll := Point(r.left, r.top), Point(r.right, r.top), Point(r.right, r.bottom), Point(r.left, r.bottom);
    && EdgeBelow(u.At(ul), w.At(ul), u.At(ur), w.At(ur), bound)
    && EdgeBelow(u.At(ur), w.At(ur), u.At(lr), w.At(lr), bound)
    && EdgeBelow(u.At(lr), w.At(lr), u.At(ll), w.At(ll), bound)
    && EdgeBelow(u.At(ll), w.At(ll), u.At(ul), w.At(ul), bound)
  }

  /** So it is at most `bound` all over the visible part of the rectangle. */
  lemma SideIsSound(u: Affine, w: Affine, r: Rect, bound: real, p: Point)
    requires SideBelow(u, w, r, bound) && Inside(r, p) && w.At(p) >= MINIMUM_HOMOGENOUS
    ensures u.At(p) <= bound * w.At(p)
  {
    hide Affine.At, EdgeBelow, Sides, Plus;
    var ul, ur, lr, ll := Point(r.left, r.top), Point(r.right, r.top), Point(r.right, r.bottom), Point(r.left, r.bottom);
    var g := Plus(u, -bound, w);
    var h := Plus(w, -MINIMUM_HOMOGENOUS, Affine(0.0, 0.0, 1.0));
    CornerValues(u, w, bound, ul);
    CornerValues(u, w, bound, ur);
    CornerValues(u, w, bound, lr);
    CornerValues(u, w, bound, ll);
    CornerValues(u, w, bound, p);
    EdgeSides(u.At(ul), w.At(ul), u.At(ur), w.At(ur), bound, g.At(ul), h.At(ul), g.At(ur), h.At(ur));
    EdgeSides(u.At(ur), w.At(ur), u.At(lr), w.At(lr), bound, g.At(ur), h.At(ur), g.At(lr), h.At(lr));
    EdgeSides(u.At(lr), w.At(lr), u.At(ll), w.At(ll), bound, g.At(lr), h.At(lr), g.At(ll), h.At(ll));
    EdgeSides(u.At(ll), w.At(ll), u.At(ul), w.At(ul), bound, g.At(ll), h.At(ll), g.At(ul), h.At(ul));
    OppositeCorners(g, r);
    OppositeCorners(h, r);
    var mu := Multiplier(g.At(ul), h.At(ul), g.At(ur), h.At(ur), g.At(lr), h.At(lr), g.At(ll), h.At(ll));
    PlusAt(g, mu, h, ul);
    PlusAt(g, mu, h, ur);
    PlusAt(g, mu, h, lr);
    PlusAt(g, mu, h, ll);
    NotPositiveInside(Plus(g, mu, h), r, p);
    PlusAt(g, mu, h, p);
    Product(mu, h.At(p));
  }

  lemma CornerValues(u: Affine, w: Affine, bound: real, p: Point)
    ensures Plus(u, -bound, w).At(p) == u.At(p) - bound * w.At(p)
    ensures Plus(w, -MINIMUM_HOMOGENOUS, Affine(0.0, 0.0, 1.0)).At(p) == w.At(p) - MINIMUM_HOMOGENOUS
  {
    PlusAt(u, -bound, w, p);
    PlusAt(w, -MINIMUM_HOMOGENOUS, Affine(0.0, 0.0, 1.0), p);
  }

  // ----- All four sides

  /** What clipping keeps of one edge lies in the box. */
  ghost predicate EdgeInside(b: Rect, v: Vector3, next: Vector3) {
    && (Visible(v) ==> Inside(b, Project(v)))
    && (!Visible(v) && Visible(next) ==> Inside(b, Crossing(v, next)))
    && (!Visible(next) && Visible(v) ==> Inside(b, Crossing(next, v)))
  }

  lemma TimesGrows(a: real, b: real, w: real)
    requires a < b && w > 0.0
    ensures a * w < b * w
  {
    Positive(b - a, w);
    assert (b - a) * w == b * w - a * w;
  }

  lemma TimesOrder(a: real, b: real, w: real)
    requires w > 0.0
    ensures a <= b <==> a * w <= b * w
  {
    if a < b {
      TimesGrows(a, b, w);
    } else if b < a {
      TimesGrows(b, a, w);
    }
  }

  lemma DividedBelow(u: real, w: real, bound: real)
    requires w > 0.0
    ensures u / w <= bound <==> u <= bound * w
    ensures u / w >= bound <==> u >= bound * w
  {
    var q := u / w;
    assert q * w == u;
    TimesOrder(q, bound, w);
    TimesOrder(bound, q, w);
  }

  lemma NegatedCross(ui: real, wi: real, uj: real, wj: real)
    requires wi != wj
    ensures CrossValue(-ui, wi, -uj, wj) == -CrossValue(ui, wi, uj, wj)
  {
    var t := (MINIMUM_HOMOGENOUS - wi) / (wj - wi);
    assert (1.0 - t) * -ui + t * -uj == -((1.0 - t) * ui + t * uj);
  }

  lemma VisibleSides(b: Rect, v: Vector3)
    requires Visible(v) && Inside(b, Project(v))
    ensures v.x <= b.right * v.z && -v.x <= -b.left * v.z && v.y <= b.bottom * v.z && -v.y <= -b.top * v.z
  {
    DividedBelow(v.x, v.z, b.right);
    DividedBelow(v.x, v.z, b.left);
    DividedBelow(v.y, v.z, b.bottom);
    DividedBelow(v.y, v.z, b.top);
    assert -b.left * v.z == -(b.left * v.z) && -b.top * v.z == -(b.top * v.z);
  }

  lemma CrossingSides(b: Rect, v: Vector3, next: Vector3)
    requires !Visible(v) && Visible(next) && Inside(b, Crossing(v, next))
    ensures CrossValue(v.x, v.z, next.x, next.z) <= b.right && CrossValue(-v.x, v.z, -next.x, next.z) <= -b.left
    ensures CrossValue(v.y, v.z, next.y, next.z) <= b.bottom && CrossValue(-v.y, v.z, -next.y, next.z) <= -b.top
  {
    NegatedCross(v.x, v.z, next.x, next.z);
    NegatedCross(v.y, v.z, next.y, next.z);
    assert Crossing(v, next) == Point(CrossValue(v.x, v.z, next.x, next.z), CrossValue(v.y, v.z, next.y, next.z));
    hide CrossValue, Crossing;
  }

  lemma EdgeHasSides(b: Rect, v: Vector3, next: Vector3)
    requires EdgeInside(b, v, next)
    ensures EdgeBelow(v.x, v.z, next.x, next.z, b.right) && EdgeBelow(-v.x, v.z, -next.x, next.z, -b.left)
    ensures EdgeBelow(v.y, v.z, next.y, next.z, b.bottom) && EdgeBelow(-v.y, v.z, -next.y, next.z, -b.top)
  {
    hide Project, Crossing, CrossValue, Inside;
    if Visible(v) { VisibleSides(b, v); }
    if !Visible(v) && Visible(next) { CrossingSides(b, v, next); }
    if !Visible(next) && Visible(v) { CrossingSides(b, next, v); }
  }

  lemma ClipPointsHold(c: Corners, b: Rect)
    requires forall q :: q in c.ClipPoints() ==> Inside(b, q)
    ensures EdgeInside(b, c.ul, c.ur) && EdgeInside(b, c.ur, c.lr) && EdgeInside(b, c.lr, c.ll) && EdgeInside(b, c.ll, c.ul)
  {
    hide Visible, Inside, Project, Crossing;
    var p1, p2, p3, p4 := Clipped(c.ll, c.ul, c.ur), Clipped(c.ul, c.ur, c.lr), Clipped(c.ur, c.lr, c.ll), Clipped(c.lr, c.ll, c.ul);
    assert forall q :: q in p1 || q in p2 || q in p3 || q in p4 ==> q in c.ClipPoints();
    CornerHolds(c.ll, c.ul, c.ur, b);
    CornerHolds(c.ul, c.ur, c.lr, b);
    CornerHolds(c.ur, c.lr, c.ll, b);
    CornerHolds(c.lr, c.ll, c.ul, b);
  }

  lemma CornerHolds(left: Vector3, v: Vector3, right: Vector3, b: Rect)
    requires forall q :: q in Clipped(left, v, right) ==> Inside(b, q)
    ensures Visible(v) ==> Inside(b, Project(v))
    ensures !Visible(v) && Visible(left) ==> Inside(b, Crossing(v, left))
    ensures !Visible(v) && Visible(right) ==> Inside(b, Crossing(v, right))
  {
    hide Inside, Project, Crossing;
    if Visible(v) {
      assert Project(v) in Clipped(left, v, right);
    } else {
      if Visible(left) { assert Crossing(v, left) in Interpolated(v, left); }
      if Visible(right) { assert Crossing(v, right) in Interpolated(v, right); }
    }
  }

  function W(m: Matrix): Affine { Affine(m.m3, m.m7, m.m15) }

  function Negated(u: Affine): Affine { Affine(-u.a, -u.b, -u.c) }

  lemma NegatedAt(u: Affine, p: Point)
    ensures Negated(u).At(p) == -u.At(p)
  {
  }

  lemma CoordinatesAt(m: Matrix, p: Point)
    ensures var v := m.TransformHomogenous(p);
      && v.x == Affine(m.m0, m.m4, m.m12).At(p) && v.y == Affine(m.m1, m.m5, m.m13).At(p) && v.z == W(m).At(p)
      && -v.x == Negated(Affine(m.m0, m.m4, m.m12)).At(p) && -v.y == Negated(Affine(m.m1, m.m5, m.m13)).At(p)
  {
    hide Affine.At, Matrix.TransformHomogenous, W, Negated;
    XAt(m, p);
    YAt(m, p);
    ZAt(m, p);
    NegatedAt(Affine(m.m0, m.m4, m.m12), p);
    NegatedAt(Affine(m.m1, m.m5, m.m13), p);
  }

  lemma XAt(m: Matrix, p: Point)
    ensures m.TransformHomogenous(p).x == Affine(m.m0, m.m4, m.m12).At(p)
  {
  }

  lemma YAt(m: Matrix, p: Point)
    ensures m.TransformHomogenous(p).y == Affine(m.m1, m.m5, m.m13).At(p)
  {
  }

  lemma ZAt(m: Matrix, p: Point)
    ensures m.TransformHomogenous(p).z == W(m).At(p)
  {
  }

  lemma BoxIsSound(r: Rect, m: Matrix, b: Rect, p: Point)
    requires Inside(r, p) && Visible(m.TransformHomogenous(p))
    requires var c := CornersOf(r, m);
      EdgeInside(b, c.ul, c.ur) && EdgeInside(b, c.ur, c.lr) && EdgeInside(b, c.lr, c.ll) && EdgeInside(b, c.ll, c.ul)
    ensures Inside(b, Project(m.TransformHomogenous(p)))
  {
    var x, y, w := Affine(m.m0, m.m4, m.m12), Affine(m.m1, m.m5, m.m13), W(m);
    var c := CornersOf(r, m);
    hide EdgeInside, EdgeBelow, Affine.At, W, Negated, Matrix.TransformHomogenous;
    CoordinatesAt(m, Point(r.left, r.top));
    CoordinatesAt(m, Point(r.right, r.top));
    CoordinatesAt(m, Point(r.right, r.bottom));
    CoordinatesAt(m, Point(r.left, r.bottom));
    CoordinatesAt(m, p);
    EdgeHasSides(b, c.ul, c.ur);
    EdgeHasSides(b, c.ur, c.lr);
    EdgeHasSides(b, c.lr, c.ll);
    EdgeHasSides(b, c.ll, c.ul);
    SideIsSound(x, w, r, b.right, p);
    SideIsSound(Negated(x), w, r, -b.left, p);
    SideIsSound(y, w, r, b.bottom, p);
    SideIsSound(Negated(y), w, r, -b.top, p);
    InsideFromSides(b, m.TransformHomogenous(p));
  }

  lemma InsideFromSides(b: Rect, v: Vector3)
    requires v.z > 0.0
    requires v.x <= b.right * v.z && -v.x <= -b.left * v.z && v.y <= b.bottom * v.z && -v.y <= -b.top * v.z
    ensures Inside(b, Project(v))
  {
    assert -b.left * v.z == -(b.left * v.z) && -b.top * v.z == -(b.top * v.z);
    DividedBelow(v.x, v.z, b.right);
    DividedBelow(v.x, v.z, b.left);
    DividedBelow(v.y, v.z, b.bottom);
    DividedBelow(v.y, v.z, b.top);
  }

  // ----- Soundness

  lemma FlatBoundsHold(r: Rect, m: Matrix, b: Rect)
    requires !m.HasPerspective2D() && forall q :: q in TransformedPoints(r, m) ==> Inside(b, q)
    ensures var c := CornersOf(r, m);
      EdgeInside(b, c.ul, c.ur) && EdgeInside(b, c.ur, c.lr) && EdgeInside(b, c.lr, c.ll) && EdgeInside(b, c.ll, c.ul)
  {
    hide Inside, Crossing;
    FlatPoint(m, Point(r.left, r.top));
    FlatPoint(m, Point(r.right, r.top));
    FlatPoint(m, Point(r.right, r.bottom));
    FlatPoint(m, Point(r.left, r.bottom));
    var points := TransformedPoints(r, m);
    assert points[0] in points && points[1] in points && points[2] in points && points[3] in points;
    hide Project, Matrix.TransformPoint, Matrix.TransformHomogenous;
  }

  /** Without perspective w is one everywhere, and the point product is the projection. */
  lemma FlatPoint(m: Matrix, p: Point)
    requires !m.HasPerspective2D()
    ensures var v := m.TransformHomogenous(p); Visible(v) && m.TransformPoint(p) == Project(v)
  {
    assert p.x * m.m3 + p.y * m.m7 + m.m15 == 1.0;
  }

  /** Each point of the rectangle in front of the near plane projects into the box that comes
      back: without perspective, with it, and when every corner is clipped. */
  lemma BoundsAreSound(r: Rect, m: Matrix, p: Point)
    requires r.ContainsInclusive(p) && m.TransformHomogenous(p).z >= 1.0 / 16384.0
    ensures Inside(TransformAndClipBounds(r, m), Project(m.TransformHomogenous(p)))
  {
    hide Project, EdgeInside, Matrix.HasPerspective2D, Matrix.TransformHomogenous, BoundsOf, CornersOf,
      TransformedPoints, Corners.ClipPoints;
    var b := TransformAndClipBounds(r, m);
    if !m.HasPerspective2D() {
      FourPoints(r, m);
      forall q | q in TransformedPoints(r, m) ensures Inside(b, q) { BoundsHold(TransformedPoints(r, m), q); }
      FlatBoundsHold(r, m, b);
    } else {
      var points := CornersOf(r, m).ClipPoints();
      forall q | q in points ensures Inside(b, q) { BoundsHold(points, q); }
      ClipPointsHold(CornersOf(r, m), b);
    }
    BoxIsSound(r, m, b, p);
  }

  lemma FourPoints(r: Rect, m: Matrix)
    ensures |TransformedPoints(r, m)| == 4
  {
  }

  // ----- Tightness

  function Mix(p: Point, q: Point, t: real): Point {
    Point((1.0 - t) * p.x + t * q.x, (1.0 - t) * p.y + t * q.y)
  }

  lemma AffineMix(u: Affine, p: Point, q: Point, t: real)
    ensures u.At(Mix(p, q, t)) == (1.0 - t) * u.At(p) + t * u.At(q)
  {
    var s := 1.0 - t;
    MixTerm(p.x, q.x, u.a, s, t);
    MixTerm(p.y, q.y, u.b, s, t);
    assert s * u.c + t * u.c == u.c;
    assert s * u.At(p) == s * (p.x * u.a) + s * (p.y * u.b) + s * u.c;
    assert t * u.At(q) == t * (q.x * u.a) + t * (q.y * u.b) + t * u.c;
  }

  lemma MixTerm(x: real, y: real, a: real, s: real, t: real)
    ensures (s * x + t * y) * a == s * (x * a) + t * (y * a)
  {
  }

  lemma MixInside(r: Rect, p: Point, q: Point, t: real)
    requires Inside(r, p) && Inside(r, q) && 0.0 <= t <= 1.0
    ensures Inside(r, Mix(p, q, t))
  {
    MixBetween(p.x, q.x, t, r.left, r.right);
    MixBetween(p.y, q.y, t, r.top, r.bottom);
  }

  lemma MixBetween(a: real, b: real, t: real, low: real, high: real)
    requires 0.0 <= t <= 1.0 && low <= a <= high && low <= b <= high
    ensures low <= (1.0 - t) * a + t * b <= high
  {
    var s := 1.0 - t;
    Product(s, a - low);
    Product(t, b - low);
    Product(s, high - a);
    Product(t, high - b);
    assert s * (a - low) + t * (b - low) == s * a + t * b - low;
    assert s * (high - a) + t * (high - b) == high - (s * a + t * b);
  }

  /** A point that is in the rectangle, in front of the plane, and projects to q. */
  ghost predicate IsImage(r: Rect, m: Matrix, q: Point) {
    exists p :: Inside(r, p) && m.TransformHomogenous(p).z >= 1.0 / 16384.0 && Project(m.TransformHomogenous(p)) == q
  }

  lemma LandsOnPlane(a: real, b: real, k: real)
    requires a < k <= b
    ensures var t := (k - a) / (b - a); 0.0 <= t <= 1.0 && (1.0 - t) * a + t * b == k
  {
    var d := b - a;
    var t := (k - a) / d;
    assert t * d == k - a;
    TimesOrder(t, 1.0, d);
    TimesOrder(0.0, t, d);
    assert (1.0 - t) * a + t * b == a + t * d;
  }

  lemma CrossingIsImage(r: Rect, m: Matrix, a: Point, b: Point)
    requires Inside(r, a) && Inside(r, b)
    requires !Visible(m.TransformHomogenous(a)) && Visible(m.TransformHomogenous(b))
    ensures IsImage(r, m, Crossing(m.TransformHomogenous(a), m.TransformHomogenous(b)))
  {
    hide Matrix.TransformHomogenous, Mix, Inside;
    var v, w := m.TransformHomogenous(a), m.TransformHomogenous(b);
    var t := (MINIMUM_HOMOGENOUS - v.z) / (w.z - v.z);
    LandsOnPlane(v.z, w.z, MINIMUM_HOMOGENOUS);
    var p := Mix(a, b, t);
    MixInside(r, a, b, t);
    MixTransformed(m, a, b, t);
    var x := m.TransformHomogenous(p);
    assert Project(x) == Crossing(v, w);
  }

  lemma MixTransformed(m: Matrix, a: Point, b: Point, t: real)
    ensures var v, w, x := m.TransformHomogenous(a), m.TransformHomogenous(b), m.TransformHomogenous(Mix(a, b, t));
      && x.x == (1.0 - t) * v.x + t * w.x && x.y == (1.0 - t) * v.y + t * w.y && x.z == (1.0 - t) * v.z + t * w.z
  {
    CoordinatesAt(m, a);
    CoordinatesAt(m, b);
    CoordinatesAt(m, Mix(a, b, t));
    AffineMix(Affine(m.m0, m.m4, m.m12), a, b, t);
    AffineMix(Affine(m.m1, m.m5, m.m13), a, b, t);
    AffineMix(W(m), a, b, t);
    hide Matrix.TransformHomogenous, Affine.At, Mix;
  }

  lemma CornerImages(r: Rect, m: Matrix, left: Point, a: Point, right: Point, q: Point)
    requires Inside(r, left) && Inside(r, a) && Inside(r, right)
    requires q in Clipped(m.TransformHomogenous(left), m.TransformHomogenous(a), m.TransformHomogenous(right))
    ensures IsImage(r, m, q)
  {
    hide Crossing, Project, Matrix.TransformHomogenous, Inside;
    if !Visible(m.TransformHomogenous(a)) {
      if Visible(m.TransformHomogenous(left)) { CrossingIsImage(r, m, a, left); }
      if Visible(m.TransformHomogenous(right)) { CrossingIsImage(r, m, a, right); }
    }
  }

  /** What clipping inserts is the projection of some visible point of the rectangle. */
  lemma ClipPointsAreImages(r: Rect, m: Matrix, q: Point)
    requires !r.IsEmpty() && q in CornersOf(r, m).ClipPoints()
    ensures IsImage(r, m, q)
  {
    hide Clipped, IsImage, Matrix.TransformHomogenous;
    var ul, ur, lr, ll := Point(r.left, r.top), Point(r.right, r.top), Point(r.right, r.bottom), Point(r.left, r.bottom);
    var c := CornersOf(r, m);
    if q in Clipped(c.ll, c.ul, c.ur) { CornerImages(r, m, ll, ul, ur, q); }
    else if q in Clipped(c.ul, c.ur, c.lr) { CornerImages(r, m, ul, ur, lr, q); }
    else if q in Clipped(c.ur, c.lr, c.ll) { CornerImages(r, m, ur, lr, ll, q); }
    else { CornerImages(r, m, lr, ll, ul, q); }
  }

  lemma FlatPointsAreImages(r: Rect, m: Matrix, q: Point)
    requires !r.IsEmpty() && !m.HasPerspective2D() && q in TransformedPoints(r, m)
    ensures IsImage(r, m, q)
  {
    var ul, ur, lr, ll := Point(r.left, r.top), Point(r.right, r.top), Point(r.right, r.bottom), Point(r.left, r.bottom);
    FlatPoint(m, ul);
    FlatPoint(m, ur);
    FlatPoint(m, ll);
    FlatPoint(m, lr);
    hide Matrix.TransformHomogenous, Matrix.TransformPoint, Visible, Project, Matrix.HasPerspective2D;
    assert Inside(r, ul) && Inside(r, ur) && Inside(r, ll) && Inside(r, lr);
  }

  /** With every corner clipped nothing of the rectangle is visible. */
  lemma AllClippedHidesAll(r: Rect, m: Matrix, p: Point)
    requires Inside(r, p)
    requires var c := CornersOf(r, m); !Visible(c.ul) && !Visible(c.ur) && !Visible(c.lr) && !Visible(c.ll)
    ensures !Visible(m.TransformHomogenous(p))
  {
    var c := CornersOf(r, m);
    var most := Max(Max(c.ul.z, c.ur.z), Max(c.lr.z, c.ll.z));
    var e := Plus(W(m), -most, Affine(0.0, 0.0, 1.0));
    LessConstant(m, most, Point(r.left, r.top));
    LessConstant(m, most, Point(r.right, r.top));
    LessConstant(m, most, Point(r.right, r.bottom));
    LessConstant(m, most, Point(r.left, r.bottom));
    LessConstant(m, most, p);
    hide Plus, Affine.At, W, Matrix.TransformHomogenous;
    NotPositiveInside(e, r, p);
  }

  lemma LessConstant(m: Matrix, k: real, p: Point)
    ensures Plus(W(m), -k, Affine(0.0, 0.0, 1.0)).At(p) == m.TransformHomogenous(p).z - k
  {
    PlusAt(W(m), -k, Affine(0.0, 0.0, 1.0), p);
    CoordinatesAt(m, p);
  }

  lemma NoPointsHidesAll(r: Rect, m: Matrix, p: Point)
    requires Inside(r, p) && CornersOf(r, m).ClipPoints() == []
    ensures !Visible(m.TransformHomogenous(p))
  {
    hide Visible, Inside, Matrix.TransformHomogenous, Project, Crossing;
    var c := CornersOf(r, m);
    ClippedAway(c.ll, c.ul, c.ur);
    ClippedAway(c.ul, c.ur, c.lr);
    ClippedAway(c.ur, c.lr, c.ll);
    ClippedAway(c.lr, c.ll, c.ul);
    AllClippedHidesAll(r, m, p);
  }

  lemma ClippedAway(left: Vector3, v: Vector3, right: Vector3)
    ensures Clipped(left, v, right) == [] ==> !Visible(v)
  {
  }

  /** The box is the smallest that does it: any box holding the projections of all visible points
      of the rectangle holds it; and nothing is visible just when clipping leaves no point. */
  lemma BoundsAreTight(r: Rect, m: Matrix, s: Rect, visible: Point)
    requires r.ContainsInclusive(visible) && m.TransformHomogenous(visible).z >= 1.0 / 16384.0
    requires forall q :: IsImage(r, m, q) ==> Inside(s, q)
    ensures BoxWithin(TransformAndClipBounds(r, m), s)
  {
    hide IsImage, BoundsOf, BoxWithin, Matrix.HasPerspective2D, Matrix.TransformHomogenous, CornersOf,
      TransformedPoints, Corners.ClipPoints;
    if !m.HasPerspective2D() {
      FourPoints(r, m);
      forall q | q in TransformedPoints(r, m) ensures Inside(s, q) { FlatPointsAreImages(r, m, q); }
      BoundsAreLeast(TransformedPoints(r, m), s);
    } else {
      var points := CornersOf(r, m).ClipPoints();
      if points == [] {
        NoPointsHidesAll(r, m, visible);
      } else {
        forall q | q in points ensures Inside(s, q) { ClipPointsAreImages(r, m, q); }
        BoundsAreLeast(points, s);
      }
    }
  }

  lemma NothingVisible(r: Rect, m: Matrix)
    requires !r.IsEmpty()
    ensures CornersOf(r, m).ClipPoints() == [] <==>
      forall p :: r.ContainsInclusive(p) ==> m.TransformHomogenous(p).z < 1.0 / 16384.0
    ensures m.HasPerspective2D() && CornersOf(r, m).ClipPoints() == [] ==> TransformAndClipBounds(r, m) == ZERO_RECT
  {
    hide Matrix.TransformHomogenous, Project, CornersOf, Corners.ClipPoints;
    var points := CornersOf(r, m).ClipPoints();
    if points == [] {
      forall p | r.ContainsInclusive(p) ensures m.TransformHomogenous(p).z < 1.0 / 16384.0 { NoPointsHidesAll(r, m, p); }
    } else {
      ClipPointsAreImages(r, m, points[0]);
    }
  }

  /** An empty or reversed rectangle has the zero rectangle as its bounds, whatever the matrix. */
  lemma EmptyHasZeroBounds(r: Rect, m: Matrix)
    requires r.left >= r.right || r.top >= r.bottom
    ensures TransformAndClipBounds(r, m) == Rect(0.0, 0.0, 0.0, 0.0) && TransformBounds(r, m) == Rect(0.0, 0.0, 0.0, 0.0)
  {
  }

  // ----- The comment's conjecture

  function Count(b: bool): nat { if b then 1 else 0 }

  /** w is affine, so opposite corners cannot be the clipped pair, and clipping inserts at most five
      points: 4, 5, 4, 3 or none, as no, one, two, three or four corners are clipped. */
  lemma AtMostFivePoints(r: Rect, m: Matrix)
    ensures var c := CornersOf(r, m);
      var clipped := Count(!Visible(c.ul)) + Count(!Visible(c.ur)) + Count(!Visible(c.lr)) + Count(!Visible(c.ll));
      && |c.ClipPoints()| <= 5
      && |c.ClipPoints()| == (if clipped == 4 then 0 else if clipped == 3 then 3 else if clipped == 1 then 5 else 4)
  {
    var c := CornersOf(r, m);
    OppositeCorners(W(m), r);
    CoordinatesAt(m, Point(r.left, r.top));
    CoordinatesAt(m, Point(r.right, r.top));
    CoordinatesAt(m, Point(r.right, r.bottom));
    CoordinatesAt(m, Point(r.left, r.bottom));
    hide Project, Crossing, Matrix.TransformHomogenous;
    assert c.ul.z + c.lr.z == c.ur.z + c.ll.z;
    PointCount(c);
  }

  lemma PointCount(c: Corners)
    requires c.ul.z + c.lr.z == c.ur.z + c.ll.z
    ensures var clipped := Count(!Visible(c.ul)) + Count(!Visible(c.ur)) + Count(!Visible(c.lr)) + Count(!Visible(c.ll));
      |c.ClipPoints()| == (if clipped == 4 then 0 else if clipped == 3 then 3 else if clipped == 1 then 5 else 4)
  {
    hide Project, Crossing, Interpolated, Clipped;
    var total := |Clipped(c.ll, c.ul, c.ur)| + |Clipped(c.ul, c.ur, c.lr)| + |Clipped(c.ur, c.lr, c.ll)| + |Clipped(c.lr, c.ll, c.ul)|;
    assert |c.ClipPoints()| == total;
  }
}
