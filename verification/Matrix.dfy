/** The 4x4 matrix, column by column, and the parts of it that act on points of the plane
    (src/geometry/matrix.h). */
module Matrices {
  import opened Geometry

  datatype Vector3 = Vector3(x: real, y: real, z: real)

  datatype Matrix = Matrix(
    m0: real, m1: real, m2: real, m3: real,
    m4: real, m5: real, m6: real, m7: real,
    m8: real, m9: real, m10: real, m11: real,
    m12: real, m13: real, m14: real, m15: real)
  {
    predicate HasPerspective2D() { m3 != 0.0 || m7 != 0.0 || m15 != 1.0 }

    /** x and y before the division, and w. */
    function TransformHomogenous(p: Point): Vector3 {
      Vector3(p.x * m0 + p.y * m4 + m12, p.x * m1 + p.y * m5 + m13, p.x * m3 + p.y * m7 + m15)
    }

    function TransformPoint(p: Point): Point {
      var w := p.x * m3 + p.y * m7 + m15;
      var k := if w != 0.0 then 1.0 / w else w;
      Point((p.x * m0 + p.y * m4 + m12) * k, (p.x * m1 + p.y * m5 + m13) * k)
    }

    function TransformDirection(v: Point): Point { Point(v.x * m0 + v.y * m4, v.x * m1 + v.y * m5) }
  }

  /** The last column is the image of the origin; the first two are what one step to the right and one step
      down add to any image. */
  lemma TransformIsByColumns(m: Matrix, p: Point)
    ensures m.TransformHomogenous(Point(0.0, 0.0)) == Vector3(m.m12, m.m13, m.m15)
    ensures var v, x, y := m.TransformHomogenous(p), m.TransformHomogenous(Point(p.x + 1.0, p.y)), m.TransformHomogenous(Point(p.x, p.y + 1.0));
      && x.x - v.x == m.m0 && x.y - v.y == m.m1 && x.z - v.z == m.m3
      && y.x - v.x == m.m4 && y.y - v.y == m.m5 && y.z - v.z == m.m7
  {
    assert (p.x + 1.0) * m.m0 == p.x * m.m0 + m.m0 && (p.y + 1.0) * m.m4 == p.y * m.m4 + m.m4;
    assert (p.x + 1.0) * m.m1 == p.x * m.m1 + m.m1 && (p.y + 1.0) * m.m5 == p.y * m.m5 + m.m5;
    assert (p.x + 1.0) * m.m3 == p.x * m.m3 + m.m3 && (p.y + 1.0) * m.m7 == p.y * m.m7 + m.m7;
  }

  /** A direction is transformed as the difference of the points it joins. */
  lemma DirectionIsDifference(m: Matrix, p: Point, q: Point)
    ensures var d := m.TransformDirection(Point(q.x - p.x, q.y - p.y));
      && d.x == m.TransformHomogenous(q).x - m.TransformHomogenous(p).x
      && d.y == m.TransformHomogenous(q).y - m.TransformHomogenous(p).y
  {
    assert (q.x - p.x) * m.m0 == q.x * m.m0 - p.x * m.m0 && (q.y - p.y) * m.m4 == q.y * m.m4 - p.y * m.m4;
    assert (q.x - p.x) * m.m1 == q.x * m.m1 - p.x * m.m1 && (q.y - p.y) * m.m5 == q.y * m.m5 - p.y * m.m5;
  }

  /** Perspective is there exactly when w is not one at every point. */
  lemma PerspectiveExactly(m: Matrix)
    ensures m.HasPerspective2D() <==> exists p :: m.TransformHomogenous(p).z != 1.0
  {
    if m.HasPerspective2D() {
      TransformIsByColumns(m, Point(0.0, 0.0));
      var o, x, y := Point(0.0, 0.0), Point(1.0, 0.0), Point(0.0, 1.0);
      assert m.TransformHomogenous(o).z != 1.0 || m.TransformHomogenous(x).z != 1.0 || m.TransformHomogenous(y).z != 1.0;
    }
  }

  /** A point is divided by its w; where w is zero it goes to the origin. */
  lemma PointIsDivided(m: Matrix, p: Point)
    ensures var v, q := m.TransformHomogenous(p), m.TransformPoint(p);
      if v.z != 0.0 then q == Point(v.x / v.z, v.y / v.z) else q == Point(0.0, 0.0)
  {
    var v := m.TransformHomogenous(p);
    if v.z != 0.0 {
      DivideTimes(v.x, v.z);
      DivideTimes(v.y, v.z);
    }
  }

  lemma DivideTimes(a: real, b: real)
    requires b != 0.0
    ensures a * (1.0 / b) == a / b
  {
  }
}
