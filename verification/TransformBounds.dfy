/** The bounds of a transformed rectangle, clipped at the near plane (src/geometry/rect.h). */
module TransformedBounds {
  import opened Geometry
  import opened Matrices
  import opened PerspectiveClip
  import opened Wrappers

  const MINIMUM_HOMOGENOUS: real := 1.0 / 16384.0

  predicate Visible(v: Vector3) { v.z >= MINIMUM_HOMOGENOUS }

  function Project(v: Vector3): Point
    requires v.z != 0.0
  {
    Point(v.x / v.z, v.y / v.z)
  }

  /** Where the edge from the clipped p to its visible neighbor meets the plane. */
  function Crossing(p: Vector3, neighbor: Vector3): Point
    requires neighbor.z != p.z
  {
    var t := (MINIMUM_HOMOGENOUS - p.z) / (neighbor.z - p.z);
    Point(((1.0 - t) * p.x + t * neighbor.x) / MINIMUM_HOMOGENOUS,
          ((1.0 - t) * p.y + t * neighbor.y) / MINIMUM_HOMOGENOUS)
  }

  function Interpolated(p: Vector3, neighbor: Vector3): (s: seq<Point>)
    requires !Visible(p)
    ensures |s| == if Visible(neighbor) then 1 else 0
  {
    if Visible(neighbor) then [Crossing(p, neighbor)] else []
  }

  function Clipped(left: Vector3, p: Vector3, right: Vector3): (s: seq<Point>)
    ensures |s| == if Visible(p) then 1 else (if Visible(left) then 1 else 0) + if Visible(right) then 1 else 0
  {
    if Visible(p) then [Project(p)] else Interpolated(p, left) + Interpolated(p, right)
  }

  /** The transformed corners. */
  datatype Corners = Corners(ul: Vector3, ur: Vector3, lr: Vector3, ll: Vector3) {
    function ClipPoints(): seq<Point> { Clipped(ll, ul, ur) + Clipped(ul, ur, lr) + Clipped(ur, lr, ll) + Clipped(lr, ll, ul) }
  }

  function CornersOf(r: Rect, m: Matrix): Corners {
    Corners(m.TransformHomogenous(Point(r.left, r.top)), m.TransformHomogenous(Point(r.right, r.top)),
            m.TransformHomogenous(Point(r.right, r.bottom)), m.TransformHomogenous(Point(r.left, r.bottom)))
  }

  /** The smallest box around some points; its edges belong to it. */
  function BoundsOf(points: seq<Point>): Rect
    requires points != []
  {
    var n := |points| - 1;
    var p := points[n];
    if n == 0 then Rect(p.x, p.y, p.x, p.y)
    else
      var b := BoundsOf(points[..n]);
      Rect(Min(b.left, p.x), Min(b.top, p.y), Max(b.right, p.x), Max(b.bottom, p.y))
  }

  predicate Inside(r: Rect, p: Point) { r.left <= p.x <= r.right && r.top <= p.y <= r.bottom }

  predicate BoxWithin(r: Rect, s: Rect) { s.left <= r.left && s.top <= r.top && r.right <= s.right && r.bottom <= s.bottom }

  /** All four corners, transformed, in Z order. */
  function TransformedPoints(r: Rect, m: Matrix): seq<Point> {
    [m.TransformPoint(Point(r.left, r.top)), m.TransformPoint(Point(r.right, r.top)),
     m.TransformPoint(Point(r.left, r.bottom)), m.TransformPoint(Point(r.right, r.bottom))]
  }

  function TransformBounds(r: Rect, m: Matrix): Rect {
    if r.IsEmpty() then ZERO_RECT else BoundsOf(TransformedPoints(r, m))
  }

  function TransformAndClipBounds(r: Rect, m: Matrix): Rect {
    if !m.HasPerspective2D() then TransformBounds(r, m)
    else if r.IsEmpty() then ZERO_RECT
    else
      var points := CornersOf(r, m).ClipPoints();
      if points == [] then ZERO_RECT else BoundsOf(points)
  }

  // ----- Bounding boxes

  lemma {:induction false} BoundsHold(points: seq<Point>, p: Point)
    requires p in points
    ensures Inside(BoundsOf(points), p)
  {
    var n := |points| - 1;
    if points[n] != p {
      assert points == points[..n] + [points[n]];
      BoundsHold(points[..n], p);
    } else if n > 0 {
      BoundsInOrder(points[..n]);
    }
  }

  lemma {:induction false} BoundsInOrder(points: seq<Point>)
    requires points != []
    ensures BoundsOf(points).left <= BoundsOf(points).right && BoundsOf(points).top <= BoundsOf(points).bottom
  {
    if |points| > 1 {
      BoundsInOrder(points[..|points| - 1]);
    }
  }

  lemma {:induction false} BoundsAreLeast(points: seq<Point>, s: Rect)
    requires points != [] && forall p :: p in points ==> Inside(s, p)
    ensures BoxWithin(BoundsOf(points), s)
  {
    var n := |points| - 1;
    assert points[n] in points;
    if n > 0 {
      forall p | p in points[..n] ensures Inside(s, p) {
        assert p in points;
      }
      BoundsAreLeast(points[..n], s);
    }
  }

  // ----- The steps of the original, over an array of points and an index

  method InterpolateAndInsert(clipped: array<Point>, index: nat, p: Vector3, neighbor: Vector3) returns (next: nat)
    requires !Visible(p) && index < clipped.Length
    modifies clipped
    ensures next == index + |Interpolated(p, neighbor)|
    ensures clipped[..next] == old(clipped[..index]) + Interpolated(p, neighbor)
  {
    next := index;
    if neighbor.z >= MINIMUM_HOMOGENOUS {
      var t := (MINIMUM_HOMOGENOUS - p.z) / (neighbor.z - p.z);
      clipped[next] := Point(((1.0 - t) * p.x + t * neighbor.x) / MINIMUM_HOMOGENOUS,
                             ((1.0 - t) * p.y + t * neighbor.y) / MINIMUM_HOMOGENOUS);
      assert clipped[next] == Crossing(p, neighbor);
      next := next + 1;
    }
  }

  method ClipAndInsert(clipped: array<Point>, index: nat, left: Vector3, p: Vector3, right: Vector3) returns (next: nat)
    requires index + 2 <= clipped.Length
    modifies clipped
    ensures next == index + |Clipped(left, p, right)|
    ensures clipped[..next] == old(clipped[..index]) + Clipped(left, p, right)
  {
    hide Crossing;
    next := index;
    if p.z >= MINIMUM_HOMOGENOUS {
      clipped[next] := Point(p.x / p.z, p.y / p.z);
      next := next + 1;
    } else {
      next := InterpolateAndInsert(clipped, next, p, left);
      next := InterpolateAndInsert(clipped, next, p, right);
    }
  }

  method MakePointBounds(points: array<Point>, count: nat) returns (bounds: Option<Rect>)
    requires count <= points.Length
    ensures bounds == if count == 0 then None else Some(BoundsOf(points[..count]))
  {
    if count == 0 {
      return None;
    }
    var left, top, right, bottom := points[0].x, points[0].y, points[0].x, points[0].y;
    for i := 1 to count
      invariant Rect(left, top, right, bottom) == BoundsOf(points[..i])
    {
      assert points[..i + 1][..i] == points[..i];
      left := Min(left, points[i].x);
      top := Min(top, points[i].y);
      right := Max(right, points[i].x);
      bottom := Max(bottom, points[i].y);
    }
    bounds := Some(Rect(left, top, right, bottom));
  }

  method GetTransformedPoints(r: Rect, m: Matrix) returns (points: array<Point>)
    requires !r.IsEmpty()
    ensures fresh(points) && points[..] == TransformedPoints(r, m)
  {
    hide Matrix.TransformPoint;
    var corners := [Point(r.left, r.top), Point(r.right, r.top), Point(r.left, r.bottom), Point(r.right, r.bottom)];
    points := new Point[4](i requires 0 <= i < 4 => corners[i]);
    for i := 0 to 4
      invariant forall j :: 0 <= j < i ==> points[j] == m.TransformPoint(corners[j])
      invariant forall j :: i <= j < 4 ==> points[j] == corners[j]
    {
      points[i] := m.TransformPoint(points[i]);
    }
    assert points[..] == [points[0], points[1], points[2], points[3]];
  }

  method ComputeTransformBounds(r: Rect, m: Matrix) returns (b: Rect)
    ensures b == TransformBounds(r, m)
  {
    if r.IsEmpty() {
      return ZERO_RECT;
    }
    var points := GetTransformedPoints(r, m);
    assert points[..4] == points[..];
    var bounds := MakePointBounds(points, 4);
    b := bounds.value;
  }

  method ComputeTransformAndClipBounds(r: Rect, m: Matrix) returns (b: Rect)
    ensures b == TransformAndClipBounds(r, m)
  {
    if !m.HasPerspective2D() {
      b := ComputeTransformBounds(r, m);
      return;
    }
    if r.IsEmpty() {
      return ZERO_RECT;
    }
    hide Clipped, Matrix.TransformHomogenous, Visible, BoundsOf, Matrix.HasPerspective2D;
    var ul := m.TransformHomogenous(Point(r.left, r.top));
    var ur := m.TransformHomogenous(Point(r.right, r.top));
    var ll := m.TransformHomogenous(Point(r.left, r.bottom));
    var lr := m.TransformHomogenous(Point(r.right, r.bottom));
    var points := new Point[8](_ => Point(0.0, 0.0));
    var index := ClipAndInsert(points, 0, ll, ul, ur);
    index := ClipAndInsert(points, index, ul, ur, lr);
    index := ClipAndInsert(points, index, ur, lr, ll);
    index := ClipAndInsert(points, index, lr, ll, ul);
    assert points[..index] == CornersOf(r, m).ClipPoints();
    var bounds := MakePointBounds(points, index);
    match bounds
    case None => b := ZERO_RECT;
    case Some(box) => b := box;
  }
}
