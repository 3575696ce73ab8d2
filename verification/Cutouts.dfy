/** Cutout of src/geometry/rect.h: the bounds of what one rectangle leaves of another. */
module Cutouts {
  import opened Geometry
  import opened Wrappers

  /** A point of a that o does not cover. */
  predicate Remains(a: Rect, o: Rect, p: Point) { a.Contains(p) && !o.Contains(p) }

  ghost predicate Covers(s: Rect, a: Rect, o: Rect) { forall p :: Remains(a, o, p) ==> s.Contains(p) }

  /** Points that remain on the left and top edges of the result. */
  lemma OnLeftAndTop(a: Rect, o: Rect) returns (p: Point, q: Point)
    requires a.Cutout(o).Some?
    ensures Remains(a, o, p) && p.x == a.Cutout(o).value.left
    ensures Remains(a, o, q) && q.y == a.Cutout(o).value.top
  {
    var r := a.Cutout(o).value;
    p := Point(r.left, if o.top <= r.top < o.bottom && o.left <= r.left < o.right then o.bottom else r.top);
    q := Point(if o.top <= r.top < o.bottom && o.left <= r.left < o.right then o.right else r.left, r.top);
  }

  /** And points that remain as near to the right and bottom edges as one likes. */
  lemma NearRightAndBottom(a: Rect, o: Rect, e: real, f: real) returns (p: Point, q: Point)
    requires a.Cutout(o).Some? && e < a.Cutout(o).value.right && f < a.Cutout(o).value.bottom
    ensures Remains(a, o, p) && p.x >= e
    ensures Remains(a, o, q) && q.y >= f
  {
    var r := a.Cutout(o).value;
    var x := Max(e, r.left);
    var y := Max(f, r.top);
    p := if !o.Contains(Point(x, r.top)) then Point(x, r.top)
         else if o.right < r.right then Point(o.right, r.top)
         else Point(x, o.bottom);
    q := if !o.Contains(Point(r.left, y)) then Point(r.left, y)
         else if o.bottom < r.bottom then Point(r.left, o.bottom)
         else Point(o.right, y);
  }

  /** Nothing comes back exactly when nothing remains; otherwise the least rectangle around all
      that remains, for every o, empty and reversed ones included. */
  lemma CutoutIsTight(a: Rect, o: Rect)
    ensures a.Cutout(o) == None <==> forall p :: !Remains(a, o, p)
    ensures a.Cutout(o).Some? ==> Covers(a.Cutout(o).value, a, o)
    ensures a.Cutout(o).Some? ==> forall s: Rect :: Covers(s, a, o) ==> s.ContainsRect(a.Cutout(o).value)
  {
    if a.Cutout(o).Some? {
      var r := a.Cutout(o).value;
      var p, q := OnLeftAndTop(a, o);
      forall s: Rect | Covers(s, a, o) ensures s.ContainsRect(r) {
        assert s.Contains(p) && s.Contains(q);
        var u, v := NearRightAndBottom(a, o, if s.right < r.right then s.right else r.left, if s.bottom < r.bottom then s.bottom else r.top);
        assert s.Contains(u) && s.Contains(v);
      }
    }
  }
}
