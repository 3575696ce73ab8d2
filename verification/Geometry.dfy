/** Points, sizes and rectangles over exact reals (src/geometry/rect.h). */
module Geometry {
  import opened Wrappers

  datatype Point = Point(x: real, y: real)

  datatype Size = Size(width: real, height: real) {
    predicate IsEmpty() { !(width > 0.0 && height > 0.0) }
  }

  function Min(a: real, b: real): real { if b < a then b else a }

  function Max(a: real, b: real): real { if a < b then b else a }

  datatype Rect = Rect(left: real, top: real, right: real, bottom: real) {
    predicate IsEmpty() { !(left < right && top < bottom) }

    /** Half-open: the left and top edges belong to the rectangle. */
    predicate Contains(p: Point) {
      !IsEmpty() && p.x >= left && p.y >= top && p.x < right && p.y < bottom
    }

    predicate ContainsInclusive(p: Point) {
      !IsEmpty() && p.x >= left && p.y >= top && p.x <= right && p.y <= bottom
    }

    predicate ContainsRect(o: Rect) {
      !IsEmpty() && (o.IsEmpty() || (o.left >= left && o.top >= top && o.right <= right && o.bottom <= bottom))
    }

    function GetPositive(): Rect {
      if !IsEmpty() then this
      else Rect(Min(left, right), Min(top, bottom), Max(left, right), Max(top, bottom))
    }

    function GetSize(): Size { Size(right - left, bottom - top) }

    function Cutout(o: Rect): Option<Rect> {
      if IsEmpty() then None
      else if o.left <= left && o.right >= right && o.top <= top && o.bottom >= bottom then None
      else if o.left <= left && o.right >= right && o.top <= top && o.bottom > top then
        Some(Rect(left, o.bottom, right, bottom))
      else if o.left <= left && o.right >= right && o.bottom >= bottom && o.top < bottom then
        Some(Rect(left, top, right, o.top))
      else if o.top <= top && o.bottom >= bottom && o.left <= left && o.right > left then
        Some(Rect(o.right, top, right, bottom))
      else if o.top <= top && o.bottom >= bottom && o.right >= right && o.left < right then
        Some(Rect(left, top, o.left, bottom))
      else Some(this)
    }
  }

  const ZERO_RECT := Rect(0.0, 0.0, 0.0, 0.0)
}
