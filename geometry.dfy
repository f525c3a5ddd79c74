/** Four-edge boxes in canvas coordinates (y grows downwards), as used by the
    charting library the annotation panel is drawn with. */
module Geometry {

  /** A box given by its four edges. */
  datatype Box = Box(top: int, left: int, right: int, bottom: int)

  function Min(a: int, b: int): int { if a <= b then a else b }

  function Max(a: int, b: int): int { if a >= b then a else b }

  /** `outer` covers `inner` on every side. */
  predicate Encloses(outer: Box, inner: Box) {
    outer.top <= inner.top && outer.left <= inner.left &&
    inner.right <= outer.right && inner.bottom <= outer.bottom
  }

  /** The library's `Box.Grow`: the smallest box that encloses both boxes. */
  function Grow(b: Box, other: Box): (r: Box)
    ensures Encloses(r, b) && Encloses(r, other)
    ensures forall e :: Encloses(e, b) && Encloses(e, other) ==> Encloses(e, r)
  {
    Box(Min(b.top, other.top), Min(b.left, other.left),
        Max(b.right, other.right), Max(b.bottom, other.bottom))
  }
}
