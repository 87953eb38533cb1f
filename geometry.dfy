/** Sizes and rectangles of the native view hierarchy (CGSize, CGRect), over exact reals. */
module Geometry {

  /** A width and a height, as in CGSize. */
  datatype Size = Size(width: real, height: real) {
    /** Both extents are strictly positive: the geometry a fit scale can be computed for. */
    predicate Positive() {
      width > 0.0 && height > 0.0
    }
  }

  /** An origin and an extent, as built by CGRectMake(x, y, width, height). */
  datatype Rect = Rect(x: real, y: real, width: real, height: real)

  /** The larger of two reals, written as the conditional `a > b ? a : b`. */
  function Max(a: real, b: real): (m: real)
    ensures m >= a && m >= b
    ensures m == a || m == b
  {
    if a > b then a else b
  }

  /** The smaller of two reals. */
  function Min(a: real, b: real): (m: real)
    ensures m <= a && m <= b
    ensures m == a || m == b
  {
    if a < b then a else b
  }
}
