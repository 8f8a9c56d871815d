/**
 The values the sticky-header algorithm works on: a header's measured frame and
 an optional value. Core Graphics' `CGFloat` is used by the algorithm only for
 comparison and subtraction, so coordinates are modelled as `real`.
 */
module Geometry {

  /** A rectangle in the scroll container's coordinate space, in standard form
      (non-negative width and height), as layout reports it. `minY` is the top
      edge; it is negative once the element has scrolled above the container's
      top edge. */
  datatype Rect = Rect(minX: real, minY: real, width: real, height: real)

  /** `CGRect.zero`, the frame a header holds before it is first measured. */
  const Zero: Rect := Rect(0.0, 0.0, 0.0, 0.0)

  /** Swift's `Optional`. */
  datatype Option<+T> = None | Some(value: T)
}
