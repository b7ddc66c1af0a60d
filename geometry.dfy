/**
  The arithmetic at the top of MCDashedRoundedRectView.drawRect: the inset that
  keeps the stroke inside the view, the rectangle the outline is drawn on, the
  corner radius clamped so that corners cannot overlap, the centres of the four
  corner arcs, and the closed-form length of the outline.

  Coordinates follow UIKit: x grows to the right, y grows downwards.
 */
module Geometry {

  type Positive = x: real | x > 0.0 witness 1.0

  /** The value of pi (M_PI) is left uninterpreted: all that is known is that it is positive. */
  const Pi: Positive

  datatype Point = Point(x: real, y: real)

  /**
    A CGRect as it is stored: origin and a size that may be negative.
    CGRect's accessors read it standardized (see MinX, MaxX, Width, ...).
   */
  datatype Rect = Rect(x: real, y: real, width: real, height: real)

  function Min(a: real, b: real): real { if a <= b then a else b }

  function Abs(a: real): real { if a < 0.0 then -a else a }

  /** CGRect.minX: the smaller x coordinate of the rectangle. */
  function MinX(rc: Rect): real { Min(rc.x, rc.x + rc.width) }

  /** CGRect.maxX: the larger x coordinate of the rectangle. */
  function MaxX(rc: Rect): real { if rc.width < 0.0 then rc.x else rc.x + rc.width }

  /** CGRect.minY: the smaller y coordinate of the rectangle. */
  function MinY(rc: Rect): real { Min(rc.y, rc.y + rc.height) }

  /** CGRect.maxY: the larger y coordinate of the rectangle. */
  function MaxY(rc: Rect): real { if rc.height < 0.0 then rc.y else rc.y + rc.height }

  /** CGRect.width: never negative, the distance between MinX and MaxX. */
  function Width(rc: Rect): (w: real)
    ensures w >= 0.0 && w == MaxX(rc) - MinX(rc)
    ensures rc.width >= 0.0 ==> w == rc.width
  {
    Abs(rc.width)
  }

  /** CGRect.height: never negative, the distance between MinY and MaxY. */
  function Height(rc: Rect): (h: real)
    ensures h >= 0.0 && h == MaxY(rc) - MinY(rc)
    ensures rc.height >= 0.0 ==> h == rc.height
  {
    Abs(rc.height)
  }

  /** ceil for reals: the least integer not below x. */
  function Ceil(x: real): (n: int)
    ensures n as real - 1.0 < x <= n as real
  {
    -((-x).Floor)
  }

  /** The distance kept between the bounds and the outline: ceil(1 + strokeWidth / 2). */
  function Inset(strokeWidth: real): (d: real)
    ensures d == d.Floor as real
    ensures 1.0 + strokeWidth / 2.0 <= d < 2.0 + strokeWidth / 2.0
  {
    Ceil(1.0 + strokeWidth / 2.0) as real
  }

  /**
    The rectangle the outline is drawn on: the bounds (origin 0, 0) shrunk by
    the inset on every side. Its stored size may be negative; the source does
    not clamp it.
   */
  function DrawingRect(boundsWidth: real, boundsHeight: real, strokeWidth: real): (rc: Rect)
    ensures rc.x == Inset(strokeWidth) && rc.y == Inset(strokeWidth)
    ensures boundsWidth - (rc.x + rc.width) == Inset(strokeWidth)
    ensures boundsHeight - (rc.y + rc.height) == Inset(strokeWidth)
  {
    var d := Inset(strokeWidth);
    Rect(d, d, boundsWidth - d * 2.0, boundsHeight - d * 2.0)
  }

  /**
    When the bounds leave room for the drawing rectangle, a stroke of width
    strokeWidth centred on its edges stays at least one point inside the bounds.
   */
  lemma StrokeStaysInside(boundsWidth: real, boundsHeight: real, strokeWidth: real)
    requires strokeWidth >= 0.0
    requires boundsWidth >= 2.0 * Inset(strokeWidth) && boundsHeight >= 2.0 * Inset(strokeWidth)
    ensures var rc := DrawingRect(boundsWidth, boundsHeight, strokeWidth);
      && MinX(rc) - strokeWidth / 2.0 >= 1.0 && MaxX(rc) + strokeWidth / 2.0 <= boundsWidth - 1.0
      && MinY(rc) - strokeWidth / 2.0 >= 1.0 && MaxY(rc) + strokeWidth / 2.0 <= boundsHeight - 1.0
      && Width(rc) == boundsWidth - 2.0 * Inset(strokeWidth)
      && Height(rc) == boundsHeight - 2.0 * Inset(strokeWidth)
  {
  }

  /** min(roundedRect.width, roundedRect.height). */
  function SmallerDimension(rc: Rect): (s: real)
    ensures 0.0 <= s && s <= Width(rc) && s <= Height(rc)
    ensures s == Width(rc) || s == Height(rc)
  {
    Min(Width(rc), Height(rc))
  }

  /**
    The corner radius actually drawn: the requested one when two of them fit in
    the smaller dimension, half the smaller dimension otherwise. That is the
    minimum of the two, and two corners never overlap.
   */
  function CornerRadius(requested: real, rc: Rect): (r: real)
    ensures r == Min(requested, SmallerDimension(rc) / 2.0)
    ensures 2.0 * r <= Width(rc) && 2.0 * r <= Height(rc)
    ensures requested * 2.0 < SmallerDimension(rc) ==> r == requested
    ensures requested * 2.0 >= SmallerDimension(rc) ==> 2.0 * r == SmallerDimension(rc)
    ensures r >= 0.0 <==> requested >= 0.0
  {
    var smaller := SmallerDimension(rc);
    if requested * 2.0 < smaller then requested else smaller / 2.0
  }

  /** The centres of the four corner arcs, laid out as  A B / D C. */
  datatype Corners = Corners(a: Point, b: Point, c: Point, d: Point)

  /**
    Each centre is inset by the radius from its own corner of the rectangle,
    so A and B share a y value, C and D share one, A and D share an x value,
    and B and C share one; with a radius that passed CornerRadius, A is left
    of (or on) B and above (or on) D.
   */
  function CornerCentres(rc: Rect, r: real): (k: Corners)
    ensures k.a.x - MinX(rc) == r && k.a.y - MinY(rc) == r
    ensures MaxX(rc) - k.b.x == r && k.b.y - MinY(rc) == r
    ensures MaxX(rc) - k.c.x == r && MaxY(rc) - k.c.y == r
    ensures k.d.x - MinX(rc) == r && MaxY(rc) - k.d.y == r
    ensures k.a.y == k.b.y && k.c.y == k.d.y && k.a.x == k.d.x && k.b.x == k.c.x
    ensures k.b.x - k.a.x == Width(rc) - 2.0 * r && k.d.y - k.a.y == Height(rc) - 2.0 * r
  {
    Corners(
      Point(MinX(rc) + r, MinY(rc) + r),
      Point(MaxX(rc) - r, MinY(rc) + r),
      Point(MaxX(rc) - r, MaxY(rc) - r),
      Point(MinX(rc) + r, MaxY(rc) - r))
  }

  /** With a clamped radius the centres are ordered as the corners are. */
  lemma CentresInOrder(requested: real, rc: Rect)
    ensures var k := CornerCentres(rc, CornerRadius(requested, rc));
      k.a.x <= k.b.x && k.a.y <= k.d.y
  {
  }

  /**
    The closed-form length of the outline: four quarter circles make one full
    circle, and the four sides lose 2 * radius each to the corners.
   */
  function PathLength(rc: Rect, r: real): (len: real)
    ensures len == Pi * r * 2.0 + (Width(rc) - 2.0 * r) * 2.0 + (Height(rc) - 2.0 * r) * 2.0
  {
    Pi * r * 2.0 + Width(rc) * 2.0 + Height(rc) * 2.0 - r * 8.0
  }

  /** The outline is never of negative length when the radius is clamped and not negative. */
  lemma PathLengthNonNegative(requested: real, rc: Rect)
    requires requested >= 0.0
    ensures PathLength(rc, CornerRadius(requested, rc)) >= 0.0
  {
    var r := CornerRadius(requested, rc);
    assert Pi * r * 2.0 >= 0.0;
  }
}
