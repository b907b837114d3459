/** The step of Quadro::direction that turns std::atan's value into an
    angle on the full circle (Util.cpp, lines 54-68). The point (x, y) is the
    pointer position relative to the window centre, y pointing up, after the
    aspect-ratio correction; the value atan returned for y / x is an input. */
module Quadrants {
  import opened Directions
  import opened HitTest

  /** What std::atan(y / (double)x) can return for integer x and y, as an
      exact real. For x != 0 the ratio is finite, so the value lies strictly
      between -pi/2 and pi/2 and has the sign of y / x. For x == 0 the ratio
      is an infinity whose sign is that of y, and atan returns -pi/2 or pi/2.
      For x == y == 0 the ratio is NaN, which no real stands for. */
  predicate IsAtan(x: int, y: int, a: real) {
    if x != 0 then
      -Pi / 2.0 < a < Pi / 2.0 &&
      (a > 0.0 <==> x * y > 0) &&
      (a < 0.0 <==> x * y < 0)
    else
      y != 0 && a == (if y > 0 then Pi / 2.0 else -Pi / 2.0)
  }

  /** The quadrant correction as the source writes it: only points strictly
      inside one of the four quadrants are adjusted. */
  function AngleAsWritten(x: int, y: int, atanValue: real): real {
    if x > 0 && y > 0 then atanValue + 0.0
    else if x < 0 && y > 0 then atanValue + Pi
    else if x < 0 && y < 0 then atanValue + Pi
    else if x > 0 && y < 0 then atanValue + 2.0 * Pi
    else atanValue
  }

  /** Quadro::direction for a point relative to the centre, with the
      quadrant step as the source writes it. */
  function DirectionOfPointAsWritten(x: int, y: int, atanValue: real): Direction {
    DirectionAt(AngleAsWritten(x, y, atanValue))
  }

  /** As written, a point straight below the centre is given the angle
      -pi/2 and classifies as None, so the help cursor is shown at the middle
      of the bottom edge. */
  lemma BelowCentreAsWritten(y: int, a: real)
    requires y < 0 && IsAtan(0, y, a)
    ensures AngleAsWritten(0, y, a) == -Pi / 2.0
    ensures DirectionOfPointAsWritten(0, y, a) == None
    ensures CursorShapeAt(AngleAsWritten(0, y, a)) == WhatsThisCursor
  {
  }

  /** As written, a point straight left of the centre keeps the angle 0 and
      classifies as Right, the edge on the other side. */
  lemma LeftOfCentreAsWritten(x: int, a: real)
    requires x < 0 && IsAtan(x, 0, a)
    ensures AngleAsWritten(x, 0, a) == 0.0
    ensures DirectionOfPointAsWritten(x, 0, a) == Right
  {
  }

  /** Off the axes the source's correction is right: quadrants I to IV get
      angles in (0, pi/2), (pi/2, pi), (pi, 3 pi/2) and (3 pi/2, 2 pi). */
  lemma OffAxesAsWritten(x: int, y: int, a: real)
    requires x != 0 && y != 0 && IsAtan(x, y, a)
    ensures AngleAsWritten(x, y, a) == AngleOnCircle(x, y, a)
    ensures DirectionOfPointAsWritten(x, y, a) == DirectionOfPoint(x, y, a)
  {
  }

  /** The intended correction: every point left of the vertical axis is
      turned by pi, every other point below the horizontal axis by 2 pi. */
  function AngleOnCircle(x: int, y: int, atanValue: real): real {
    if x < 0 then atanValue + Pi
    else if y < 0 then atanValue + 2.0 * Pi
    else atanValue
  }

  /** The corrected angle lies on [0, 2 pi) and in the half-planes of the
      point: upper half for y > 0, lower for y < 0, left for x < 0, right
      for x > 0. */
  lemma AngleOnCircleInHalfPlanes(x: int, y: int, a: real)
    requires IsAtan(x, y, a)
    ensures var angle := AngleOnCircle(x, y, a);
      && 0.0 <= angle < Rad360
      && (y > 0 ==> 0.0 < angle < Pi)
      && (y < 0 ==> Pi < angle < Rad360)
      && (y == 0 ==> angle == 0.0 || angle == Pi)
      && (x < 0 ==> Pi / 2.0 < angle < 3.0 * Pi / 2.0)
      && (x > 0 ==> angle < Pi / 2.0 || angle > 3.0 * Pi / 2.0)
      && (x == 0 ==> angle == Pi / 2.0 || angle == 3.0 * Pi / 2.0)
  {
  }

  /** Quadro::direction for a point relative to the centre, with the
      corrected quadrant step. */
  function DirectionOfPoint(x: int, y: int, atanValue: real): Direction {
    DirectionAt(AngleOnCircle(x, y, atanValue))
  }

  /** Every point other than the centre gets a resize direction, and the
      direction names the sides of the centre the point is on. */
  lemma DirectionOfPointAgreesWithSide(x: int, y: int, a: real)
    requires IsAtan(x, y, a)
    ensures DirectionOfPoint(x, y, a) != None
    ensures DirectionOfPoint(x, y, a) in {Left, TopLeft, BottomLeft} ==> x < 0
    ensures DirectionOfPoint(x, y, a) in {Right, TopRight, BottomRight} ==> x > 0
    ensures DirectionOfPoint(x, y, a) in {Top, TopLeft, TopRight} ==> y > 0
    ensures DirectionOfPoint(x, y, a) in {Bottom, BottomLeft, BottomRight} ==> y < 0
  {
  }

  /** Points on the axes get the edge they lie towards. */
  lemma DirectionOfPointOnAxes(x: int, y: int, a: real)
    requires IsAtan(x, y, a) && (x == 0 || y == 0)
    ensures x == 0 && y > 0 ==> DirectionOfPoint(x, y, a) == Top
    ensures x == 0 && y < 0 ==> DirectionOfPoint(x, y, a) == Bottom
    ensures x > 0 && y == 0 ==> DirectionOfPoint(x, y, a) == Right
    ensures x < 0 && y == 0 ==> DirectionOfPoint(x, y, a) == Left
  {
  }
}
