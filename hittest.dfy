/** Edge and corner hit-testing for resizing the frameless window
    (Quadro::direction and the second Quadro::cursorShape in Util.cpp).
    Angles are exact reals in radians, measured counter-clockwise from the
    positive x axis around the window's centre; the angle of a point is an
    input, because std::atan and the aspect-ratio arithmetic are not part of
    this model. */
module HitTest {
  import opened Directions

  /** The exact value of the double constant M_PI. */
  const Pi: real := 3.141592653589793115997963468544185161590576171875

  /** Half the width of each corner zone: five degrees. */
  const CornerHalfWidth: real := 5.0 * (Pi / 180.0)

  const Rad000: real := 0.0
  const Rad045: real := Pi / 4.0
  const Rad135: real := Pi / 2.0 + Pi / 4.0
  const Rad225: real := Pi + Pi / 4.0
  const Rad315: real := Pi + Pi / 2.0 + Pi / 4.0
  const Rad360: real := 2.0 * Pi

  /** The four side flags and four corner flags direction computes. */
  datatype Flags = Flags(
    right: bool, left: bool, top: bool, bottom: bool,
    topRight: bool, topLeft: bool, bottomLeft: bool, bottomRight: bool)

  /** Whether the flag that stands for d is raised (None has no flag). */
  predicate Raised(f: Flags, d: Direction) {
    match d
    case Right => f.right
    case Left => f.left
    case Top => f.top
    case Bottom => f.bottom
    case TopRight => f.topRight
    case TopLeft => f.topLeft
    case BottomLeft => f.bottomLeft
    case BottomRight => f.bottomRight
    case None => false
  }

  predicate NoFlagRaised(f: Flags) {
    !f.right && !f.left && !f.top && !f.bottom &&
    !f.topRight && !f.topLeft && !f.bottomLeft && !f.bottomRight
  }

  /** Position of a direction in the order the if-chain tries the flags:
      corners first (TopRight, TopLeft, BottomRight, BottomLeft), then sides
      (Left, Right, Top, Bottom); None comes last. */
  function Rank(d: Direction): nat {
    match d
    case TopRight => 0
    case TopLeft => 1
    case BottomRight => 2
    case BottomLeft => 3
    case Left => 4
    case Right => 5
    case Top => 6
    case Bottom => 7
    case None => 8
  }

  /** The threshold comparisons: closed side ranges around the circle and
      open five-degree zones around each diagonal. */
  function FlagsAt(angle: real): Flags {
    Flags(
      right := (angle >= Rad000 && angle <= Rad045) || (angle >= Rad315 && angle <= Rad360),
      left := angle >= Rad135 && angle <= Rad225,
      top := angle >= Rad045 && angle <= Rad135,
      bottom := angle >= Rad225 && angle <= Rad315,
      topRight := angle > Rad045 - CornerHalfWidth && angle < Rad045 + CornerHalfWidth,
      topLeft := angle > Rad135 - CornerHalfWidth && angle < Rad135 + CornerHalfWidth,
      bottomLeft := angle > Rad225 - CornerHalfWidth && angle < Rad225 + CornerHalfWidth,
      bottomRight := angle > Rad315 - CornerHalfWidth && angle < Rad315 + CornerHalfWidth)
  }

  /** The priority chain: the direction of the first raised flag in Rank
      order, or None when no flag is raised. */
  function Resolve(f: Flags): (d: Direction)
    ensures d == None <==> NoFlagRaised(f)
    ensures d != None ==> Raised(f, d)
    ensures forall e: Direction :: Rank(e) < Rank(d) ==> !Raised(f, e)
  {
    if f.topRight then TopRight
    else if f.topLeft then TopLeft
    else if f.bottomRight then BottomRight
    else if f.bottomLeft then BottomLeft
    else if f.left then Left
    else if f.right then Right
    else if f.top then Top
    else if f.bottom then Bottom
    else None
  }

  /** Quadro::direction, from the angle of the pointer onwards. */
  function DirectionAt(angle: real): Direction {
    Resolve(FlagsAt(angle))
  }

  /** Quadro::cursorShape(pos, rect), from the angle of the pointer onwards. */
  function CursorShapeAt(angle: real): (c: CursorShape)
    ensures c == CursorShapeOf(DirectionAt(angle))
    ensures c == WhatsThisCursor <==> angle < 0.0 || angle > Rad360
  {
    NoneExactlyOffCircle(angle);
    CursorShapeOf(DirectionAt(angle))
  }

  // What the priority chain and the thresholds guarantee.

  /** Resolve is determined by its contract: any direction that is raised
      (or None when nothing is) and beats every other raised flag is it. */
  lemma ResolveUnique(f: Flags, d: Direction)
    requires d == None <==> NoFlagRaised(f)
    requires d != None ==> Raised(f, d)
    requires forall e: Direction :: Rank(e) < Rank(d) ==> !Raised(f, e)
    ensures Resolve(f) == d
  {
  }

  /** A raised corner flag always wins over every side flag. */
  lemma CornerWins(f: Flags)
    requires f.topRight || f.topLeft || f.bottomRight || f.bottomLeft
    ensures IsCorner(Resolve(f))
  {
  }

  /** With no corner raised, the result is a side exactly when a side flag
      is raised. */
  lemma SidesWhenNoCorner(f: Flags)
    requires !f.topRight && !f.topLeft && !f.bottomRight && !f.bottomLeft
    ensures IsSide(Resolve(f)) <==> f.right || f.left || f.top || f.bottom
  {
  }

  /** The four side ranges cover the whole circle [0, 2 pi]. */
  lemma SidesCoverCircle(angle: real)
    requires 0.0 <= angle <= Rad360
    ensures var f := FlagsAt(angle); f.right || f.left || f.top || f.bottom
  {
  }

  /** The classification is None exactly for angles off [0, 2 pi]; in
      particular no angle of the circle is left unclassified. */
  lemma NoneExactlyOffCircle(angle: real)
    ensures DirectionAt(angle) == None <==> angle < 0.0 || angle > Rad360
  {
  }

  /** Each corner wins strictly inside five degrees of its diagonal, and only
      there. */
  lemma CornerZones(angle: real)
    ensures DirectionAt(angle) == TopRight <==>
      Rad045 - CornerHalfWidth < angle < Rad045 + CornerHalfWidth
    ensures DirectionAt(angle) == TopLeft <==>
      Rad135 - CornerHalfWidth < angle < Rad135 + CornerHalfWidth
    ensures DirectionAt(angle) == BottomLeft <==>
      Rad225 - CornerHalfWidth < angle < Rad225 + CornerHalfWidth
    ensures DirectionAt(angle) == BottomRight <==>
      Rad315 - CornerHalfWidth < angle < Rad315 + CornerHalfWidth
  {
  }

  /** Outside the corner zones each side owns its closed range. */
  lemma SideRanges(angle: real)
    ensures DirectionAt(angle) == Right <==>
      ((0.0 <= angle <= Rad045 - CornerHalfWidth) || (Rad315 + CornerHalfWidth <= angle <= Rad360))
    ensures DirectionAt(angle) == Top <==>
      Rad045 + CornerHalfWidth <= angle <= Rad135 - CornerHalfWidth
    ensures DirectionAt(angle) == Left <==>
      Rad135 + CornerHalfWidth <= angle <= Rad225 - CornerHalfWidth
    ensures DirectionAt(angle) == Bottom <==>
      Rad225 + CornerHalfWidth <= angle <= Rad315 - CornerHalfWidth
  {
  }
}
