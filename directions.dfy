/** The nine resize directions of the frameless window, their printable
    names and the mouse cursor shown for each (Util.cpp). */
module Directions {

  /** Quadro::Direction: an edge, a corner, or no resize at all. */
  datatype Direction =
    | Left | Right | Top | Bottom
    | TopLeft | BottomRight | TopRight | BottomLeft
    | None

  /** The Qt::CursorShape values that cursorShape can return. */
  datatype CursorShape =
    | SizeHorCursor | SizeVerCursor | SizeFDiagCursor | SizeBDiagCursor
    | WhatsThisCursor

  predicate IsSide(d: Direction) {
    d == Left || d == Right || d == Top || d == Bottom
  }

  predicate IsCorner(d: Direction) {
    d == TopLeft || d == BottomRight || d == TopRight || d == BottomLeft
  }

  /** The text operator<< writes for a direction. */
  function Name(d: Direction): string {
    match d
    case Left => "Left"
    case Right => "Right"
    case Top => "Top"
    case Bottom => "Bottom"
    case TopLeft => "TopLeft"
    case BottomRight => "BottomRight"
    case TopRight => "TopRight"
    case BottomLeft => "BottomLeft"
    case None => "None"
  }

  /** The cursor shown while the pointer is over a part of the window that
      resizes in direction d (the first overload of Quadro::cursorShape). */
  function CursorShapeOf(d: Direction): CursorShape {
    match d
    case Left | Right => SizeHorCursor
    case Top | Bottom => SizeVerCursor
    case TopLeft | BottomRight => SizeFDiagCursor
    case TopRight | BottomLeft => SizeBDiagCursor
    case None => WhatsThisCursor
  }

  /** The direction pointing the other way across the window. */
  function Opposite(d: Direction): (o: Direction)
    ensures IsSide(o) <==> IsSide(d)
    ensures IsCorner(o) <==> IsCorner(d)
    ensures o == None <==> d == None
    ensures o != d || d == None
  {
    match d
    case Left => Right
    case Right => Left
    case Top => Bottom
    case Bottom => Top
    case TopLeft => BottomRight
    case BottomRight => TopLeft
    case TopRight => BottomLeft
    case BottomLeft => TopRight
    case None => None
  }

  /** The horizontal edges resize sideways and the vertical edges up and down. */
  lemma SideCursors(d: Direction)
    ensures CursorShapeOf(d) == SizeHorCursor <==> d == Left || d == Right
    ensures CursorShapeOf(d) == SizeVerCursor <==> d == Top || d == Bottom
  {
  }

  /** The two diagonals each have their own cursor. */
  lemma CornerCursors(d: Direction)
    ensures CursorShapeOf(d) == SizeFDiagCursor <==> d == TopLeft || d == BottomRight
    ensures CursorShapeOf(d) == SizeBDiagCursor <==> d == TopRight || d == BottomLeft
  {
  }

  /** The fallback cursor is shown exactly when there is nothing to resize;
      every real direction gets one of the four resize cursors. */
  lemma FallbackCursorOnlyForNone(d: Direction)
    ensures CursorShapeOf(d) == WhatsThisCursor <==> d == None
    ensures d != None ==>
      CursorShapeOf(d) in {SizeHorCursor, SizeVerCursor, SizeFDiagCursor, SizeBDiagCursor}
  {
  }

  /** Opposite directions share a cursor, and two different resize
      directions share a cursor only when they are opposite. */
  lemma OppositeSharesCursor(d: Direction, e: Direction)
    ensures CursorShapeOf(Opposite(d)) == CursorShapeOf(d)
    ensures Opposite(Opposite(d)) == d
    ensures d != None && e != d ==> (CursorShapeOf(e) == CursorShapeOf(d) <==> e == Opposite(d))
  {
  }

  /** The name of each corner is the name of its vertical side followed by
      the name of its horizontal side. */
  lemma CornerNamesJoinSides()
    ensures Name(TopLeft) == Name(Top) + Name(Left)
    ensures Name(TopRight) == Name(Top) + Name(Right)
    ensures Name(BottomLeft) == Name(Bottom) + Name(Left)
    ensures Name(BottomRight) == Name(Bottom) + Name(Right)
  {
  }

  /** No two directions are printed alike. */
  lemma NameInjective(d: Direction, e: Direction)
    ensures Name(d) == Name(e) ==> d == e
  {
  }
}
