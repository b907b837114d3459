# Quadro window-resize helpers in Dafny

Quadro is a kiosk web browser. It shows its page in a frameless window, so it
has to do its own resizing. `Util.cpp` holds the helpers for that:

- `Quadro::direction(abspos, rect)` works out which edge or corner of the
  window the pointer is over. It does this from the pointer's angle around
  the window centre.
- `Quadro::cursorShape` (two overloads) picks the cursor for a direction, or
  for a pointer position.
- `operator<<` prints a direction's name.
- `Quadro::withAllChildren(obj, f)` calls `f` on every object below `obj` in
  the QObject ownership tree.

The model has four modules:

- `Directions` (`directions.dfy`) is the nine-valued `Direction` enum. It has
  the name function `Name`, the cursor map `CursorShapeOf`, and `Opposite`,
  which pairs each direction with the one pointing the other way.
- `HitTest` (`hittest.dfy`) is the classifying half of `direction`.
  - `FlagsAt(angle)` computes the four side flags and four corner flags from
    the threshold comparisons.
  - `Resolve(flags)` is the priority chain.
  - `DirectionAt` composes the two.
  - `CursorShapeAt(angle)` is the second `cursorShape` overload.
  - Angles are exact reals. `Pi` is the exact decimal value of the double
    `M_PI`.
  - The ranks in `Rank` give the order the chain tries the flags in.
- `Quadrants` (`quadrants.dfy`) is the step of `direction` that turns
  `std::atan`'s value into an angle on the whole circle.
  - Its input is the pointer position relative to the centre, plus the value
    atan returned.
  - `IsAtan` describes which values atan can return.
  - The step is modelled twice: as written (`AngleAsWritten`) and corrected
    (`AngleOnCircle`). See "## Findings".
  - `DirectionOfPointAsWritten` and `DirectionOfPoint` classify a point
    with the step as written and with the corrected step.
- `Traversal` (`traversal.dfy`) is `withAllChildren`.
  - The ownership tree is a value tree `Object(id, children)`.
  - The callback's effect is the sequence of objects it receives.
  - `Visits(obj)` defines that sequence. The method `WithAllChildren` computes
    it imperatively, with the source's loop over the children and its
    recursion.
  - Inside a tree, an object is identified by its path: the child indices
    leading to it from the root. `PathsAll` lists the path of each visited
    object, position by position. `Before` is the pre-order on paths.

## Model

| member | source | states |
|---|---|---|
| `Directions.Name` | Util.cpp:6-31 | the text operator<< writes for each of the nine directions; NameInjective and CornerNamesJoinSides state its properties |
| `Directions.CursorShapeOf` | Util.cpp:113-133 | models cursorShape(d), the switch from direction to cursor; SideCursors, CornerCursors, FallbackCursorOnlyForNone and OppositeSharesCursor state its properties |
| `Directions.NameInjective` | Util.cpp:9-28 | two directions with the same printed name are the same direction |
| `Directions.CornerNamesJoinSides` | Util.cpp:18-25 | each corner's name is its vertical side's name followed by its horizontal side's name (TopLeft = Top + Left, and so on) |
| `Directions.SideCursors` | Util.cpp:117-122 | the horizontal-resize cursor is chosen exactly for Left and Right, the vertical one exactly for Top and Bottom |
| `Directions.CornerCursors` | Util.cpp:123-128 | the forward-diagonal cursor is chosen exactly for TopLeft and BottomRight, the backward-diagonal one exactly for TopRight and BottomLeft |
| `Directions.FallbackCursorOnlyForNone` | Util.cpp:129-131 | the WhatsThis cursor is chosen exactly for None; every other direction gets one of the four resize cursors |
| `Directions.OppositeSharesCursor` | Util.cpp:116-132 | opposite directions share a cursor; for a real direction, the only other direction with the same cursor is its opposite; Opposite is an involution |
| `HitTest.FlagsAt` | Util.cpp:70-88 | models the corner constant, the side constants and the eight threshold comparisons; SidesCoverCircle, CornerZones and SideRanges state its properties |
| `HitTest.DirectionAt` | Util.cpp:79-110 | models direction from the angle onwards, FlagsAt followed by Resolve; NoneExactlyOffCircle, CornerZones and SideRanges state where each result is given |
| `HitTest.Resolve` | Util.cpp:90-110 | the result is None iff all eight flags are false; otherwise its own flag is raised and no flag of an earlier rank (TopRight, TopLeft, BottomRight, BottomLeft, Left, Right, Top, Bottom) is raised |
| `HitTest.ResolveUnique` | Util.cpp:90-110 | those three conditions determine the chain's result: any direction meeting them is Resolve's result |
| `HitTest.CornerWins` | Util.cpp:92-99 | whenever a corner flag is raised, the result is a corner, whatever the side flags are |
| `HitTest.SidesWhenNoCorner` | Util.cpp:100-108 | with no corner flag raised, the result is a side iff some side flag is raised |
| `HitTest.SidesCoverCircle` | Util.cpp:72-83 | every angle in [0, 2 pi] raises at least one side flag |
| `HitTest.NoneExactlyOffCircle` | Util.cpp:71-110 | an angle classifies as None iff it lies outside [0, 2 pi] |
| `HitTest.CornerZones` | Util.cpp:85-99 | each corner is the result exactly on the open zone within five degrees of its diagonal (pi/4, 3 pi/4, 5 pi/4, 7 pi/4) |
| `HitTest.SideRanges` | Util.cpp:79-108 | each side is the result exactly on its closed range minus the neighbouring corner zones; Right's range wraps around 0 |
| `HitTest.CursorShapeAt` | Util.cpp:134-138 | the cursor for a position is the cursor of its direction, and it is the WhatsThis cursor iff the angle lies off [0, 2 pi] |
| `Quadrants.AngleAsWritten` | Util.cpp:56-68 | models the quadrant step branch for branch; OffAxesAsWritten, BelowCentreAsWritten and LeftOfCentreAsWritten state what it does off and on the axes |
| `Quadrants.DirectionOfPointAsWritten` | Util.cpp:54-110 | models direction for a relative point, given atan's value, exactly as the source computes it; BelowCentreAsWritten and LeftOfCentreAsWritten show the results on the axes |
| `Quadrants.AngleOnCircle` | Util.cpp:56-68 | the corrected quadrant step, which differs from the source only on the axes; AngleOnCircleInHalfPlanes states its range and half-planes |
| `Quadrants.DirectionOfPoint` | Util.cpp:54-110 | direction for a relative point with the corrected step; DirectionOfPointAgreesWithSide and DirectionOfPointOnAxes state its properties |
| `Quadrants.BelowCentreAsWritten` | Util.cpp:54-68 | as written, a point straight below the centre gets the angle -pi/2, the direction None and the WhatsThis cursor |
| `Quadrants.LeftOfCentreAsWritten` | Util.cpp:54-68 | as written, a point straight left of the centre gets the angle 0 and the direction Right |
| `Quadrants.OffAxesAsWritten` | Util.cpp:56-68 | off the two axes, the source's quadrant step and classification equal the corrected ones |
| `Quadrants.AngleOnCircleInHalfPlanes` | Util.cpp:56-68 | the corrected angle of every point other than the centre lies in [0, 2 pi), in the half-planes of the point (above, below, left, right) |
| `Quadrants.DirectionOfPointAgreesWithSide` | Util.cpp:42-110 | with the corrected step, no point other than the centre classifies as None; a left, right, top or bottom edge or corner is reported only for a point on that side of the centre |
| `Quadrants.DirectionOfPointOnAxes` | Util.cpp:54-108 | with the corrected step, points on the axes classify as Top, Bottom, Right or Left, whichever way they lie from the centre |
| `Traversal.Visits` | Util.cpp:33-40 | the objects withAllChildren(obj, f) passes to f, in call order; VisitsExactlyDescendants, VisitCountAndRoot, ParentBeforeChildren and SiblingsInOrder state its properties |
| `Traversal.VisitsAll` | Util.cpp:36-39 | the calls made by the loop over a list of children, each child followed by the walk below it; VisitsAllCount, PathsMatchVisits, PathsComplete and PathsInPreorder state its properties |
| `Traversal.WithAllChildren` | Util.cpp:33-40 | the loop over the children, with f called on each child and then the recursive walk, makes exactly the calls Visits(obj) lists, in that order |
| `Traversal.VisitsAllCount` | Util.cpp:36-39 | the loop over a list of children makes one call per object of that forest, and passes only objects no larger than the forest |
| `Traversal.VisitCountAndRoot` | Util.cpp:33-40 | f is called Size(obj) - 1 times, once for each object but the root, and never with the root itself |
| `Traversal.PathsMatchVisits` | Util.cpp:36-39 | the k-th call receives the object at the k-th listed path; each such path is valid and is not the root's |
| `Traversal.PathsComplete` | Util.cpp:36-39 | every object below the root has its path listed |
| `Traversal.PathsInPreorder` | Util.cpp:36-39 | the listed paths are strictly increasing in pre-order |
| `Traversal.VisitsExactlyDescendants` | Util.cpp:33-40 | the calls correspond one to one, in order, to the objects below the root: a path is listed iff it leads to a descendant, no path is listed twice, and the k-th call gets the object at the k-th path |
| `Traversal.ParentBeforeChildren` | Util.cpp:37-38 | an object is visited before every object below it |
| `Traversal.SiblingsInOrder` | Util.cpp:36 | siblings are visited in children() order |

## Left out

- Util.cpp lines 45-54 are not modelled. This is the centre of the rect,
  the relative position, the aspect-ratio scaling (a double product
  truncated back to int by `setY`) and the call of `std::atan`. It is
  floating-point numerics. The relative position after scaling and atan's
  value are inputs instead, and `IsAtan` describes only the sign and range
  of atan's value. The division by zero at the centre (a NaN) has no
  counterpart in the model.
- HitTest and Quadrants use exact reals. In the source, the threshold sums
  such as `M_PI_2 + M_PI_4` and the corner constant `5.0 * (M_PI / 180.0)`
  are rounded to doubles. So are the additions `angle += M_PI` and
  `angle += 2 * M_PI` of the quadrant step (Util.cpp:61, 64, 67). A
  comparison that lands within a rounding error of a threshold may
  therefore go the other way in the source.
- Quadrants: the classification of a pointer position, `DirectionOfPoint`,
  uses the corrected quadrant step. The step as the source writes it is
  `AngleAsWritten`, and it is described under "## Findings".
- `Direction` values outside the nine enumerators are not representable.
  C++ can make one with a cast. Such a value prints nothing (Util.cpp:30)
  and gets the WhatsThis cursor through `default:` (Util.cpp:130). No
  code in Util.cpp makes such a value.
- `operator<<`: the writing to a `std::ostream` is left out. Only the text
  written is modelled (`Name`).
- Traversal.WithAllChildren: it does not model arbitrary side effects of the
  callback `f`. The callback only records its argument. A callback that
  re-parents or deletes objects during the walk is not covered.
- Traversal.WithAllChildren: it assumes that every call of `f` appends to
  one shared record. In the source, `f` is a `std::function` passed by
  value and copied again at each recursive call (Util.cpp:34, 38). A
  callback that keeps its record in state captured by value therefore sees
  only the calls made at its own level. The model does not capture that
  copying.
- Traversal: QObject identity (the pointer) is modelled by the object's
  position in a finite tree of values. The ownership graph of QObject is
  such a tree.
- DBusBridge.hpp only declares `call`, `attach`, `detach` and `onSignal`.
  Their bodies are not part of this model. There is no code here for the
  remote calls, the signal subscription or their bookkeeping, and the bridge
  is I/O over the Qt D-Bus library. None of it is modelled.
- Main.cpp, WebView.hpp and main.cpp are Qt widget set-up, window-manager
  hints, page loading and saving a pixmap to disk. That is GUI code and I/O,
  and none of it is modelled.

## Findings

| source | as written | input that shows it | evidently intended | confidence | as-written member | corrected member |
|---|---|---|---|---|---|---|
| Util.cpp:56-68 | only points strictly inside a quadrant get their angle adjusted; a point on the negative y axis keeps atan(-inf) = -pi/2 | rect 100x100, every point straight below the centre, e.g. (50, 60), or (50, 99) on the bottom edge: relative position (0, -10) or (0, -49), angle -pi/2, direction None, WhatsThis cursor | angle 3 pi/2, direction Bottom, vertical-resize cursor | medium, not executed | `Quadrants.BelowCentreAsWritten` | `Quadrants.DirectionOfPointOnAxes` |
| Util.cpp:56-68 | a point on the negative x axis keeps atan(-0.0) = -0.0, which the comparisons treat as 0 | rect 100x100, pointer at (40, 50): relative position (-10, 0), angle 0, direction Right | angle pi, direction Left (the cursor is the same, the reported edge is not) | medium, not executed | `Quadrants.LeftOfCentreAsWritten` | `Quadrants.DirectionOfPointOnAxes` |
