/** The canvas geometry of a card workspace: bounds clamping, resize-handle hit
    testing, resizing from a captured start box, and connector anchor points.
    Coordinates are JavaScript numbers, modelled as `real`. */
module Geometry {
  import opened Common

  const CanvasWidth: real := 1600.0
  const CanvasHeight: real := 1200.0
  const MinElementSize: real := 50.0
  /** The mouse is on a handle when it is strictly closer than this on both axes. */
  const HandleTolerance: real := 10.0

  datatype Point = Point(x: real, y: real)
  datatype Size = Size(width: real, height: real)
  datatype Box = Box(x: real, y: real, width: real, height: real)

  /** The eight resize handles: four corners and four edge midpoints. */
  datatype Handle = NW | NE | SW | SE | N | S | E | W {
    /** The handle's name contains "w": it drags the west edge. */
    predicate MovesWest() { this == W || this == NW || this == SW }
    /** The handle's name contains "n": it drags the north edge. */
    predicate MovesNorth() { this == N || this == NE || this == NW }
    /** The handle drags the east edge. */
    predicate MovesEast() { this == E || this == NE || this == SE }
    /** The handle drags the south edge. */
    predicate MovesSouth() { this == S || this == SE || this == SW }
  }

  /** The order in which handles are tried when hit testing. */
  const HandleOrder: seq<Handle> := [NW, NE, SW, SE, N, S, E, W]

  /** A connector anchor: a side midpoint, named "top", "right", "bottom" or "left". */
  datatype Anchor = Anchor(id: string, x: real, y: real)

  /** The names of the anchors, in the order they are listed. */
  const SideNames: seq<string> := ["top", "right", "bottom", "left"]

  function Max(a: real, b: real): real { if a >= b then a else b }
  function Min(a: real, b: real): real { if a <= b then a else b }
  function Abs(a: real): real { if a < 0.0 then -a else a }

  /** The box lies on the canvas with both sides at least the minimum size. */
  predicate OnCanvas(b: Box) {
    && 0.0 <= b.x && b.x + b.width <= CanvasWidth
    && 0.0 <= b.y && b.y + b.height <= CanvasHeight
    && b.width >= MinElementSize && b.height >= MinElementSize
  }

  /** Clamps a position so that a box of the given size stays on the canvas,
      each axis on its own; a box wider (taller) than the canvas goes to 0. */
  function ConstrainToBounds(x: real, y: real, width: real, height: real): (p: Point)
    ensures p.x >= 0.0 && p.y >= 0.0
    ensures width <= CanvasWidth ==> p.x + width <= CanvasWidth
    ensures height <= CanvasHeight ==> p.y + height <= CanvasHeight
    ensures 0.0 <= x && x + width <= CanvasWidth ==> p.x == x
    ensures 0.0 <= y && y + height <= CanvasHeight ==> p.y == y
    ensures x < 0.0 || width > CanvasWidth ==> p.x == 0.0
    ensures y < 0.0 || height > CanvasHeight ==> p.y == 0.0
    ensures 0.0 <= CanvasWidth - width < x ==> p.x == CanvasWidth - width
    ensures 0.0 <= CanvasHeight - height < y ==> p.y == CanvasHeight - height
  {
    Point(Max(0.0, Min(x, CanvasWidth - width)), Max(0.0, Min(y, CanvasHeight - height)))
  }

  /** Where a handle sits on a box. */
  function HandlePoint(b: Box, h: Handle): Point {
    match h
    case NW => Point(b.x, b.y)
    case NE => Point(b.x + b.width, b.y)
    case SW => Point(b.x, b.y + b.height)
    case SE => Point(b.x + b.width, b.y + b.height)
    case N => Point(b.x + b.width / 2.0, b.y)
    case S => Point(b.x + b.width / 2.0, b.y + b.height)
    case E => Point(b.x + b.width, b.y + b.height / 2.0)
    case W => Point(b.x, b.y + b.height / 2.0)
  }

  predicate Near(p: Point, mouse: Point) {
    Abs(mouse.x - p.x) < HandleTolerance && Abs(mouse.y - p.y) < HandleTolerance
  }

  function BoxOf(position: Point, size: Size): Box {
    Box(position.x, position.y, size.width, size.height)
  }

  /** Handle number `k` of `HandleOrder` is near the mouse and no earlier one is. */
  predicate FirstHit(b: Box, mouse: Point, k: int) {
    && 0 <= k < |HandleOrder|
    && Near(HandlePoint(b, HandleOrder[k]), mouse)
    && forall j :: 0 <= j < k ==> !Near(HandlePoint(b, HandleOrder[j]), mouse)
  }

  /** The first handle of `HandleOrder`, from number `i` on, that is near the mouse. */
  function ScanHandles(b: Box, mouse: Point, i: nat): Option<Handle>
    decreases |HandleOrder| - i
  {
    if i >= |HandleOrder| then None
    else if Near(HandlePoint(b, HandleOrder[i]), mouse) then Some(HandleOrder[i])
    else ScanHandles(b, mouse, i + 1)
  }

  /** `getResizeHandle` as a value: no handle without a size, else the first hit. */
  function HandleAt(position: Point, size: Option<Size>, mouse: Point): Option<Handle> {
    if size.None? then None else ScanHandles(BoxOf(position, size.value), mouse, 0)
  }

  /** The scan from `i` finds exactly the first hit at or after `i`. */
  lemma {:induction false} ScanHandlesFindsFirstHit(b: Box, mouse: Point, i: nat)
    requires forall j :: 0 <= j < i && j < |HandleOrder| ==> !Near(HandlePoint(b, HandleOrder[j]), mouse)
    ensures var h := ScanHandles(b, mouse, i);
      && (h.Some? ==> exists k :: FirstHit(b, mouse, k) && HandleOrder[k] == h.value)
      && (h.None? ==> forall k :: 0 <= k < |HandleOrder| ==> !Near(HandlePoint(b, HandleOrder[k]), mouse))
    decreases |HandleOrder| - i
  {
    if i < |HandleOrder| {
      if Near(HandlePoint(b, HandleOrder[i]), mouse) {
        assert FirstHit(b, mouse, i);
      } else {
        ScanHandlesFindsFirstHit(b, mouse, i + 1);
      }
    }
  }

  /** The hit test returns the first handle of `HandleOrder` within tolerance, and
      none when no handle is (or the element has no size). */
  lemma HandleAtIsFirstHit(position: Point, size: Option<Size>, mouse: Point)
    ensures size.None? ==> HandleAt(position, size, mouse).None?
    ensures var h := HandleAt(position, size, mouse);
      h.Some? ==> size.Some? && (exists k :: FirstHit(BoxOf(position, size.value), mouse, k) && HandleOrder[k] == h.value)
    ensures var h := HandleAt(position, size, mouse);
      h.None? && size.Some? ==>
        forall k :: 0 <= k < |HandleOrder| ==> !Near(HandlePoint(BoxOf(position, size.value), HandleOrder[k]), mouse)
  {
  }

  /** `getResizeHandle`: tries the handles in `HandleOrder` and returns the first one
      the mouse is on; an element without a size has no handles. */
  method ResizeHandleAt(position: Point, size: Option<Size>, mouse: Point) returns (h: Option<Handle>)
    ensures h == HandleAt(position, size, mouse)
    ensures size.None? ==> h.None?
    ensures h.Some? ==> size.Some? && (exists k :: FirstHit(BoxOf(position, size.value), mouse, k) && HandleOrder[k] == h.value)
    ensures h.None? && size.Some? ==>
      forall k :: 0 <= k < |HandleOrder| ==> !Near(HandlePoint(BoxOf(position, size.value), HandleOrder[k]), mouse)
  {
    if size.None? {
      return None;
    }
    var b := BoxOf(position, size.value);
    var i := 0;
    while i < |HandleOrder|
      invariant 0 <= i <= |HandleOrder|
      invariant forall j :: 0 <= j < i ==> !Near(HandlePoint(b, HandleOrder[j]), mouse)
      invariant ScanHandles(b, mouse, i) == ScanHandles(b, mouse, 0)
    {
      if Near(HandlePoint(b, HandleOrder[i]), mouse) {
        assert FirstHit(b, mouse, i);
        return Some(HandleOrder[i]);
      }
      i := i + 1;
    }
    return None;
  }

  /** The per-handle step of a resize, before clamping: the dragged edges follow
      the mouse delta, no side drops below the minimum, and the opposite edges stay. */
  function Stretch(start: Box, handle: Handle, dx: real, dy: real): (r: Box)
    ensures handle.MovesEast() ==> r.x == start.x && r.width == Max(MinElementSize, start.width + dx)
    ensures handle.MovesWest() ==>
      r.x + r.width == start.x + start.width && r.width == Max(MinElementSize, start.width - dx)
    ensures !handle.MovesEast() && !handle.MovesWest() ==> r.x == start.x && r.width == start.width
    ensures handle.MovesSouth() ==> r.y == start.y && r.height == Max(MinElementSize, start.height + dy)
    ensures handle.MovesNorth() ==>
      r.y + r.height == start.y + start.height && r.height == Max(MinElementSize, start.height - dy)
    ensures !handle.MovesSouth() && !handle.MovesNorth() ==> r.y == start.y && r.height == start.height
  {
    var grownW := Max(MinElementSize, start.width + dx);
    var shrunkW := Max(MinElementSize, start.width - dx);
    var grownH := Max(MinElementSize, start.height + dy);
    var shrunkH := Max(MinElementSize, start.height - dy);
    match handle
    case SE => Box(start.x, start.y, grownW, grownH)
    case SW => Box(start.x + start.width - shrunkW, start.y, shrunkW, grownH)
    case NE => Box(start.x, start.y + start.height - shrunkH, grownW, shrunkH)
    case NW => Box(start.x + start.width - shrunkW, start.y + start.height - shrunkH, shrunkW, shrunkH)
    case N => Box(start.x, start.y + start.height - shrunkH, start.width, shrunkH)
    case S => Box(start.x, start.y, start.width, grownH)
    case E => Box(start.x, start.y, grownW, start.height)
    case W => Box(start.x + start.width - shrunkW, start.y, shrunkW, start.height)
  }

  /** Resizes the drag-start box `start` by the mouse delta through `handle`:
      stretch, clamp the position to the canvas, then, when a west (north) edge
      was pushed to 0, widen (heighten) the box back to the start's right (bottom) edge. */
  function Resize(start: Box, handle: Handle, dx: real, dy: real): (r: Box)
    // Always on the canvas's top-left quadrant, never below the minimum size.
    ensures r.x >= 0.0 && r.y >= 0.0
    ensures start.x >= 0.0 && start.width >= MinElementSize ==> r.width >= MinElementSize
    ensures start.y >= 0.0 && start.height >= MinElementSize ==> r.height >= MinElementSize
    // A handle moves only the axes its name mentions.
    ensures handle == N || handle == S ==> r.width == start.width
    ensures handle == E || handle == W ==> r.height == start.height
    ensures OnCanvas(start) && (handle == N || handle == S) ==> r.x == start.x
    ensures OnCanvas(start) && (handle == E || handle == W) ==> r.y == start.y
    // West handles keep the right edge, north handles keep the bottom edge.
    ensures OnCanvas(start) && handle.MovesWest() ==> r.x + r.width == start.x + start.width
    ensures OnCanvas(start) && handle.MovesNorth() ==> r.y + r.height == start.y + start.height
    // Whenever the new size fits the canvas, the box lies on it.
    ensures OnCanvas(start) && r.width <= CanvasWidth ==> r.x + r.width <= CanvasWidth
    ensures OnCanvas(start) && r.height <= CanvasHeight ==> r.y + r.height <= CanvasHeight
    // While the stretched box stays on the canvas along an axis, the dragged edges
    // follow the mouse along it (see `Stretch`).
    ensures var s := Stretch(start, handle, dx, dy);
      0.0 <= s.x && s.x + s.width <= CanvasWidth ==> r.x == s.x && r.width == s.width
    ensures var s := Stretch(start, handle, dx, dy);
      0.0 <= s.y && s.y + s.height <= CanvasHeight ==> r.y == s.y && r.height == s.height
    // Where it does not, the position is clamped: a box past the far edge is pushed
    // back to end on it, one past the near edge or larger than the canvas goes to 0.
    ensures var s := Stretch(start, handle, dx, dy);
      && (0.0 <= s.x && s.width <= CanvasWidth < s.x + s.width ==> r.x == CanvasWidth - s.width)
      && (s.x < 0.0 || s.width > CanvasWidth ==> r.x == 0.0)
    ensures var s := Stretch(start, handle, dx, dy);
      && (0.0 <= s.y && s.height <= CanvasHeight < s.y + s.height ==> r.y == CanvasHeight - s.height)
      && (s.y < 0.0 || s.height > CanvasHeight ==> r.y == 0.0)
    // Only a west (north) edge clamped to 0 changes the stretched size: the box then
    // reaches from 0 to the start's right (bottom) edge; every other size is the stretched one.
    ensures var s := Stretch(start, handle, dx, dy);
      && (handle.MovesWest() && r.x == 0.0 ==> r.width == start.x + start.width)
      && (!(handle.MovesWest() && r.x == 0.0) ==> r.width == s.width)
    ensures var s := Stretch(start, handle, dx, dy);
      && (handle.MovesNorth() && r.y == 0.0 ==> r.height == start.y + start.height)
      && (!(handle.MovesNorth() && r.y == 0.0) ==> r.height == s.height)
  {
    var s := Stretch(start, handle, dx, dy);
    var x := Max(0.0, Min(s.x, CanvasWidth - s.width));
    var y := Max(0.0, Min(s.y, CanvasHeight - s.height));
    var width := if x == 0.0 && handle.MovesWest() then start.x + start.width else s.width;
    var height := if y == 0.0 && handle.MovesNorth() then start.y + start.height else s.height;
    Box(x, y, width, height)
  }

  /** An east or south drag is not capped at the canvas edge: pulling the east
      handle of a box at the origin 2000 units to the right yields a box 2100 wide. */
  lemma ResizeEastCanLeaveCanvas()
    ensures var r := Resize(Box(0.0, 0.0, 100.0, 100.0), E, 2000.0, 0.0);
      OnCanvas(Box(0.0, 0.0, 100.0, 100.0)) && r == Box(0.0, 0.0, 2100.0, 100.0) && r.x + r.width > CanvasWidth
  {
  }

  /** An east drag that would carry the box past the right edge of the canvas moves
      the box left instead: dragging the east handle of a 100-wide box at x = 1000 by
      1000 gives a 1100-wide box at x = 500, so its west edge moves. */
  lemma ResizeEastShiftsWestEdge()
    ensures Resize(Box(1000.0, 0.0, 100.0, 100.0), E, 1000.0, 0.0) == Box(500.0, 0.0, 1100.0, 100.0)
  {
  }

  /** A west drag past the left edge of the canvas pins the box to x = 0 and
      stretches it to the start's right edge: pulling the west handle of a 100-wide
      box at x = 100 by 500 to the left gives a 200-wide box at 0. */
  lemma ResizeWestPinnedAtZero()
    ensures Resize(Box(100.0, 0.0, 100.0, 100.0), W, -500.0, 0.0) == Box(0.0, 0.0, 200.0, 100.0)
  {
  }

  function Midpoint(p: Point, q: Point): Point {
    Point((p.x + q.x) / 2.0, (p.y + q.y) / 2.0)
  }

  /** `a` holds the midpoints of the top, right, bottom and left sides of `b`, in that order. */
  predicate SideMidpoints(b: Box, a: seq<Anchor>) {
    && |a| == 4
    && Point(a[0].x, a[0].y) == Midpoint(HandlePoint(b, NW), HandlePoint(b, NE))
    && Point(a[1].x, a[1].y) == Midpoint(HandlePoint(b, NE), HandlePoint(b, SE))
    && Point(a[2].x, a[2].y) == Midpoint(HandlePoint(b, SW), HandlePoint(b, SE))
    && Point(a[3].x, a[3].y) == Midpoint(HandlePoint(b, NW), HandlePoint(b, SW))
  }

  /** The midpoints of the four sides of the element's box, top first, recomputed
      from the live geometry; none when the element has no size. */
  function AnchorPoints(position: Point, size: Option<Size>): (r: seq<Anchor>)
    ensures size.None? ==> r == []
    ensures size.Some? ==> |r| == 4 && [r[0].id, r[1].id, r[2].id, r[3].id] == SideNames
    ensures size.Some? ==> SideMidpoints(BoxOf(position, size.value), r)
  {
    match size
    case None => []
    case Some(sz) =>
      var x, y, w, h := position.x, position.y, sz.width, sz.height;
      [ Anchor("top", x + w / 2.0, y),
        Anchor("right", x + w, y + h / 2.0),
        Anchor("bottom", x + w / 2.0, y + h),
        Anchor("left", x, y + h / 2.0) ]
  }

  /** The anchor side midpoints coincide with the edge resize handles. */
  lemma AnchorsAreEdgeHandles(position: Point, size: Size)
    ensures var b := Box(position.x, position.y, size.width, size.height);
      var a := AnchorPoints(position, Some(size));
      && Point(a[0].x, a[0].y) == HandlePoint(b, N)
      && Point(a[1].x, a[1].y) == HandlePoint(b, E)
      && Point(a[2].x, a[2].y) == HandlePoint(b, S)
      && Point(a[3].x, a[3].y) == HandlePoint(b, W)
  {
  }
}
