/**
 * The view state of the network graph (frontend/src/components/NetworkGraph.js)
 * and its event handlers: wheel and button zoom, reset, pause, and panning
 * by dragging. Each handler is a function from the previous state to the
 * next one.
 */
module GraphView {

  datatype Point = Point(x: real, y: real)

  /** The state cells the handlers read and set. */
  datatype View = View(scale: real, offset: Point, isDragging: bool, dragStart: Point, isSimulating: bool)

  /** The state when the component mounts. */
  const Initial := View(1.0, Point(0.0, 0.0), false, Point(0.0, 0.0), true)

  /** The user's input, with the pointer position as `clientX`/`clientY`. */
  datatype Event =
    | Wheel(deltaY: real)
    | ZoomIn
    | ZoomOut
    | Reset
    | ToggleSimulation
    | MouseDown(pointer: Point)
    | MouseMove(pointer: Point)
    | MouseUp

  function Min(a: real, b: real): real {
    if a <= b then a else b
  }

  function Max(a: real, b: real): real {
    if a >= b then a else b
  }

  /** `handleWheel`: scroll down shrinks by 0.9, up grows by 1.1, clamped to [0.1, 3]. */
  function WheelScale(scale: real, deltaY: real): (r: real)
    ensures 0.1 <= r <= 3.0
    ensures deltaY > 0.0 && 0.1 <= scale * 0.9 <= 3.0 ==> r == scale * 0.9
    ensures deltaY <= 0.0 && 0.1 <= scale * 1.1 <= 3.0 ==> r == scale * 1.1
  {
    var delta := if deltaY > 0.0 then 0.9 else 1.1;
    Max(0.1, Min(3.0, scale * delta))
  }

  /** `handleZoomIn`: grows by 1.2, capped at 3. */
  function ZoomInScale(scale: real): (r: real)
    ensures r <= 3.0 && (scale * 1.2 <= 3.0 ==> r == scale * 1.2)
  {
    Min(3.0, scale * 1.2)
  }

  /** `handleZoomOut`: shrinks by 0.8, floored at 0.1. */
  function ZoomOutScale(scale: real): (r: real)
    ensures r >= 0.1 && (scale * 0.8 >= 0.1 ==> r == scale * 0.8)
  {
    Max(0.1, scale * 0.8)
  }

  /**
   * The state after one event. Each handler sets only its own cells: the
   * scale changes only by zooming or reset, the offset only by a drag move or
   * reset, the pause state only by toggling or reset, and the drag start only
   * by a mouse-down; dragging starts on mouse-down and ends on mouse-up.
   */
  function Step(v: View, e: Event): (r: View)
    ensures r.scale != v.scale ==> e.Wheel? || e.ZoomIn? || e.ZoomOut? || e.Reset?
    ensures r.offset != v.offset ==> (e.MouseMove? && v.isDragging) || e.Reset?
    ensures r.isSimulating != v.isSimulating ==> e.ToggleSimulation? || e.Reset?
    ensures r.dragStart != v.dragStart ==> e.MouseDown?
    ensures r.isDragging <==> e.MouseDown? || (v.isDragging && !e.MouseUp?)
  {
    match e
    case Wheel(deltaY) => v.(scale := WheelScale(v.scale, deltaY))
    case ZoomIn => v.(scale := ZoomInScale(v.scale))
    case ZoomOut => v.(scale := ZoomOutScale(v.scale))
    case Reset => v.(scale := 1.0, offset := Point(0.0, 0.0), isSimulating := true)
    case ToggleSimulation => v.(isSimulating := !v.isSimulating)
    case MouseDown(p) => v.(isDragging := true, dragStart := Point(p.x - v.offset.x, p.y - v.offset.y))
    case MouseMove(p) => if v.isDragging then v.(offset := Point(p.x - v.dragStart.x, p.y - v.dragStart.y)) else v
    case MouseUp => v.(isDragging := false)
  }

  /** The state after a sequence of events, in order. */
  function Run(v: View, events: seq<Event>): View
    decreases |events|
  {
    if events == [] then v else Run(Step(v, events[0]), events[1..])
  }

  predicate ScaleInRange(v: View) {
    0.1 <= v.scale <= 3.0
  }

  /** Every event keeps the scale within [0.1, 3]. */
  lemma StepKeepsScale(v: View, e: Event)
    requires ScaleInRange(v)
    ensures ScaleInRange(Step(v, e))
  {
  }

  /** From the initial state, the scale stays within [0.1, 3] whatever the user does. */
  lemma ScaleAlwaysInRange(events: seq<Event>)
    ensures ScaleInRange(Run(Initial, events))
  {
    RunKeepsScale(Initial, events);
  }

  lemma {:induction false} RunKeepsScale(v: View, events: seq<Event>)
    requires ScaleInRange(v)
    ensures ScaleInRange(Run(v, events))
    decreases |events|
  {
    if events != [] {
      StepKeepsScale(v, events[0]);
      RunKeepsScale(Step(v, events[0]), events[1..]);
    }
  }

  /** Reset gives scale 1, offset (0, 0) and a running simulation, whatever came before. */
  lemma ResetRestores(v: View)
    ensures var r := Step(v, Reset);
      r.scale == 1.0 && r.offset == Point(0.0, 0.0) && r.isSimulating
      && r.isDragging == v.isDragging && r.dragStart == v.dragStart
  {
  }

  /** Toggling twice restores the pause state, and toggling changes nothing else. */
  lemma ToggleFlips(v: View)
    ensures Step(v, ToggleSimulation) == v.(isSimulating := !v.isSimulating)
    ensures Step(Step(v, ToggleSimulation), ToggleSimulation) == v
  {
  }

  /** A move without a drag in progress changes nothing. */
  lemma MoveWithoutDrag(v: View, p: Point)
    requires !v.isDragging
    ensures Step(v, MouseMove(p)) == v
  {
  }

  predicate AllMoves(events: seq<Event>) {
    forall k :: 0 <= k < |events| ==> events[k].MouseMove?
  }

  /**
   * After a mouse-down at `down` and any number of moves, the offset is the
   * offset at mouse-down plus the displacement of the pointer since then.
   */
  lemma DragFollowsPointer(v: View, down: Point, moves: seq<Event>)
    requires moves != [] && AllMoves(moves)
    ensures var last := moves[|moves| - 1].pointer;
      Run(Step(v, MouseDown(down)), moves).offset ==
        Point(v.offset.x + (last.x - down.x), v.offset.y + (last.y - down.y))
  {
    var w := Step(v, MouseDown(down));
    DraggingMoves(w, moves);
  }

  /** While dragging, a run of moves leaves the offset at the last pointer position minus `dragStart`. */
  lemma {:induction false} DraggingMoves(w: View, moves: seq<Event>)
    requires w.isDragging && moves != [] && AllMoves(moves)
    ensures var last := moves[|moves| - 1].pointer;
      && Run(w, moves).offset == Point(last.x - w.dragStart.x, last.y - w.dragStart.y)
      && Run(w, moves).isDragging && Run(w, moves).dragStart == w.dragStart
    decreases |moves|
  {
    var next := Step(w, moves[0]);
    if |moves| > 1 {
      assert AllMoves(moves[1..]);
      DraggingMoves(next, moves[1..]);
      assert moves[1..][|moves[1..]| - 1] == moves[|moves| - 1];
    }
  }

  /** Releasing the mouse ends the drag: later moves leave the offset alone. */
  lemma ReleaseStopsPanning(v: View, p: Point)
    ensures Step(Step(v, MouseUp), MouseMove(p)).offset == v.offset
  {
  }
}
