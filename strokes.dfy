/** The freehand stroke-capture state of the drawing canvas, as values.

    A `Board` is what the canvas component holds between events: the
    selected tool, the ordered list of strokes (insertion order is the
    rendering order) and the drawing flag. Each pointer handler and the
    tool selector is a function from the board before the event to the
    board after it; `Replay` runs a sequence of such events one at a time.
    The class in module CanvasComponent is proved to follow these
    functions step by step. */
module Strokes {

  /** One freehand path: the tool it was started with and a flat list of
      coordinates `x0, y0, x1, y1, ...`. Coordinates are only copied,
      never computed on. */
  datatype Stroke = Stroke(tool: string, points: seq<real>)

  /** The component state: current tool, strokes, and whether the pointer
      button is held. */
  datatype Board = Board(tool: string, lines: seq<Stroke>, isDrawing: bool)

  const Pen: string := "pen"
  const Eraser: string := "eraser"
  const DestinationOut: string := "destination-out"
  const SourceOver: string := "source-over"

  function Last<T>(s: seq<T>): T
    requires |s| > 0
  {
    s[|s| - 1]
  }

  /** A stroke is created with one coordinate pair and only ever extended
      by pairs. */
  predicate WellFormed(s: Stroke) {
    2 <= |s.points| && |s.points| % 2 == 0
  }

  /** What the move handler needs in order not to read past the list:
      while drawing there is a stroke to extend. */
  predicate Drawable(b: Board) {
    b.isDrawing ==> |b.lines| > 0
  }

  /** The invariant every reachable board keeps. */
  predicate Invariant(b: Board) {
    Drawable(b) && forall i :: 0 <= i < |b.lines| ==> WellFormed(b.lines[i])
  }

  /** The state the component starts in: pen selected, no strokes, not
      drawing. */
  function Initial(): (b: Board)
    ensures Invariant(b) && b.lines == [] && !b.isDrawing && b.tool == Pen
  {
    Board(Pen, [], false)
  }

  /** Pointer pressed at (x, y): exactly one stroke is appended, holding the
      current tool and the single point (x, y); earlier strokes are kept as
      they were and the drawing flag is raised. */
  function Down(b: Board, x: real, y: real): (r: Board)
    ensures r.isDrawing && r.tool == b.tool
    ensures |r.lines| == |b.lines| + 1
    ensures forall i :: 0 <= i < |b.lines| ==> r.lines[i] == b.lines[i]
    ensures Last(r.lines).tool == b.tool && Last(r.lines).points == [x, y]
    ensures Invariant(b) ==> Invariant(r)
  {
    b.(lines := b.lines + [Stroke(b.tool, [x, y])], isDrawing := true)
  }

  /** Pointer moved to (x, y): nothing happens unless the drawing flag is
      set; otherwise the last stroke's points grow by exactly (x, y), its
      tool stays the one it was created with, and every other stroke, the
      number of strokes, the flag and the selected tool are unchanged. */
  function Move(b: Board, x: real, y: real): (r: Board)
    requires Drawable(b)
    ensures !b.isDrawing ==> r == b
    ensures r.tool == b.tool && r.isDrawing == b.isDrawing
    ensures |r.lines| == |b.lines|
    ensures forall i :: 0 <= i < |b.lines| - 1 ==> r.lines[i] == b.lines[i]
    ensures b.isDrawing ==>
              Last(r.lines).tool == Last(b.lines).tool &&
              Last(r.lines).points == Last(b.lines).points + [x, y] &&
              |Last(r.lines).points| == |Last(b.lines).points| + 2
    ensures Invariant(b) ==> Invariant(r)
  {
    if !b.isDrawing then b
    else
      var n := |b.lines| - 1;
      var lastLine := b.lines[n];
      b.(lines := b.lines[n := lastLine.(points := lastLine.points + [x, y])])
  }

  /** Pointer released: the drawing flag is cleared and nothing else
      changes. */
  function Up(b: Board): (r: Board)
    ensures !r.isDrawing && r.lines == b.lines && r.tool == b.tool
    ensures Invariant(b) ==> Invariant(r)
  {
    b.(isDrawing := false)
  }

  /** Tool selector changed: only the current tool changes; strokes already
      recorded, including one being drawn, keep their own tool. */
  function ChooseTool(b: Board, t: string): (r: Board)
    ensures r.tool == t && r.lines == b.lines && r.isDrawing == b.isDrawing
    ensures Invariant(b) ==> Invariant(r)
  {
    b.(tool := t)
  }

  /** The canvas composite operation used to render a stroke: an eraser
      stroke removes the pixels under it, any other tool paints over them. */
  function CompositeOperation(tool: string): (op: string)
    ensures op == DestinationOut <==> tool == Eraser
    ensures op == SourceOver <==> tool != Eraser
  {
    if tool == Eraser then DestinationOut else SourceOver
  }

  /** The composite operations of the rendered layer, one per stroke and in
      stroke order. */
  function LayerOperations(lines: seq<Stroke>): (ops: seq<string>)
    ensures |ops| == |lines|
    ensures forall i :: 0 <= i < |lines| ==>
              (ops[i] == DestinationOut <==> lines[i].tool == Eraser) &&
              (ops[i] == SourceOver <==> lines[i].tool != Eraser)
  {
    seq(|lines|, i requires 0 <= i < |lines| => CompositeOperation(lines[i].tool))
  }

  /** The events the component reacts to, in dispatch order. */
  datatype Event =
    | Pressed(x: real, y: real)
    | Moved(x: real, y: real)
    | Released
    | ToolChosen(tool: string)

  function Step(b: Board, e: Event): (r: Board)
    requires Drawable(b)
    ensures Drawable(r)
    ensures Invariant(b) ==> Invariant(r)
  {
    match e
    case Pressed(x, y) => Down(b, x, y)
    case Moved(x, y) => Move(b, x, y)
    case Released => Up(b)
    case ToolChosen(t) => ChooseTool(b, t)
  }

  /** The board after handling `es` one event at a time. */
  function Replay(b: Board, es: seq<Event>): (r: Board)
    requires Drawable(b)
    ensures Drawable(r)
    ensures Invariant(b) ==> Invariant(r)
    decreases |es|
  {
    if es == [] then b else Replay(Step(b, es[0]), es[1..])
  }

  /** Number of pointer presses in `es`. */
  function Presses(es: seq<Event>): nat {
    if es == [] then 0 else (if es[0].Pressed? then 1 else 0) + Presses(es[1..])
  }

  /** Number of pointer moves in `es`. */
  function Moves(es: seq<Event>): nat {
    if es == [] then 0 else (if es[0].Moved? then 1 else 0) + Moves(es[1..])
  }

  /** Events that may arrive while the button stays held: moves and tool
      changes, but no press and no release. */
  predicate MidDrag(es: seq<Event>) {
    forall i :: 0 <= i < |es| ==> es[i].Moved? || es[i].ToolChosen?
  }

  /** The coordinates carried by the move events of `es`, in order: two
      numbers per move. */
  function Trace(es: seq<Event>): (t: seq<real>)
    ensures |t| == 2 * Moves(es)
  {
    if es == [] then []
    else if es[0].Moved? then [es[0].x, es[0].y] + Trace(es[1..])
    else Trace(es[1..])
  }

  /** Handling two batches of events one after the other is handling their
      concatenation. */
  lemma {:induction false} ReplayConcat(b: Board, es1: seq<Event>, es2: seq<Event>)
    requires Drawable(b)
    ensures Replay(b, es1 + es2) == Replay(Replay(b, es1), es2)
    decreases |es1|
  {
    if es1 == [] {
      assert es1 + es2 == es2;
    } else {
      assert (es1 + es2)[1..] == es1[1..] + es2;
      ReplayConcat(Step(b, es1[0]), es1[1..], es2);
    }
  }

  /** The stroke list grows by exactly one entry per press, whatever else
      happens in between. */
  lemma {:induction false} StrokeCountIsPressCount(b: Board, es: seq<Event>)
    requires Drawable(b)
    ensures |Replay(b, es).lines| == |b.lines| + Presses(es)
    decreases |es|
  {
    if es != [] {
      StrokeCountIsPressCount(Step(b, es[0]), es[1..]);
    }
  }

  /** Strokes are frozen once they stop being the one under the pointer:
      a stroke that is not the last one, or any stroke while the button is
      up, is never changed by later events. */
  lemma {:induction false} EarlierStrokesFrozen(b: Board, es: seq<Event>, i: nat)
    requires Drawable(b)
    requires i < |b.lines|
    requires i < |b.lines| - 1 || !b.isDrawing
    ensures i < |Replay(b, es).lines| && Replay(b, es).lines[i] == b.lines[i]
    decreases |es|
  {
    if es != [] {
      var b' := Step(b, es[0]);
      assert i < |b'.lines| - 1 || !b'.isDrawing;
      EarlierStrokesFrozen(b', es[1..], i);
    }
  }

  /** While the button is up, moves and tool changes never touch the
      stroke list, and the flag stays down. */
  lemma {:induction false} IdleEventsKeepStrokes(b: Board, es: seq<Event>)
    requires Drawable(b) && !b.isDrawing
    requires MidDrag(es)
    ensures Replay(b, es).lines == b.lines && !Replay(b, es).isDrawing
    decreases |es|
  {
    if es != [] {
      IdleEventsKeepStrokes(Step(b, es[0]), es[1..]);
    }
  }

  /** While the button is held, moves and tool changes only extend the
      last stroke: its points become the old points followed by every moved
      coordinate in order, it keeps the tool it was created with even when
      the selected tool changes mid-drag, and every earlier stroke stays. */
  lemma {:induction false} DragExtendsLastStroke(b: Board, es: seq<Event>)
    requires Drawable(b) && b.isDrawing
    requires MidDrag(es)
    ensures var r := Replay(b, es);
      r.isDrawing &&
      |r.lines| == |b.lines| &&
      r.lines[..|b.lines| - 1] == b.lines[..|b.lines| - 1] &&
      Last(r.lines) == Stroke(Last(b.lines).tool, Last(b.lines).points + Trace(es))
    decreases |es|
  {
    if es != [] {
      var b' := Step(b, es[0]);
      assert b'.lines[..|b.lines| - 1] == b.lines[..|b.lines| - 1];
      DragExtendsLastStroke(b', es[1..]);
      assert es[0].Moved? ==> Trace(es) == [es[0].x, es[0].y] + Trace(es[1..]);
    }
  }

  /** A whole gesture: press at (x, y), then moves (and possibly tool
      changes), then release. Exactly one stroke is appended after the
      existing ones; it has the tool selected at the press and the points
      (x, y) followed by every moved coordinate, so it holds one point more
      than there were moves; the flag ends down. */
  /** Handling a single event is one step. */
  lemma ReplayOne(b: Board, e: Event)
    requires Drawable(b)
    ensures Replay(b, [e]) == Step(b, e)
  {
  }

  lemma {:induction false} Gesture(b: Board, x: real, y: real, es: seq<Event>)
    requires Drawable(b)
    requires MidDrag(es)
    ensures var r := Replay(b, [Pressed(x, y)] + es + [Released]);
      !r.isDrawing &&
      r.lines == b.lines + [Stroke(b.tool, [x, y] + Trace(es))] &&
      |Last(r.lines).points| == 2 * (1 + Moves(es))
  {
    var pressed := Down(b, x, y);
    ReplayOne(b, Pressed(x, y));
    ReplayConcat(b, [Pressed(x, y)], es);
    var dragged := Replay(pressed, es);
    assert Replay(b, [Pressed(x, y)] + es) == dragged;
    ReplayConcat(b, [Pressed(x, y)] + es, [Released]);
    ReplayOne(dragged, Released);
    var r := Up(dragged);
    assert Replay(b, [Pressed(x, y)] + es + [Released]) == r;
    DragExtendsLastStroke(pressed, es);
    assert pressed.lines[..|b.lines|] == b.lines;
    assert dragged.lines[..|b.lines|] == b.lines;
    assert r.lines == dragged.lines[..|b.lines|] + [Last(dragged.lines)];
  }

  /** The worked example: from the initial state, press at (10, 10), move
      to (20, 10), move to (20, 20), release: one pen stroke with points
      10, 10, 20, 10, 20, 20. */
  lemma PenDragExample()
    ensures Replay(Initial(), [Pressed(10.0, 10.0), Moved(20.0, 10.0), Moved(20.0, 20.0), Released]).lines
            == [Stroke(Pen, [10.0, 10.0, 20.0, 10.0, 20.0, 20.0])]
  {
    var es := [Moved(20.0, 10.0), Moved(20.0, 20.0)];
    Gesture(Initial(), 10.0, 10.0, es);
    assert [Pressed(10.0, 10.0)] + es + [Released]
           == [Pressed(10.0, 10.0), Moved(20.0, 10.0), Moved(20.0, 20.0), Released];
    assert Trace(es[1..]) == [20.0, 20.0] + Trace(es[2..]);
    assert Trace(es) == [20.0, 10.0, 20.0, 20.0];
    assert [10.0, 10.0] + Trace(es) == [10.0, 10.0, 20.0, 10.0, 20.0, 20.0];
    assert Initial().lines + [Stroke(Pen, [10.0, 10.0] + Trace(es))]
           == [Stroke(Pen, [10.0, 10.0, 20.0, 10.0, 20.0, 20.0])];
  }
}
