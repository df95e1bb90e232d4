# Freehand stroke capture of the canvas drawing widget

The widget is a React component (`Canvas`) over a Konva stage. The user
picks a tool ("pen" or "eraser") and drags on the stage to draw. The
component keeps three pieces of state: the selected `tool`, the list of
strokes `lines` (each a `{tool, points}` record, `points` a flat list
`x0, y0, x1, y1, ...`), and the `isDrawing` flag. Three pointer handlers
change that state:

- pressing appends one stroke holding the current tool and the pointer
  position, and raises the flag;
- moving does nothing unless the flag is up; otherwise it appends the
  pointer position to the last stroke and puts that stroke back in place;
- releasing lowers the flag.

When the layer is rendered, each stroke is drawn with the composite
operation `"destination-out"` if its tool is `"eraser"`, and
`"source-over"` otherwise.

The model has three modules:

- `Strokes` (strokes.dfy) describes the state as a value (`Board`). Each
  handler and the tool selector is a function from the board before an
  event to the board after it. `Replay` handles a sequence of events one
  at a time. The lemmas cover the invariant and the properties of whole
  event sequences.
- `JsArray` (js_array.dfy) models `Array.prototype.splice`, the one array
  primitive the move handler uses to put the last stroke back.
- `CanvasComponent` (canvas.dfy) holds the class `Canvas`. Its fields
  `tool`, `lines` and `isDrawing` are updated in place by the handler
  methods. Each method is proved to move the object exactly as the
  matching `Strokes` function moves the board. Two client methods run
  concrete event sequences against the class.

Coordinates are `real` (JavaScript numbers; they are only copied, never
computed on). The tool is a `string`, as in the source. The pointer
position, which the source reads from the stage and asserts non-null,
is an argument of the handler.

## Model

| member | source | states |
|---|---|---|
| `Strokes.Initial` | src/components/canvas.tsx:9-14 | The component starts with the pen selected, no strokes, not drawing; this state satisfies the invariant. |
| `Strokes.Down` | src/components/canvas.tsx:25-29 | Pressing raises the flag and appends exactly one stroke, with the current tool and points exactly `[x, y]`; every earlier stroke is unchanged; the selected tool is unchanged; the invariant is preserved. |
| `Strokes.Move` | src/components/canvas.tsx:37-52 | With the flag down, a move leaves the board exactly unchanged. With the flag up, the number of strokes stays the same and every stroke but the last is unchanged. The last stroke keeps its tool, and its points become the old points followed by `[x, y]`, two numbers longer. The flag and the selected tool are unchanged, and the invariant is preserved. Requires only that a stroke exists while drawing. |
| `Strokes.Up` | src/components/canvas.tsx:54-56 | Releasing lowers the flag and leaves the strokes and the tool untouched. |
| `Strokes.ChooseTool` | src/components/canvas.tsx:115-119 | Choosing a tool changes only the selected tool; recorded strokes, including the one being drawn, and the flag are unchanged. |
| `Strokes.CompositeOperation` | src/components/canvas.tsx:199-201 | The operation is `"destination-out"` exactly when the tool is `"eraser"`, and `"source-over"` exactly when it is not. |
| `Strokes.LayerOperations` | src/components/canvas.tsx:190-203 | The rendered layer has one composite operation per stroke, in stroke order; the i-th is `"destination-out"` exactly when stroke i is an eraser stroke and `"source-over"` otherwise. |
| `Strokes.Step` | src/components/canvas.tsx:170-172 | Dispatching one event to its handler keeps "drawing implies a stroke exists" and preserves the full invariant. |
| `Strokes.Replay` | src/components/canvas.tsx:170-172 | Handling any sequence of events in dispatch order keeps "drawing implies a stroke exists" and preserves the full invariant: every stroke has an even number of coordinates, at least two. |
| `Strokes.StrokeCountIsPressCount` | src/components/canvas.tsx:25-56 | After any event sequence, the stroke list has grown by exactly the number of presses. |
| `Strokes.EarlierStrokesFrozen` | src/components/canvas.tsx:28-51 | A stroke that is not the last one, or any stroke while the flag is down, is never changed by later events. |
| `Strokes.IdleEventsKeepStrokes` | src/components/canvas.tsx:37-41 | While the flag is down, any sequence of moves and tool changes leaves the stroke list exactly unchanged. |
| `Strokes.DragExtendsLastStroke` | src/components/canvas.tsx:44-51 | While the flag is up, moves and tool changes keep the stroke count and every earlier stroke. The last stroke's points become its old points followed by every moved coordinate in order. It keeps its original tool even if the selected tool changes mid-drag. |
| `Strokes.Gesture` | src/components/canvas.tsx:25-56 | Press, then moves and tool changes, then release, appends exactly one stroke after the existing ones. It has the tool selected at the press and the points `[x, y]` followed by the moved coordinates, so it holds one point more than there were moves. The flag ends down. |
| `Strokes.PenDragExample` | src/components/canvas.tsx:25-56 | From the initial state, press (10,10), move (20,10), move (20,20), release gives the single pen stroke `[10,10,20,10,20,20]`. |
| `JsArray.Splice` | src/components/canvas.tsx:50 | `splice(start, deleteCount, ...items)` keeps the prefix, puts `items` at `start` and shifts the rest; the length changes by `|items| - deleteCount`. |
| `JsArray.SpliceOneIsUpdate` | src/components/canvas.tsx:49-50 | Splicing one element in place of one element is an update of that index: same length, nothing else moves. |
| `CanvasComponent.Canvas.constructor` | src/components/canvas.tsx:9-14 | A new canvas is in the initial state and satisfies the invariant. |
| `CanvasComponent.Canvas.SetTool` | src/components/canvas.tsx:117-119 | The object moves as `ChooseTool` says and keeps the invariant. |
| `CanvasComponent.Canvas.MouseDown` | src/components/canvas.tsx:25-29 | The object moves as `Down` says: the new list is the old list plus one stroke `(tool, [x, y])`. The flag is raised and the invariant kept. |
| `CanvasComponent.Canvas.MouseMove` | src/components/canvas.tsx:37-52 | The object moves as `Move` says: the last stroke is extended and spliced back in place. With the flag down, the strokes are exactly unchanged. The invariant is kept. |
| `CanvasComponent.Canvas.MouseUp` | src/components/canvas.tsx:54-56 | The object moves as `Up` says: the flag is lowered, the strokes are untouched and the invariant is kept. |
| `CanvasComponent.PenDragScenario` | src/components/canvas.tsx:25-56 | Driving a new canvas through press (10,10), move (20,10), move (20,20), release leaves exactly one pen stroke `[10,10,20,10,20,20]`. |
| `CanvasComponent.ToolSwitchMidDragScenario` | src/components/canvas.tsx:25-56 | Choosing the eraser mid-drag leaves the pen stroke a pen stroke, rendered `"source-over"`. A move after release is ignored. The next stroke is an eraser stroke, rendered `"destination-out"`. |

## Left out

- Rendering (the JSX tree, Konva `Stage`, `Layer`, `Line`, `Image`, the
  cursor class, tension and line caps): user interface with no state to
  verify. Only the composite-operation choice of each rendered line is
  modelled.
- Export through `toDataURL` and `downloadURI` (src/components/canvas.tsx:68-85):
  DOM element creation and a browser download.
- Background image upload through `FileReader` and the `useImage` hook
  (src/components/canvas.tsx:17, 94-103), and src/components/image.tsx
  (an asynchronous image loader built on DOM events): asynchronous I/O
  and library code.
- The background image scale factors computed from the window size
  (src/components/canvas.tsx:184-185): floating-point arithmetic on
  window dimensions.
- `setImageDimensions` (src/components/canvas.tsx:108-111): dead code, an
  assignment in an `if` with an empty body.
- Line colour and width (src/components/canvas.tsx:12-13, 149, 159,
  194-195): they are not stored per stroke. The code applies the current
  colour and width to every line when it renders. A description of the
  widget that says they affect only new strokes does not match the code;
  the model follows the code and leaves them out.
- React's state closures and update batching: each handler runs against
  the current state, one event at a time.
- The in-place aliasing of the last stroke's `points` with the previous
  state's array (src/components/canvas.tsx:46): the model captures the
  observable new list, not the sharing of the record object.
- JsArray.Splice: models only calls with `start + deleteCount` within the
  array, which is the only way the move handler calls it; JavaScript's
  clamping of out-of-range and negative arguments is not modelled.
- CanvasComponent.Canvas.MouseMove: requires the class invariant. The
  source has no guard on reading the last stroke and would throw on an
  empty list while drawing; the invariant shows that state is never
  reached.
- The tool is any string, as in the source's state type. A description
  of the widget as a two-valued pen/eraser enum is narrower than the code,
  which only compares against `"eraser"`.
