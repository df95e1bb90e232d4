/** The canvas component's stroke-capture handlers as a class whose fields
    the handlers update in place. Each handler is proved to move the object
    exactly as the matching function of module Strokes moves a board, so
    the lemmas proved there (stroke count per press, frozen earlier strokes,
    the shape of a whole gesture) hold of the object too. */
module CanvasComponent {
  import opened Strokes
  import JsArray

  class Canvas {
    /** Tool chosen in the selector; new strokes are tagged with it. */
    var tool: string
    /** Strokes in creation order, which is also rendering order. */
    var lines: seq<Stroke>
    /** Whether the pointer button is currently held over the stage. */
    var isDrawing: bool

    /** The object's state as a board value. */
    function View(): Board
      reads this
    {
      Board(tool, lines, isDrawing)
    }

    ghost predicate Valid()
      reads this
    {
      Invariant(View())
    }

    constructor ()
      ensures Valid() && View() == Initial()
    {
      tool := Pen;
      lines := [];
      isDrawing := false;
    }

    /** The tool selector's change handler. */
    method SetTool(t: string)
      requires Valid()
      modifies this
      ensures Valid() && View() == ChooseTool(old(View()), t)
    {
      tool := t;
    }

    /** Starts a stroke at the pointer position (x, y) with the current
        tool. */
    method MouseDown(x: real, y: real)
      requires Valid()
      modifies this
      ensures Valid() && View() == Down(old(View()), x, y)
      ensures lines == old(lines) + [Stroke(old(tool), [x, y])]
    {
      isDrawing := true;
      lines := lines + [Stroke(tool, [x, y])];
    }

    /** Extends the stroke being drawn by the pointer position (x, y); does
        nothing while the button is up. */
    method MouseMove(x: real, y: real)
      requires Valid()
      modifies this
      ensures Valid() && View() == Move(old(View()), x, y)
      ensures !old(isDrawing) ==> lines == old(lines)
    {
      if !isDrawing {
        return;
      }
      var lastLine := lines[|lines| - 1];
      lastLine := lastLine.(points := lastLine.points + [x, y]);
      var updatedLines := lines;
      updatedLines := JsArray.Splice(updatedLines, |lines| - 1, 1, [lastLine]);
      JsArray.SpliceOneIsUpdate(lines, |lines| - 1, lastLine);
      lines := updatedLines;
    }

    /** Ends the current stroke. */
    method MouseUp()
      requires Valid()
      modifies this
      ensures Valid() && View() == Up(old(View()))
      ensures lines == old(lines)
    {
      isDrawing := false;
    }
  }

  /** A fresh canvas that receives press (10, 10), move (20, 10), move
      (20, 20), release holds exactly one pen stroke through those three
      points. */
  method PenDragScenario() returns (strokes: seq<Stroke>)
    ensures strokes == [Stroke(Pen, [10.0, 10.0, 20.0, 10.0, 20.0, 20.0])]
  {
    var c := new Canvas();
    c.MouseDown(10.0, 10.0);
    assert c.lines == [Stroke(Pen, [10.0, 10.0])];
    c.MouseMove(20.0, 10.0);
    assert [10.0, 10.0] + [20.0, 10.0] == [10.0, 10.0, 20.0, 10.0];
    assert c.lines == [Stroke(Pen, [10.0, 10.0, 20.0, 10.0])];
    c.MouseMove(20.0, 20.0);
    assert [10.0, 10.0, 20.0, 10.0] + [20.0, 20.0] == [10.0, 10.0, 20.0, 10.0, 20.0, 20.0];
    assert c.lines == [Stroke(Pen, [10.0, 10.0, 20.0, 10.0, 20.0, 20.0])];
    c.MouseUp();
    strokes := c.lines;
  }

  /** Choosing the eraser in the middle of a pen drag does not turn that
      stroke into an eraser stroke: it keeps painting over, and only the
      next stroke erases. A move after the release is ignored. */
  method ToolSwitchMidDragScenario() returns (strokes: seq<Stroke>, ops: seq<string>)
    ensures strokes == [Stroke(Pen, [1.0, 2.0, 3.0, 4.0]), Stroke(Eraser, [5.0, 6.0])]
    ensures ops == [SourceOver, DestinationOut]
  {
    var c := new Canvas();
    c.MouseDown(1.0, 2.0);
    c.SetTool(Eraser);
    c.MouseMove(3.0, 4.0);
    assert [1.0, 2.0] + [3.0, 4.0] == [1.0, 2.0, 3.0, 4.0];
    assert c.lines == [Stroke(Pen, [1.0, 2.0, 3.0, 4.0])];
    c.MouseUp();
    c.MouseMove(7.0, 8.0);
    c.MouseDown(5.0, 6.0);
    c.MouseUp();
    strokes := c.lines;
    ops := LayerOperations(strokes);
  }
}
