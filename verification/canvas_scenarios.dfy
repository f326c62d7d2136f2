/**
 * Client code driving a `Canvas` through its method contracts only: what a host can
 * rely on after a sequence of pointer and toolbar events.
 */
module CanvasScenarios {
  import opened Optional
  import opened Geometry
  import opened UndoHistory
  import opened DrawingCanvas

  /** A new canvas with the rectangle tool: press at (10,10), release at (60,40). */
  method DrawRectangle() returns (c: Canvas)
    ensures fresh(c) && c.Valid() && !c.readOnly && c.hasHost
    ensures c.elements == [Element("r1", 10.0, 10.0, DefaultColor, 2.0, Rectangle(50.0, 30.0))]
    ensures c.Hist() == History([[], c.elements], 1)
    ensures c.saved == [Snapshot(c.elements)]
  {
    c := new Canvas(None, false, true);
    c.SetTool(RectangleTool);
    c.MouseDown(Point(10.0, 10.0));
    c.MouseUp(Point(60.0, 40.0), "r1", 0.0);
  }

  /** With the select tool: press inside the rectangle at (30,20), move to (80,70), release. */
  method DragRectangle(c: Canvas, drawn: Element)
    requires c.Valid() && !c.readOnly
    requires drawn == Element("r1", 10.0, 10.0, DefaultColor, 2.0, Rectangle(50.0, 30.0))
    requires c.elements == [drawn] && c.Hist() == History([[], [drawn]], 1)
    modifies c
    ensures c.Valid()
    ensures c.elements == [drawn.(x := 60.0, y := 60.0)]
    ensures c.Hist() == History([[], [drawn], [drawn.(x := 60.0, y := 60.0)]], 2)
  {
    c.SetTool(SelectTool);
    c.MouseDown(Point(30.0, 20.0));
    assert IsPointInElement(Point(30.0, 20.0), drawn);
    assert c.selected == Some("r1") && c.dragOffset == Point(20.0, 10.0);
    c.MouseMove(Point(80.0, 70.0));
    assert c.elements == [drawn.(x := 60.0, y := 60.0)];
    c.MouseUp(Point(80.0, 70.0), "unused", 0.0);
  }

  /**
   * Draw, drag by (+50,+50), then undo twice: the first undo puts the rectangle back at
   * (10,10), the second empties the scene.
   */
  method DrawDragUndo() returns (dragged: Scene, afterFirstUndo: Scene, afterSecondUndo: Scene)
    ensures dragged == [Element("r1", 60.0, 60.0, DefaultColor, 2.0, Rectangle(50.0, 30.0))]
    ensures afterFirstUndo == [Element("r1", 10.0, 10.0, DefaultColor, 2.0, Rectangle(50.0, 30.0))]
    ensures afterSecondUndo == []
  {
    var c := DrawRectangle();
    DragRectangle(c, c.elements[0]);
    dragged := c.elements;
    c.Undo();
    afterFirstUndo := c.elements;
    c.Undo();
    afterSecondUndo := c.elements;
  }

  /** Clearing a canvas whose scene is its current snapshot, then undoing, restores the scene. */
  method ClearThenUndo(c: Canvas) returns (cleared: Scene, restored: Scene)
    requires c.Valid() && c.elements == c.Hist().Current()
    modifies c
    ensures cleared == [] && restored == old(c.elements)
    ensures c.hasHost ==> c.saved == old(c.saved) + [Snapshot([]), Snapshot(old(c.elements))]
  {
    c.ClearCanvas();
    cleared := c.elements;
    c.Undo();
    restored := c.elements;
  }

  /**
   * The history is not seeded with the initial data: on a canvas opened on `initial`,
   * clear followed by undo gives the empty scene, not `initial`.
   */
  method UnseededUndo(initial: Scene) returns (afterUndo: Scene)
    ensures afterUndo == []
  {
    var c := new Canvas(Some(CanvasData(initial, 800, 600)), false, true);
    c.ClearCanvas();
    c.Undo();
    afterUndo := c.elements;
  }
}
