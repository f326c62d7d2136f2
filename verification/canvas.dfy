/**
 * The drawing canvas component: the element list, the pointer state machine of the
 * current tool, the undo/redo history and the snapshots handed to the host.
 */
module DrawingCanvas {
  import opened Optional
  import opened Seqs
  import opened Text
  import opened Geometry
  import opened UndoHistory

  datatype Tool = SelectTool | RectangleTool | CircleTool | ArrowTool | TextTool | LineTool
  {
    /** The tools that create a shape on release. */
    predicate IsShapeTool() { RectangleTool? || CircleTool? || ArrowTool? || LineTool? }
  }

  /** The externally visible snapshot handed to the host's `onSave`. */
  datatype CanvasData = CanvasData(elements: Scene, canvasWidth: int, canvasHeight: int)

  const CanvasWidth: int := 800
  const CanvasHeight: int := 600
  /** Stroke colour of every element the editor creates. */
  const DefaultColor: string := "#374151"

  /** The snapshot `triggerSave` builds: the scene on the fixed 800 by 600 surface. */
  function Snapshot(scene: Scene): (d: CanvasData)
    ensures d.elements == scene && d.canvasWidth == 800 && d.canvasHeight == 600
  {
    CanvasData(scene, CanvasWidth, CanvasHeight)
  }

  /** `radius` is half the distance from `a` to `b`, stated through its square. */
  ghost predicate IsHalfDistance(radius: real, a: Point, b: Point)
  {
    radius >= 0.0 &&
    4.0 * radius * radius == (b.x - a.x) * (b.x - a.x) + (b.y - a.y) * (b.y - a.y)
  }

  /**
   * The element the mouse-up handler builds for a shape tool from the press point
   * `start` and the release point `pos`; `radius` is the value of the square root the
   * handler takes for a circle.
   */
  function NewShape(tool: Tool, id: string, start: Point, pos: Point, radius: real): (e: Element)
    requires tool.IsShapeTool()
    ensures e.id == id && e.color == DefaultColor && e.strokeWidth == 2.0
    ensures tool != CircleTool ==> e.x == Min(start.x, pos.x) && e.y == Min(start.y, pos.y)
    ensures tool == RectangleTool ==>
      e.shape == Rectangle(Abs(pos.x - start.x), Abs(pos.y - start.y))
    ensures tool == CircleTool ==>
      e.shape == Circle(radius) && Point(e.x, e.y) == start
    ensures tool == LineTool ==> e.shape == Line(start.x, start.y, pos.x, pos.y)
    ensures tool == ArrowTool ==> e.shape == Arrow(start.x, start.y, pos.x, pos.y)
    ensures tool == CircleTool && IsHalfDistance(radius, start, pos) ==> WellFormed(e)
    ensures tool != CircleTool ==> WellFormed(e)
  {
    var x, y := Min(start.x, pos.x), Min(start.y, pos.y);
    match tool
    case RectangleTool =>
      Element(id, x, y, DefaultColor, 2.0, Rectangle(Abs(pos.x - start.x), Abs(pos.y - start.y)))
    case CircleTool =>
      Element(id, start.x, start.y, DefaultColor, 2.0, Circle(radius))
    case LineTool =>
      Element(id, x, y, DefaultColor, 2.0, Line(start.x, start.y, pos.x, pos.y))
    case ArrowTool =>
      Element(id, x, y, DefaultColor, 2.0, Arrow(start.x, start.y, pos.x, pos.y))
  }

  /**
   * A rectangle drawn from `start` to `pos` has those two points as opposite corners of
   * its box, whichever direction the drag went.
   */
  lemma RectangleSpansDrag(id: string, start: Point, pos: Point, radius: real)
    ensures var b := Bounds(NewShape(RectangleTool, id, start, pos, radius));
      b.x == Min(start.x, pos.x) && b.x + b.width == Max(start.x, pos.x) &&
      b.y == Min(start.y, pos.y) && b.y + b.height == Max(start.y, pos.y) &&
      InBox(b, start) && InBox(b, pos)
  {
  }

  /** A circle is centred on the press point and the release point lies on the circle of twice its radius. */
  lemma CircleDiameterIsDragDistance(id: string, start: Point, pos: Point, radius: real)
    requires IsHalfDistance(radius, start, pos)
    ensures var e := NewShape(CircleTool, id, start, pos, radius);
      e.x == start.x && e.y == start.y &&
      (pos.x - e.x) * (pos.x - e.x) + (pos.y - e.y) * (pos.y - e.y) ==
        (2.0 * e.shape.radius) * (2.0 * e.shape.radius)
  {
  }

  /** The element `handleTextSubmit` appends. */
  function NewText(id: string, at: Point, text: string): (e: Element)
    ensures e.id == id && e.shape == Text(text) && Anchor(e) == at
    ensures e.color == DefaultColor && e.strokeWidth == 1.0
  {
    Element(id, at.x, at.y, DefaultColor, 1.0, Text(text))
  }

  /** `elements.filter(el => el.id !== id)`. */
  function Without(elements: Scene, id: string): (r: Scene)
    ensures forall i :: 0 <= i < |r| ==> r[i].id != id
    ensures forall e {:trigger multiset(r)[e]} :: multiset(r)[e] == if e.id == id then 0 else multiset(elements)[e]
    ensures IsSubsequence(r, elements)
    ensures (forall i :: 0 <= i < |elements| ==> elements[i].id != id) ==> r == elements
  {
    Filter(elements, (e: Element) => e.id != id)
  }

  class Canvas {
    const readOnly: bool
    /** Whether the host supplied an `onSave` callback. */
    const hasHost: bool

    var tool: Tool
    var elements: Scene
    var isDrawing: bool
    var startPos: Point
    var selected: Option<string>
    var dragOffset: Point
    var history: seq<Scene>
    var historyIndex: nat
    var textInput: string
    var showTextInput: bool
    var textPosition: Point
    /** Every snapshot handed to the host so far, oldest first. */
    var saved: seq<CanvasData>

    /**
     * The history position names a snapshot, the first snapshot is the empty scene
     * (the history is never seeded with the initial data), and every snapshot handed
     * to the host has the fixed 800 by 600 size.
     */
    ghost predicate Valid()
      reads this
    {
      historyIndex < |history| && history[0] == [] &&
      forall k :: 0 <= k < |saved| ==> saved[k].canvasWidth == 800 && saved[k].canvasHeight == 600
    }

    function Hist(): History
      reads this
    {
      History(history, historyIndex)
    }

    /** `selectedElement` is truthy: present and not the empty string. */
    predicate HasSelection()
      reads this
    {
      selected.Some? && selected.value != ""
    }

    /** What `triggerSave(scene)` hands to the host: nothing when there is no `onSave`. */
    function Emitted(scene: Scene): (out: seq<CanvasData>)
      ensures |out| <= 1 && (hasHost <==> |out| == 1)
      ensures forall d :: d in out ==> d.elements == scene && d.canvasWidth == 800 && d.canvasHeight == 600
    {
      if hasHost then [Snapshot(scene)] else []
    }

    constructor (initialData: Option<CanvasData>, readOnly: bool, hasHost: bool)
      ensures Valid()
      ensures this.readOnly == readOnly && this.hasHost == hasHost
      ensures elements == if initialData.Some? then initialData.value.elements else []
      ensures Hist() == Initial()
      ensures tool == SelectTool && !isDrawing && selected == None
      ensures startPos == Point(0.0, 0.0) && dragOffset == Point(0.0, 0.0)
      ensures textInput == "" && !showTextInput && textPosition == Point(0.0, 0.0)
      ensures saved == []
    {
      this.readOnly := readOnly;
      this.hasHost := hasHost;
      elements := if initialData.Some? then initialData.value.elements else [];
      tool := SelectTool;
      isDrawing := false;
      startPos := Point(0.0, 0.0);
      selected := None;
      dragOffset := Point(0.0, 0.0);
      history := [[]];
      historyIndex := 0;
      textInput := "";
      showTextInput := false;
      textPosition := Point(0.0, 0.0);
      saved := [];
    }

    /** A toolbar button. */
    method SetTool(t: Tool)
      modifies this`tool
      ensures tool == t
    {
      tool := t;
    }

    /** `addToHistory`. */
    method AddToHistory(scene: Scene)
      requires Valid()
      modifies this`history, this`historyIndex
      ensures Valid()
      ensures Hist() == Commit(old(Hist()), scene)
    {
      CommitKeepsFirst(Hist(), scene);
      var newHistory := history[..historyIndex + 1];
      newHistory := newHistory + [scene];
      history := newHistory;
      historyIndex := |newHistory| - 1;
    }

    /** `triggerSave`. */
    method TriggerSave(scene: Scene)
      requires Valid()
      modifies this`saved
      ensures Valid()
      ensures saved == old(saved) + Emitted(scene)
    {
      if hasHost {
        saved := saved + [Snapshot(scene)];
      }
    }

    /** `undo`. */
    method Undo()
      requires Valid()
      modifies this`elements, this`historyIndex, this`saved
      ensures Valid()
      ensures Hist() == UndoHistory.Undo(old(Hist()))
      ensures old(Hist()).CanUndo() ==> elements == Hist().Current() && saved == old(saved) + Emitted(elements)
      ensures !old(Hist()).CanUndo() ==> elements == old(elements) && saved == old(saved)
    {
      if historyIndex > 0 {
        var newElements := history[historyIndex - 1];
        historyIndex := historyIndex - 1;
        elements := newElements;
        TriggerSave(newElements);
      }
    }

    /** `redo`. */
    method Redo()
      requires Valid()
      modifies this`elements, this`historyIndex, this`saved
      ensures Valid()
      ensures Hist() == UndoHistory.Redo(old(Hist()))
      ensures old(Hist()).CanRedo() ==> elements == Hist().Current() && saved == old(saved) + Emitted(elements)
      ensures !old(Hist()).CanRedo() ==> elements == old(elements) && saved == old(saved)
    {
      if historyIndex < |history| - 1 {
        var newElements := history[historyIndex + 1];
        historyIndex := historyIndex + 1;
        elements := newElements;
        TriggerSave(newElements);
      }
    }

    /** `handleMouseDown` at canvas position `pos`. */
    method MouseDown(pos: Point)
      requires Valid()
      modifies this`startPos, this`selected, this`dragOffset, this`isDrawing, this`textPosition, this`showTextInput
      ensures Valid()
      ensures readOnly ==> unchanged(this)
      ensures !readOnly ==> startPos == pos
      ensures !readOnly && tool == SelectTool ==>
        textPosition == old(textPosition) && showTextInput == old(showTextInput) &&
        match HitTest(elements, pos)
        case Some(i) =>
          selected == Some(elements[i].id) && dragOffset == DragOffset(elements[i], pos) && isDrawing
        case None =>
          selected == None && dragOffset == old(dragOffset) && isDrawing == old(isDrawing)
      ensures !readOnly && tool == TextTool ==>
        textPosition == pos && showTextInput &&
        selected == old(selected) && dragOffset == old(dragOffset) && isDrawing == old(isDrawing)
      ensures !readOnly && tool.IsShapeTool() ==>
        isDrawing && selected == None && dragOffset == old(dragOffset) &&
        textPosition == old(textPosition) && showTextInput == old(showTextInput)
    {
      if readOnly {
        return;
      }
      startPos := pos;
      if tool == SelectTool {
        var clicked := HitTest(elements, pos);
        if clicked.Some? {
          var el := elements[clicked.value];
          selected := Some(el.id);
          dragOffset := DragOffset(el, pos);
          isDrawing := true;
        } else {
          selected := None;
        }
      } else if tool == TextTool {
        textPosition := pos;
        showTextInput := true;
      } else {
        isDrawing := true;
        selected := None;
      }
    }

    /** `handleMouseMove`: while dragging a selection, every element with the selected id follows the pointer. */
    method MouseMove(pos: Point)
      requires Valid()
      modifies this`elements
      ensures Valid()
      ensures isDrawing && !readOnly && tool == SelectTool && HasSelection() ==>
        elements == MoveSelected(old(elements), selected.value, pos.x - dragOffset.x, pos.y - dragOffset.y)
      ensures !(isDrawing && !readOnly && tool == SelectTool && HasSelection()) ==>
        elements == old(elements)
    {
      if !isDrawing || readOnly {
        return;
      }
      if tool == SelectTool && HasSelection() {
        elements := MoveSelected(elements, selected.value, pos.x - dragOffset.x, pos.y - dragOffset.y);
      }
    }

    /**
     * `handleMouseUp` at `pos`. `id` stands for the id the handler generates, and
     * `radius` for the square-root value it computes when the tool is the circle.
     */
    method MouseUp(pos: Point, id: string, radius: real)
      requires Valid()
      requires tool == CircleTool ==> IsHalfDistance(radius, startPos, pos)
      modifies this`elements, this`history, this`historyIndex, this`saved, this`isDrawing
      ensures Valid()
      ensures !old(isDrawing) || readOnly ==> unchanged(this)
      ensures old(isDrawing) && !readOnly ==> !isDrawing
      ensures old(isDrawing) && !readOnly && tool.IsShapeTool() ==>
        elements == old(elements) + [NewShape(tool, id, startPos, pos, radius)] &&
        WellFormed(elements[|elements| - 1]) &&
        Hist() == Commit(old(Hist()), elements) && saved == old(saved) + Emitted(elements)
      ensures old(isDrawing) && !readOnly && tool == SelectTool && HasSelection() ==>
        elements == old(elements) &&
        Hist() == Commit(old(Hist()), elements) && saved == old(saved) + Emitted(elements)
      ensures old(isDrawing) && !readOnly && !tool.IsShapeTool() && !(tool == SelectTool && HasSelection()) ==>
        elements == old(elements) && Hist() == old(Hist()) && saved == old(saved)
    {
      if !isDrawing || readOnly {
        return;
      }
      if tool.IsShapeTool() {
        var newElement := NewShape(tool, id, startPos, pos, radius);
        var newElements := elements + [newElement];
        assert newElements[|newElements| - 1] == newElement;
        elements := newElements;
        AddToHistory(newElements);
        TriggerSave(newElements);
      } else if tool == SelectTool && HasSelection() {
        AddToHistory(elements);
        TriggerSave(elements);
      }
      isDrawing := false;
    }

    /** The text prompt's `onChange`. */
    method SetTextInput(s: string)
      modifies this`textInput
      ensures textInput == s
    {
      textInput := s;
    }

    /** `handleTextSubmit`: add a text element when the input is not blank, then close the prompt. */
    method TextSubmit(id: string)
      requires Valid()
      modifies this`elements, this`history, this`historyIndex, this`saved, this`textInput, this`showTextInput
      ensures Valid()
      ensures textInput == "" && !showTextInput
      ensures Trim(old(textInput)) != "" ==>
        elements == old(elements) + [NewText(id, textPosition, old(textInput))] &&
        Hist() == Commit(old(Hist()), elements) && saved == old(saved) + Emitted(elements)
      ensures Trim(old(textInput)) == "" ==>
        elements == old(elements) && Hist() == old(Hist()) && saved == old(saved)
    {
      if Trim(textInput) != "" {
        var newElement := NewText(id, textPosition, textInput);
        var newElements := elements + [newElement];
        elements := newElements;
        AddToHistory(newElements);
        TriggerSave(newElements);
      }
      textInput := "";
      showTextInput := false;
    }

    /** Escape or Cancel in the text prompt: the prompt closes, the typed text stays. */
    method CancelText()
      modifies this`showTextInput
      ensures !showTextInput
    {
      showTextInput := false;
    }

    /** `deleteSelected`. */
    method DeleteSelected()
      requires Valid()
      modifies this`elements, this`history, this`historyIndex, this`selected, this`saved
      ensures Valid()
      ensures !old(HasSelection()) ==> unchanged(this)
      ensures old(HasSelection()) ==>
        elements == Without(old(elements), old(selected).value) &&
        Hist() == Commit(old(Hist()), elements) && selected == None &&
        saved == old(saved) + Emitted(elements)
    {
      if HasSelection() {
        var newElements := Without(elements, selected.value);
        elements := newElements;
        AddToHistory(newElements);
        selected := None;
        TriggerSave(newElements);
      }
    }

    /** `clearCanvas`. */
    method ClearCanvas()
      requires Valid()
      modifies this`elements, this`history, this`historyIndex, this`selected, this`saved
      ensures Valid()
      ensures elements == [] && Hist() == Commit(old(Hist()), []) && selected == None
      ensures saved == old(saved) + Emitted([])
    {
      var newElements: Scene := [];
      elements := newElements;
      AddToHistory(newElements);
      selected := None;
      TriggerSave(newElements);
    }

    /** `saveCanvas`: hand the current scene to the host without touching the history. */
    method SaveCanvas()
      requires Valid()
      modifies this`saved
      ensures Valid()
      ensures saved == old(saved) + Emitted(elements)
    {
      TriggerSave(elements);
    }
  }
}
