/**
 * The scene model of the drawing canvas: drawing elements, their bounding boxes,
 * point-in-box hit testing and the drag translation.
 */
module Geometry {
  import opened Optional

  datatype Point = Point(x: real, y: real)

  /** An axis-aligned box: top-left corner, then extent. */
  datatype Box = Box(x: real, y: real, width: real, height: real)

  /** The per-type geometry of a drawing element (its `type` tag and the optional fields that go with it). */
  datatype Shape =
    | Rectangle(width: real, height: real)
    | Circle(radius: real)
    | Text(text: string)
    | Line(startX: real, startY: real, endX: real, endY: real)
    | Arrow(startX: real, startY: real, endX: real, endY: real)
  {
    predicate IsSegment() { Line? || Arrow? }
  }

  /**
   * A drawing element. Every element carries `x, y` (for a line or arrow they are the
   * corner written at creation and are not used afterwards), a colour and a stroke width.
   */
  datatype Element = Element(id: string, x: real, y: real, color: string, strokeWidth: real, shape: Shape)

  /** Height of the box around a text element, and how far above the baseline it starts. */
  const TextBoxHeight: real := 20.0
  const TextAscent: real := 16.0
  /** Approximate width of one character of text. */
  const TextCharWidth: real := 10.0

  function Min(a: real, b: real): real { if a <= b then a else b }
  function Max(a: real, b: real): real { if a <= b then b else a }
  function Abs(a: real): real { if a < 0.0 then -a else a }

  /** The sizes a drawing tool can produce are non-negative. */
  predicate WellFormed(e: Element)
  {
    match e.shape
    case Rectangle(w, h) => w >= 0.0 && h >= 0.0
    case Circle(r) => r >= 0.0
    case _ => true
  }

  /** The point the bounding box of an element is anchored to by a drag. */
  function Anchor(e: Element): Point
  {
    if e.shape.IsSegment() then Point(e.shape.startX, e.shape.startY) else Point(e.x, e.y)
  }

  /** `getElementBounds`. */
  function Bounds(e: Element): (b: Box)
    ensures WellFormed(e) ==> b.width >= 0.0 && b.height >= 0.0
    ensures e.shape.Rectangle? ==>
      Point(b.x, b.y) == Anchor(e) && b.width == e.shape.width && b.height == e.shape.height
    ensures e.shape.Circle? ==>
      b.width == b.height == 2.0 * e.shape.radius &&
      b.x + b.width / 2.0 == e.x && b.y + b.height / 2.0 == e.y
    ensures e.shape.Text? ==>
      b.x == e.x && b.y + TextAscent == e.y &&
      b.width == TextCharWidth * |e.shape.text| as real && b.height == TextBoxHeight
  {
    match e.shape
    case Rectangle(w, h) => Box(e.x, e.y, w, h)
    case Circle(r) => Box(e.x - r, e.y - r, r * 2.0, r * 2.0)
    case Text(t) => Box(e.x, e.y - TextAscent, |t| as real * TextCharWidth, TextBoxHeight)
    case Line(sx, sy, ex, ey) =>
      Box(Min(sx, ex), Min(sy, ey), Max(sx, ex) - Min(sx, ex), Max(sy, ey) - Min(sy, ey))
    case Arrow(sx, sy, ex, ey) =>
      Box(Min(sx, ex), Min(sy, ey), Max(sx, ex) - Min(sx, ex), Max(sy, ey) - Min(sy, ey))
  }

  /** Containment is inclusive on all four edges. */
  predicate InBox(b: Box, p: Point)
  {
    b.x <= p.x <= b.x + b.width && b.y <= p.y <= b.y + b.height
  }

  /** `isPointInElement`: the bounding box, not the shape itself, is tested. */
  predicate IsPointInElement(p: Point, e: Element)
    ensures e.shape.Rectangle? ==> (IsPointInElement(p, e) <==>
      e.x <= p.x <= e.x + e.shape.width && e.y <= p.y <= e.y + e.shape.height)
    ensures e.shape.Circle? ==> (IsPointInElement(p, e) <==>
      Abs(p.x - e.x) <= e.shape.radius && Abs(p.y - e.y) <= e.shape.radius)
    ensures e.shape.Text? ==> (IsPointInElement(p, e) <==>
      e.x <= p.x <= e.x + TextCharWidth * |e.shape.text| as real &&
      e.y - TextAscent <= p.y <= e.y - TextAscent + TextBoxHeight)
  {
    InBox(Bounds(e), p)
  }

  /** A box of zero size contains exactly its corner point. */
  lemma ZeroBoxContainsOnlyCorner(x: real, y: real, p: Point)
    ensures InBox(Box(x, y, 0.0, 0.0), p) <==> p == Point(x, y)
  {
  }

  /**
   * The box of a line or arrow is the smallest box containing both end points:
   * it contains them, and any box containing them contains it.
   */
  lemma SegmentBoundsAreTight(e: Element, c: Box)
    requires e.shape.IsSegment()
    ensures Bounds(e).width >= 0.0 && Bounds(e).height >= 0.0
    ensures IsPointInElement(Point(e.shape.startX, e.shape.startY), e)
    ensures IsPointInElement(Point(e.shape.endX, e.shape.endY), e)
    ensures InBox(c, Point(e.shape.startX, e.shape.startY)) && InBox(c, Point(e.shape.endX, e.shape.endY)) ==>
      InBox(c, Point(Bounds(e).x, Bounds(e).y)) &&
      InBox(c, Point(Bounds(e).x + Bounds(e).width, Bounds(e).y + Bounds(e).height))
  {
  }

  /** The box of a circle covers the whole disc. */
  lemma CircleBoundsCoverDisc(e: Element, p: Point)
    requires e.shape.Circle? && e.shape.radius >= 0.0
    requires (p.x - e.x) * (p.x - e.x) + (p.y - e.y) * (p.y - e.y) <= e.shape.radius * e.shape.radius
    ensures IsPointInElement(p, e)
  {
    var r := e.shape.radius;
    var dx, dy := p.x - e.x, p.y - e.y;
    assert dx * dx <= r * r by {
      assert dy * dy >= 0.0;
    }
    assert dy * dy <= r * r by {
      assert dx * dx >= 0.0;
    }
    WithinRadius(dx, r);
    WithinRadius(dy, r);
  }

  lemma WithinRadius(d: real, r: real)
    requires r >= 0.0 && d * d <= r * r
    ensures -r <= d <= r
  {
    if d > r {
      SquareGrows(d, r);
    }
    if d < -r {
      SquareGrows(-d, r);
    }
  }

  lemma SquareGrows(e: real, r: real)
    requires e > r >= 0.0
    ensures e * e > r * r
  {
    assert e * e - r * r == (e - r) * (e + r);
    PositiveProduct(e - r, e + r);
  }

  lemma PositiveProduct(a: real, b: real)
    requires a > 0.0 && b > 0.0
    ensures a * b > 0.0
  {
  }

  /**
   * `elements.find(el => isPointInElement(pos.x, pos.y, el))`: the index of the FIRST
   * element in list order whose box contains `p`, which is the bottom-most one drawn.
   */
  function HitTest(elements: seq<Element>, p: Point): (r: Option<nat>)
    ensures r.Some? ==>
      r.value < |elements| && IsPointInElement(p, elements[r.value]) &&
      forall j :: 0 <= j < r.value ==> !IsPointInElement(p, elements[j])
    ensures r.None? ==> forall j :: 0 <= j < |elements| ==> !IsPointInElement(p, elements[j])
  {
    if elements == [] then None
    else if IsPointInElement(p, elements[0]) then Some(0)
    else match HitTest(elements[1..], p)
      case None => None
      case Some(k) => Some(k + 1)
  }

  /** Of two overlapping elements the one drawn first (underneath) is picked. */
  lemma HitTestPicksEarlier(a: Element, b: Element, p: Point)
    requires IsPointInElement(p, a) && IsPointInElement(p, b)
    ensures HitTest([a, b], p) == Some(0)
  {
  }

  /** The pointer position relative to the element's bounding-box origin, recorded on mouse-down. */
  function DragOffset(e: Element, p: Point): (o: Point)
    ensures Point(Bounds(e).x + o.x, Bounds(e).y + o.y) == p
  {
    Point(p.x - Bounds(e).x, p.y - Bounds(e).y)
  }

  /**
   * The per-element update of a drag: `(newX, newY)` is written into `x, y`, or into
   * `startX, startY` of a line or arrow whose end point moves by the same delta.
   */
  function MoveTo(e: Element, newX: real, newY: real): (r: Element)
    ensures r.id == e.id && r.color == e.color && r.strokeWidth == e.strokeWidth
    ensures Anchor(r) == Point(newX, newY)
    ensures !e.shape.IsSegment() ==> r.shape == e.shape
    ensures e.shape.IsSegment() ==>
      r.x == e.x && r.y == e.y &&
      r.shape.Line? == e.shape.Line? && r.shape.Arrow? == e.shape.Arrow? &&
      r.shape.endX - r.shape.startX == e.shape.endX - e.shape.startX &&
      r.shape.endY - r.shape.startY == e.shape.endY - e.shape.startY
  {
    match e.shape
    case Line(sx, sy, ex, ey) =>
      e.(shape := Line(newX, newY, ex + (newX - sx), ey + (newY - sy)))
    case Arrow(sx, sy, ex, ey) =>
      e.(shape := Arrow(newX, newY, ex + (newX - sx), ey + (newY - sy)))
    case _ => e.(x := newX, y := newY)
  }

  /** A drag moves both end points of a line or arrow by the same delta. */
  lemma MoveTranslatesSegment(e: Element, newX: real, newY: real)
    requires e.shape.IsSegment()
    ensures var r := MoveTo(e, newX, newY);
      var dx, dy := newX - e.shape.startX, newY - e.shape.startY;
      r.shape.startX == e.shape.startX + dx && r.shape.startY == e.shape.startY + dy &&
      r.shape.endX == e.shape.endX + dx && r.shape.endY == e.shape.endY + dy
  {
  }

  /**
   * A press at `p` followed by a move to the same `p` puts the element's anchor on the
   * origin of its bounding box, because the offset is measured from that origin but
   * written into the anchor.
   */
  lemma PressWithoutMotion(e: Element, p: Point)
    ensures var o := DragOffset(e, p);
      Anchor(MoveTo(e, p.x - o.x, p.y - o.y)) == Point(Bounds(e).x, Bounds(e).y)
  {
  }

  /** For a rectangle that is the identity: the drag follows the pointer. */
  lemma PressWithoutMotionKeepsRectangle(e: Element, p: Point)
    requires e.shape.Rectangle?
    ensures var o := DragOffset(e, p); MoveTo(e, p.x - o.x, p.y - o.y) == e
  {
  }

  /** A circle, however, jumps up and left by its radius, and text jumps up by its ascent. */
  lemma PressWithoutMotionShiftsCircleAndText(e: Element, p: Point)
    requires e.shape.Circle? || e.shape.Text?
    ensures var o := DragOffset(e, p); var r := MoveTo(e, p.x - o.x, p.y - o.y);
      (e.shape.Circle? ==> r == e.(x := e.x - e.shape.radius, y := e.y - e.shape.radius)) &&
      (e.shape.Text? ==> r == e.(y := e.y - TextAscent))
  {
  }

  /**
   * `prev.map(...)` in the mouse-move handler: every element whose id is `selected` gets
   * the drag update, all others are kept, and the order is unchanged.
   */
  function MoveSelected(elements: seq<Element>, selected: string, newX: real, newY: real): (r: seq<Element>)
    ensures |r| == |elements|
    ensures forall i :: 0 <= i < |r| ==> r[i].id == elements[i].id
    ensures forall i :: 0 <= i < |r| && elements[i].id != selected ==> r[i] == elements[i]
    ensures forall i :: 0 <= i < |r| && elements[i].id == selected ==>
      r[i] == MoveTo(elements[i], newX, newY) && Anchor(r[i]) == Point(newX, newY)
  {
    seq(|elements|, i requires 0 <= i < |elements| =>
      if elements[i].id == selected then MoveTo(elements[i], newX, newY) else elements[i])
  }
}
