/**
 * Editing a curve's points (packages/app/src/CurveEditor.tsx): the drawing surface's coordinates, and
 * adding, dragging, selecting and deleting points while the edited input may start or stop following
 * an audio envelope. Floating-point numbers are taken as reals.
 */
module CurveEditor {
  import opened Prelude

  const WIDTH: real := 1000.0
  const HEIGHT: real := 600.0
  const INSET: real := 18.0
  const MAX_POINTS: nat := 4096

  datatype Point = Point(position: real, value: real)

  type Points = seq<Point>

  /** The surface's place on screen. */
  datatype Rect = Rect(left: real, top: real, width: real, height: real)

  datatype Client = Client(x: real, y: real, rect: Rect)

  // ---- Coordinates ----

  function MaxReal(a: real, b: real): real {
    if a < b then b else a
  }

  function Clamp(value: real): (c: real)
    ensures 0.0 <= c <= 1.0
    ensures 0.0 <= value <= 1.0 <==> c == value
  {
    MaxReal(0.0, if value < 1.0 then value else 1.0)
  }

  function PointX(position: real): real {
    INSET + Clamp(position) * (WIDTH - INSET * 2.0)
  }

  function PointY(value: real): real {
    INSET + (1.0 - Clamp(value)) * (HEIGHT - INSET * 2.0)
  }

  /** The position axis reaches from 0 to at least 1, and to the last point. */
  function Extent(points: Points): (e: real)
    ensures e >= 1.0
    ensures points != [] ==> points[|points| - 1].position <= e
  {
    MaxReal(1.0, if points == [] then 0.0 else points[|points| - 1].position)
  }

  function CurveX(position: real, extent: real): real
    requires extent > 0.0
  {
    PointX(position / extent)
  }

  /** A client coordinate on the scale of the view, of which `full` units fill `size` on screen. */
  function ViewOf(client: real, origin: real, size: real, full: real): real
    requires size > 0.0
  {
    (client - origin) / size * full
  }

  /** How far along its axis a view coordinate lies. */
  function AlongX(viewX: real): (part: real)
    ensures 0.0 <= part <= 1.0
  {
    Clamp((viewX - INSET) / (WIDTH - INSET * 2.0))
  }

  function AlongY(viewY: real): real {
    Clamp(1.0 - (viewY - INSET) / (HEIGHT - INSET * 2.0))
  }

  predicate OnScreen(at: Client) {
    at.rect.width > 0.0 && at.rect.height > 0.0
  }

  function ViewX(at: Client): real
    requires OnScreen(at)
  {
    ViewOf(at.x, at.rect.left, at.rect.width, WIDTH)
  }

  function ViewY(at: Client): real
    requires OnScreen(at)
  {
    ViewOf(at.y, at.rect.top, at.rect.height, HEIGHT)
  }

  /** The position a part of the way along the axis. */
  function PositionAt(part: real, extent: real): (position: real)
    requires 0.0 <= part <= 1.0 && extent > 0.0
    ensures 0.0 <= position <= extent
  {
    var position := part * extent;
    assert position <= 1.0 * extent;
    position
  }

  function PointFromView(viewX: real, viewY: real, extent: real): (p: Point)
    requires extent > 0.0
    ensures 0.0 <= p.position <= extent && 0.0 <= p.value <= 1.0
  {
    Point(PositionAt(AlongX(viewX), extent), AlongY(viewY))
  }

  /** Whatever the pointer does, the point read lies within the axes. */
  function PointFromEvent(at: Client, extent: real): (p: Point)
    requires OnScreen(at) && extent > 0.0
    ensures 0.0 <= p.position <= extent && 0.0 <= p.value <= 1.0
  {
    PointFromView(ViewX(at), ViewY(at), extent)
  }

  /** The pointer is where a point is drawn. */
  predicate IsAt(at: Client, p: Point, extent: real)
    requires OnScreen(at) && extent > 0.0
  {
    ViewX(at) == CurveX(p.position, extent) && ViewY(at) == PointY(p.value)
  }

  lemma MulDiv(a: real, b: real)
    requires b > 0.0
    ensures a * b / b == a && a / b * b == a
  {
  }

  lemma InBounds(a: real, b: real)
    requires b > 0.0
    ensures 0.0 <= a / b <= 1.0 <==> 0.0 <= a <= b
  {
    MulDiv(a, b);
    if a / b < 0.0 { assert a / b * b < 0.0; }
    if a / b > 1.0 { assert a / b * b > 1.0 * b; }
    if 0.0 <= a / b <= 1.0 { assert 0.0 <= a / b * b <= 1.0 * b; }
  }

  /** The surface is stretched over its rectangle; undoing that gives the view coordinate back. */
  lemma ViewRecovered(origin: real, view: real, full: real, size: real)
    requires full > 0.0 && size > 0.0
    ensures ViewOf(origin + view / full * size, origin, size, full) == view
  {
    MulDiv(view / full, size);
    MulDiv(view, full);
  }

  /** So every point is drawn somewhere on every rectangle. */
  lemma DrawnSomewhere(p: Point, extent: real, rect: Rect) returns (at: Client)
    requires extent > 0.0 && rect.width > 0.0 && rect.height > 0.0
    ensures at.rect == rect && IsAt(at, p, extent)
  {
    var x, y := CurveX(p.position, extent), PointY(p.value);
    ViewRecovered(rect.left, x, WIDTH, rect.width);
    ViewRecovered(rect.top, y, HEIGHT, rect.height);
    at := Client(rect.left + x / WIDTH * rect.width, rect.top + y / HEIGHT * rect.height, rect);
  }

  /** Reading back what is drawn: the point held within the axes. */
  lemma ReadAlong(part: real, value: real)
    ensures AlongX(PointX(part)) == Clamp(part)
    ensures AlongY(PointY(value)) == Clamp(value)
  {
  }

  /** Reading the pointer inverts drawing exactly on the points within the axes. */
  lemma PointerInvertsDrawingIff(at: Client, p: Point, extent: real)
    requires OnScreen(at) && extent > 0.0 && IsAt(at, p, extent)
    ensures PointFromEvent(at, extent) == p <==> 0.0 <= p.position <= extent && 0.0 <= p.value <= 1.0
  {
    ReadAlong(p.position / extent, p.value);
    InvertsIff(ViewX(at), ViewY(at), p, extent);
  }

  lemma InvertsIff(x: real, y: real, p: Point, extent: real)
    requires extent > 0.0 && x == CurveX(p.position, extent) && y == PointY(p.value)
    ensures PointFromView(x, y, extent) == p <==> 0.0 <= p.position <= extent && 0.0 <= p.value <= 1.0
  {
    ReadAlong(p.position / extent, p.value);
    InBounds(p.position, extent);
    MulDiv(p.position, extent);
    MulDiv(Clamp(p.position / extent), extent);
  }

  // ---- Curves ----

  ghost predicate Increasing(points: Points) {
    forall i, j :: 0 <= i < j < |points| ==> points[i].position < points[j].position
  }

  /** What the stored format accepts of a curve's points. */
  ghost predicate IsCurve(points: Points) {
    1 <= |points| <= MAX_POINTS && Increasing(points)
  }

  /** A box that holds 0..1 by 0..1. */
  datatype Bounds = Bounds(low: real, high: real, bottom: real, top: real)

  ghost predicate HoldsUnit(b: Bounds) {
    b.low <= 0.0 && 1.0 <= b.high && b.bottom <= 0.0 && 1.0 <= b.top
  }

  /** Every point within given bounds. */
  ghost predicate Within(points: Points, b: Bounds) {
    forall p :: p in points ==> b.low <= p.position <= b.high && b.bottom <= p.value <= b.top
  }

  /** Every value within 0..1. */
  ghost predicate UnitValues(points: Points) {
    forall p :: p in points ==> 0.0 <= p.value <= 1.0
  }

  /** The stable sort by position. */
  function Inserted(points: Points, p: Point): (r: Points)
    ensures |r| == |points| + 1
  {
    if points == [] || points[|points| - 1].position <= p.position then points + [p] else
    Inserted(points[..|points| - 1], p) + [points[|points| - 1]]
  }

  function SortedByPosition(points: Points): (r: Points)
    ensures |r| == |points|
  {
    if points == [] then [] else Inserted(SortedByPosition(points[..|points| - 1]), points[|points| - 1])
  }

  /** Two neighbours share a position. */
  predicate Collides(points: Points) {
    exists i :: 0 < i < |points| && points[i].position == points[i - 1].position
  }

  function IndexOf(points: Points, p: Point): (i: nat)
    requires p in points
    ensures i < |points| && points[i] == p && p !in points[..i]
  {
    if points[0] == p then 0 else
    assert points == [points[0]] + points[1..];
    assert p in points[1..];
    var rest := IndexOf(points[1..], p);
    assert points[..rest + 1] == [points[0]] + points[1..][..rest];
    rest + 1
  }

  function Without(points: Points, index: nat): Points {
    if index < |points| then points[..index] + points[index + 1..] else points
  }

  /** How many points lie at or before a position. */
  function PlaceOf(points: Points, position: real): (k: nat)
    requires Increasing(points)
    ensures k <= |points|
    ensures forall i :: 0 <= i < k ==> points[i].position <= position
    ensures forall i :: k <= i < |points| ==> points[i].position > position
  {
    if points == [] || points[|points| - 1].position <= position then |points| else
    PlaceOf(points[..|points| - 1], position)
  }

  lemma {:induction false} InsertedAt(points: Points, p: Point)
    requires Increasing(points)
    ensures Inserted(points, p) == points[..PlaceOf(points, p.position)] + [p] + points[PlaceOf(points, p.position)..]
  {
    if points != [] && points[|points| - 1].position > p.position {
      var init := points[..|points| - 1];
      var k := PlaceOf(init, p.position);
      InsertedAt(init, p);
      assert points[..k] == init[..k];
      assert points[k..] == init[k..] + [points[|points| - 1]];
    } else {
      assert points[..|points|] == points;
    }
  }

  lemma {:induction false} AlreadySorted(points: Points)
    requires Increasing(points)
    ensures SortedByPosition(points) == points
  {
    if points != [] {
      AlreadySorted(points[..|points| - 1]);
    }
  }

  /** Sorting one new point into a curve puts it at its place; it collides exactly when its position is taken. */
  lemma {:induction false} SortingInOnePoint(points: Points, p: Point)
    requires Increasing(points)
    ensures var k := PlaceOf(points, p.position);
            var next := SortedByPosition(points + [p]);
            && next == points[..k] + [p] + points[k..]
            && (Collides(next) <==> exists q :: q in points && q.position == p.position)
            && (!Collides(next) ==> Increasing(next) && IndexOf(next, p) == k)
            && Without(next, k) == points
  {
    assert (points + [p])[..|points|] == points;
    AlreadySorted(points);
    InsertedAt(points, p);
    var k := PlaceOf(points, p.position);
    InsertedShape(points, p, k);
  }

  lemma {:induction false} TakenIsJustBefore(points: Points, p: Point, q: Point)
    requires Increasing(points) && q in points && q.position == p.position
    ensures var k := PlaceOf(points, p.position);
            k > 0 && points[k - 1] == q
  {
    var k := PlaceOf(points, p.position);
    var m :| 0 <= m < |points| && points[m] == q;
  }

  lemma {:induction false} FreePlaceIncreasing(points: Points, p: Point, k: nat)
    requires Increasing(points) && k == PlaceOf(points, p.position)
    requires k > 0 ==> points[k - 1].position != p.position
    ensures Increasing(points[..k] + [p] + points[k..])
  {
    var next := points[..k] + [p] + points[k..];
    forall i | 0 <= i < k
      ensures points[i].position < p.position
    {
      assert i < k - 1 ==> points[i].position < points[k - 1].position;
    }
    forall i, j | 0 <= i < j < |next|
      ensures next[i].position < next[j].position
    {
      assert next[i] == if i < k then points[i] else if i == k then p else points[i - 1];
      assert next[j] == if j < k then points[j] else if j == k then p else points[j - 1];
    }
  }

  lemma {:induction false} InsertedShape(points: Points, p: Point, k: nat)
    requires Increasing(points) && k == PlaceOf(points, p.position)
    ensures var next := points[..k] + [p] + points[k..];
            && (Collides(next) <==> exists q :: q in points && q.position == p.position)
            && (!Collides(next) ==> Increasing(next) && IndexOf(next, p) == k)
            && Without(next, k) == points
  {
    var next := points[..k] + [p] + points[k..];
    assert next[k] == p && (k > 0 ==> next[k - 1] == points[k - 1]);
    if k > 0 && points[k - 1].position == p.position {
      assert points[k - 1] in points;
      assert next[k].position == next[k - 1].position;
    } else {
      if q :| q in points && q.position == p.position {
        TakenIsJustBefore(points, p, q);
      }
      FreePlaceIncreasing(points, p, k);
      IncreasingDoesNotCollide(next);
      assert IndexOf(next, p) == k;
    }
    assert Without(next, k) == points;
  }

  lemma IncreasingDoesNotCollide(points: Points)
    requires Increasing(points)
    ensures !Collides(points)
  {
    forall i | 0 < i < |points|
      ensures points[i].position != points[i - 1].position
    {
      assert points[i - 1].position < points[i].position;
    }
  }

  // ---- The editor ----

  /** Whether the edited input has its own curve, follows an envelope, or is not available. */
  datatype Mode = Editing | Following | Unavailable

  datatype Drag = Drag(pointer: int, index: nat)

  /** The component's signals and the drag in progress. */
  datatype Editor = Editor(draft: Option<Points>, computed: Option<Points>, selected: Option<nat>,
                           drag: Option<Drag>, mode: Mode)

  datatype Event =
    | DoubleClick(at: Client)
    | PointerDown(pointer: int, index: nat, captured: bool, at: Client)
    | PointerMove(pointer: int, index: nat, at: Client)
    | PointerReleased(pointer: int)
    | Click(index: nat)
    | DeletePoint
    | ModeChanged(mode: Mode)
    | CurveComputed(points: Points)

  function Displayed(s: Editor): Option<Points> {
    if s.mode == Following then s.computed else s.draft
  }

  function AxisEnd(s: Editor): (e: real)
    ensures e >= 1.0
  {
    Extent(if Displayed(s).Some? then Displayed(s).value else [])
  }

  function Added(s: Editor, at: Client): Editor
    requires OnScreen(at)
  {
    if s.mode != Editing || s.draft == None || |s.draft.value| >= MAX_POINTS then s else
    var added := PointFromEvent(at, AxisEnd(s));
    var next := SortedByPosition(s.draft.value + [added]);
    SortedHolds(s.draft.value, added);
    if Collides(next) then s else
    s.(draft := Some(next), selected := Some(IndexOf(next, added)))
  }

  /** A dragged point keeps its position where the pointer would carry it to or past a neighbour. */
  function MovedPoint(points: Points, index: nat, moved: Point): Point
    requires index < |points|
  {
    var blocked := (index > 0 && moved.position <= points[index - 1].position)
                   || (index + 1 < |points| && moved.position >= points[index + 1].position);
    Point(if blocked then points[index].position else moved.position, moved.value)
  }

  function Moved(s: Editor, pointer: int, index: nat, at: Client): Editor
    requires OnScreen(at)
  {
    if s.mode != Editing || s.drag != Some(Drag(pointer, index)) || s.draft == None || index >= |s.draft.value| then s else
    var moved := PointFromEvent(at, AxisEnd(s));
    s.(draft := Some(s.draft.value[index := MovedPoint(s.draft.value, index, moved)]), selected := Some(index))
  }

  function DragStarted(s: Editor, pointer: int, index: nat, captured: bool, at: Client): Editor
    requires OnScreen(at)
  {
    if s.mode != Editing then s else
    if !captured then s.(drag := None) else Moved(s.(drag := Some(Drag(pointer, index))), pointer, index, at)
  }

  function Released(s: Editor, pointer: int): Editor {
    if s.drag.Some? && s.drag.value.pointer == pointer then s.(drag := None) else s
  }

  /** Reading the delete button's state looks at the draft. */
  predicate DeleteButtonFails(s: Editor) {
    s.mode == Editing && s.selected.Some? && s.draft == None
  }

  ghost predicate DeleteButtonFailsAfter(points: Points, own: bool, events: seq<Event>) {
    DeleteButtonFails(Run(points, own, events))
  }

  predicate DeleteOffered(s: Editor) {
    s.mode == Editing && s.selected.Some? && s.draft.Some? && |s.draft.value| > 1
  }

  function Deleted(s: Editor): Editor
    requires DeleteOffered(s)
  {
    s.(draft := Some(Without(s.draft.value, s.selected.value)), selected := None)
  }

  ghost predicate Enabled(s: Editor, e: Event) {
    match e
    case DoubleClick(at) => OnScreen(at)
    case PointerDown(_, index, _, at) => OnScreen(at) && Displayed(s).Some? && index < |Displayed(s).value|
    case PointerMove(_, index, at) => OnScreen(at) && Displayed(s).Some? && index < |Displayed(s).value|
    case PointerReleased(_) => true
    case Click(index) => Displayed(s).Some? && index < |Displayed(s).value|
    case DeletePoint => DeleteOffered(s)
    case ModeChanged(_) => true
    case CurveComputed(points) => s.mode == Following && IsCurve(points)
  }

  ghost function Step(s: Editor, e: Event): Editor {
    if !Enabled(s, e) then s else
    match e
    case DoubleClick(at) => Added(s, at)
    case PointerDown(pointer, index, captured, at) => DragStarted(s, pointer, index, captured, at)
    case PointerMove(pointer, index, at) => Moved(s, pointer, index, at)
    case PointerReleased(pointer) => Released(s, pointer)
    case Click(index) => s.(selected := Some(index))
    case DeletePoint => Deleted(s)
    case ModeChanged(mode) => s.(mode := mode, computed := None)
    case CurveComputed(points) => s.(computed := Some(points))
  }

  /** The editor opened on an input with a curve of its own, or on one that follows an envelope. */
  function Opening(points: Points, own: bool): Editor {
    Editor(if own then Some(points) else None, None, None, None, if own then Editing else Following)
  }

  ghost function Run(points: Points, own: bool, events: seq<Event>): Editor {
    if events == [] then Opening(points, own)
    else Step(Run(points, own, events[..|events| - 1]), events[|events| - 1])
  }

  // ---- What is true of every reachable state ----

  ghost predicate DraftIsCurve(s: Editor) {
    s.draft.Some? ==> IsCurve(s.draft.value)
  }

  ghost predicate DraftWithin(s: Editor, b: Bounds) {
    s.draft.Some? ==> Within(s.draft.value, b)
  }

  lemma AddingKeepsCurve(s: Editor, at: Client)
    requires OnScreen(at) && DraftIsCurve(s)
    ensures DraftIsCurve(Added(s, at))
  {
    if s.draft.Some? {
      SortingInOnePoint(s.draft.value, PointFromEvent(at, AxisEnd(s)));
    }
  }

  lemma MovingKeepsCurve(s: Editor, pointer: int, index: nat, at: Client)
    requires OnScreen(at) && DraftIsCurve(s)
    ensures DraftIsCurve(Moved(s, pointer, index, at))
  {
    if s.draft.Some? && index < |s.draft.value| {
      MovedIncreasing(s.draft.value, index, PointFromEvent(at, AxisEnd(s)));
    }
  }

  lemma MovedIncreasing(points: Points, index: nat, moved: Point)
    requires Increasing(points) && index < |points|
    ensures Increasing(points[index := MovedPoint(points, index, moved)])
  {
    var next := points[index := MovedPoint(points, index, moved)];
    forall i, j | 0 <= i < j < |next|
      ensures next[i].position < next[j].position
    {
      assert i + 1 < j ==> points[i].position < points[i + 1].position < points[j].position;
      if i == index {
        assert points[index + 1].position <= points[j].position;
      } else if j == index {
        assert points[i].position <= points[index - 1].position;
      }
    }
  }

  lemma WithoutIncreasing(points: Points, index: nat)
    requires Increasing(points)
    ensures Increasing(Without(points, index))
  {
    var next := Without(points, index);
    if index < |points| {
      forall i, j | 0 <= i < j < |next|
        ensures next[i].position < next[j].position
      {
        assert next[i] == points[if i < index then i else i + 1];
        assert next[j] == points[if j < index then j else j + 1];
      }
    }
  }

  lemma StepKeepsCurve(s: Editor, e: Event)
    requires DraftIsCurve(s)
    ensures DraftIsCurve(Step(s, e))
  {
    if Enabled(s, e) {
      match e
      case DoubleClick(at) => AddingKeepsCurve(s, at);
      case PointerDown(pointer, index, captured, at) =>
        MovingKeepsCurve(s.(drag := Some(Drag(pointer, index))), pointer, index, at);
      case PointerMove(pointer, index, at) => MovingKeepsCurve(s, pointer, index, at);
      case DeletePoint => WithoutIncreasing(s.draft.value, s.selected.value);
      case _ =>
    }
  }

  lemma AddingStaysWithin(s: Editor, at: Client, b: Bounds)
    requires OnScreen(at) && DraftIsCurve(s) && DraftWithin(s, b) && HoldsUnit(b)
    ensures DraftWithin(Added(s, at), b)
  {
    if s.mode == Editing && s.draft.Some? {
      var p := PointFromEvent(at, AxisEnd(s));
      SortingInOnePoint(s.draft.value, p);
      AxisWithin(s.draft.value, b);
      ReadWithin(at, AxisEnd(s), b);
      JoinedWithin(s.draft.value, PlaceOf(s.draft.value, p.position), p, b);
    }
  }

  lemma ReadWithin(at: Client, extent: real, b: Bounds)
    requires OnScreen(at) && HoldsUnit(b) && 1.0 <= extent <= b.high
    ensures Within([PointFromEvent(at, extent)], b)
  {
  }

  lemma JoinedWithin(points: Points, k: nat, p: Point, b: Bounds)
    requires k <= |points| && Within(points, b) && Within([p], b)
    ensures Within(points[..k] + [p] + points[k..], b)
  {
    forall q | q in points[..k] + [p] + points[k..]
      ensures q in [p] || q in points
    {
    }
  }

  lemma AxisWithin(points: Points, b: Bounds)
    requires IsCurve(points) && Within(points, b) && HoldsUnit(b)
    ensures Extent(points) <= b.high
  {
    assert points[|points| - 1] in points;
  }

  lemma MovingStaysWithin(s: Editor, pointer: int, index: nat, at: Client, b: Bounds)
    requires OnScreen(at) && DraftIsCurve(s) && DraftWithin(s, b) && HoldsUnit(b)
    ensures DraftWithin(Moved(s, pointer, index, at), b)
  {
    if s.mode == Editing && s.draft.Some? && index < |s.draft.value| {
      AxisWithin(s.draft.value, b);
      UpdatedWithin(s.draft.value, index, MovedPoint(s.draft.value, index, PointFromEvent(at, AxisEnd(s))), b);
    }
  }

  lemma UpdatedWithin(points: Points, index: nat, p: Point, b: Bounds)
    requires Within(points, b) && index < |points| && b.bottom <= p.value <= b.top
    requires b.low <= p.position <= b.high || p.position == points[index].position
    ensures Within(points[index := p], b)
  {
    assert points[index] in points;
    forall q | q in points[index := p]
      ensures q == p || q in points
    {
    }
  }

  lemma StepStaysWithin(s: Editor, e: Event, b: Bounds)
    requires DraftIsCurve(s) && DraftWithin(s, b) && HoldsUnit(b)
    ensures DraftWithin(Step(s, e), b)
  {
    if Enabled(s, e) {
      match e
      case DoubleClick(at) => AddingStaysWithin(s, at, b);
      case PointerDown(pointer, index, captured, at) =>
        MovingStaysWithin(s.(drag := Some(Drag(pointer, index))), pointer, index, at, b);
      case PointerMove(pointer, index, at) => MovingStaysWithin(s, pointer, index, at, b);
      case _ =>
    }
  }

  /** The selection, if there is one beside a draft, is a point of the draft. */
  ghost predicate SelectionInDraft(s: Editor) {
    s.selected.Some? && s.draft.Some? ==> s.selected.value < |s.draft.value|
  }

  /** A point of the computed curve is picked that the draft has no counterpart for. */
  ghost predicate Strays(s: Editor, e: Event) {
    && e.Click? && s.mode == Following && s.computed.Some? && e.index < |s.computed.value|
    && s.draft.Some? && e.index >= |s.draft.value|
  }

  ghost predicate Movable(s: Editor, index: nat) {
    s.mode == Editing && s.draft.Some? && index < |s.draft.value|
  }

  /** A point of the draft is picked, or the selection is given up. */
  ghost predicate Reselects(s: Editor, e: Event) {
    && Enabled(s, e)
    && match e
       case DoubleClick(at) => !AddRefused(s, at)
       case PointerDown(_, index, captured, _) => captured && Movable(s, index)
       case PointerMove(pointer, index, _) => s.drag == Some(Drag(pointer, index)) && Movable(s, index)
       case Click(index) => s.draft.Some? && index < |s.draft.value|
       case DeletePoint => true
       case _ => false
  }

  /** Without an editable draft, on a full curve, or at a taken position, nothing is added. */
  ghost predicate AddRefused(s: Editor, at: Client)
    requires OnScreen(at)
  {
    s.mode != Editing || s.draft == None || |s.draft.value| >= MAX_POINTS
    || exists q :: q in s.draft.value && q.position == PointFromEvent(at, AxisEnd(s)).position
  }

  lemma AddedSelects(s: Editor, at: Client)
    requires OnScreen(at) && DraftIsCurve(s)
    ensures AddRefused(s, at) ==> Added(s, at) == s
    ensures !AddRefused(s, at) ==> Added(s, at) != s && SelectionInDraft(Added(s, at))
  {
    if s.mode == Editing && s.draft.Some? {
      SortingInOnePoint(s.draft.value, PointFromEvent(at, AxisEnd(s)));
    }
  }

  /** One event leaves the selection outside the draft exactly when it picks such a point. */
  lemma StraysIff(s: Editor, e: Event)
    requires DraftIsCurve(s) && SelectionInDraft(s)
    ensures !SelectionInDraft(Step(s, e)) <==> Strays(s, e)
  {
    if Enabled(s, e) && e.DoubleClick? {
      AddedSelects(s, e.at);
    }
  }

  /** From outside it comes back exactly with the events that pick a point of the draft or give the selection up. */
  lemma ReselectsIff(s: Editor, e: Event)
    requires DraftIsCurve(s) && !SelectionInDraft(s)
    ensures SelectionInDraft(Step(s, e)) <==> Reselects(s, e)
  {
    if Enabled(s, e) && e.DoubleClick? {
      AddedSelects(s, e.at);
    }
  }

  /** Event `k` picked a point outside the draft, and none since has picked one inside or given it up. */
  ghost predicate StraySince(points: Points, own: bool, events: seq<Event>, k: nat) {
    && k < |events|
    && Strays(Run(points, own, events[..k]), events[k])
    && forall j :: k < j < |events| ==> !Reselects(Run(points, own, events[..j]), events[j])
  }

  lemma {:induction false} StraySinceExtends(points: Points, own: bool, events: seq<Event>, k: nat)
    requires events != []
    ensures var n := |events| - 1;
            StraySince(points, own, events, k) <==>
              (k == n && Strays(Run(points, own, events[..n]), events[n]))
              || (StraySince(points, own, events[..n], k) && !Reselects(Run(points, own, events[..n]), events[n]))
  {
    var n := |events| - 1;
    forall j | 0 <= j <= n
      ensures events[..n][..j] == events[..j]
    {
    }
    if StraySince(points, own, events[..n], k) && !Reselects(Run(points, own, events[..n]), events[n]) {
      assert events[..n][k] == events[k] && events[..n][..k] == events[..k];
      forall j | k < j < |events|
        ensures !Reselects(Run(points, own, events[..j]), events[j])
      {
        if j < n {
          assert events[..n][j] == events[j] && events[..n][..j] == events[..j];
        }
      }
    }
    if StraySince(points, own, events, k) && k < n {
      assert events[..n][k] == events[k] && events[..n][..k] == events[..k];
      forall j | k < j < n
        ensures !Reselects(Run(points, own, events[..n][..j]), events[..n][j])
      {
        assert events[..n][j] == events[j] && events[..n][..j] == events[..j];
      }
    }
  }

  // ---- Main results ----

  /** Any mix of edits keeps 1 to 4096 points at strictly increasing positions. */
  lemma {:induction false} DraftStaysACurve(points: Points, own: bool, events: seq<Event>)
    requires IsCurve(points)
    ensures DraftIsCurve(Run(points, own, events))
  {
    if events != [] {
      DraftStaysACurve(points, own, events[..|events| - 1]);
      StepKeepsCurve(Run(points, own, events[..|events| - 1]), events[|events| - 1]);
    }
  }

  /** Positions and values never leave the span of 0..1 and the opened curve. */
  lemma {:induction false} DraftStaysWithin(points: Points, own: bool, events: seq<Event>, b: Bounds)
    requires IsCurve(points) && Within(points, b) && HoldsUnit(b)
    ensures DraftWithin(Run(points, own, events), b)
  {
    if events != [] {
      var before := events[..|events| - 1];
      DraftStaysACurve(points, own, before);
      DraftStaysWithin(points, own, before, b);
      StepStaysWithin(Run(points, own, before), events[|events| - 1], b);
    }
  }

  ghost predicate DraftHasUnitValues(points: Points, own: bool, events: seq<Event>) {
    var s := Run(points, own, events);
    s.draft.Some? ==> UnitValues(s.draft.value)
  }

  /** Some box holds 0..1 by 0..1 and all of the positions, and its values end at 0 and 1. */
  lemma UnitBounds(points: Points) returns (b: Bounds)
    requires IsCurve(points) && UnitValues(points)
    ensures HoldsUnit(b) && Within(points, b) && b.bottom == 0.0 && b.top == 1.0
  {
    var first, last := points[0].position, points[|points| - 1].position;
    b := Bounds(if first < 0.0 then first else 0.0, MaxReal(1.0, last), 0.0, 1.0);
    forall p | p in points
      ensures b.low <= p.position <= b.high
    {
      var i :| 0 <= i < |points| && points[i] == p;
      assert i > 0 ==> points[0].position < points[i].position;
      assert i < |points| - 1 ==> points[i].position < points[|points| - 1].position;
    }
  }

  lemma {:induction false} DraftIsOwn(points: Points, own: bool, events: seq<Event>)
    ensures Run(points, own, events).draft.Some? <==> own
  {
    if events != [] {
      DraftIsOwn(points, own, events[..|events| - 1]);
    }
  }

  /** A draft's values are in 0..1 over all edits exactly when the opened curve's are, if it is edited at all. */
  lemma UnitValuesIff(points: Points, own: bool)
    requires IsCurve(points)
    ensures (forall events :: DraftHasUnitValues(points, own, events)) <==> (own ==> UnitValues(points))
  {
    if !own {
      forall events
        ensures DraftHasUnitValues(points, own, events)
      {
        DraftIsOwn(points, own, events);
      }
    } else if UnitValues(points) {
      var b := UnitBounds(points);
      forall events
        ensures DraftHasUnitValues(points, true, events)
      {
        DraftStaysWithin(points, true, events, b);
      }
    } else {
      assert Run(points, true, []).draft == Some(points);
      assert !DraftHasUnitValues(points, true, []);
    }
  }

  /**
   * Over every history the selection is a point of the draft exactly unless, while an envelope was
   * followed, a point of the computed curve was picked that lies past the draft's last one, and since
   * then no point of the draft was picked and the selection was not given up.
   */
  lemma {:induction false} SelectionIsAPoint(points: Points, own: bool, events: seq<Event>)
    requires IsCurve(points)
    ensures SelectionInDraft(Run(points, own, events)) <==> !exists k :: StraySince(points, own, events, k)
  {
    if events != [] {
      var n := |events| - 1;
      var s, e := Run(points, own, events[..n]), events[n];
      SelectionIsAPoint(points, own, events[..n]);
      DraftStaysACurve(points, own, events[..n]);
      if SelectionInDraft(s) {
        StraysIff(s, e);
      } else {
        ReselectsIff(s, e);
      }
      forall k: nat
        ensures StraySince(points, own, events, k) <==>
                  (k == n && Strays(s, e)) || (StraySince(points, own, events[..n], k) && !Reselects(s, e))
      {
        StraySinceExtends(points, own, events, k);
      }
      assert Strays(s, e) ==> StraySince(points, own, events, n);
    }
  }

  /** A run in which the selection ends outside the draft of an editable curve. */
  lemma {:induction false} SelectionMayStray(points: Points, longer: Points)
    requires IsCurve(points) && IsCurve(longer) && |longer| > |points|
    ensures var s := Run(points, true, [ModeChanged(Following), CurveComputed(longer), Click(|longer| - 1), ModeChanged(Editing)]);
            s.mode == Editing && s.draft == Some(points) && s.selected == Some(|longer| - 1)
  {
    var e1, e2, e3, e4 := ModeChanged(Following), CurveComputed(longer), Click(|longer| - 1), ModeChanged(Editing);
    assert [e1][..0] == [];
    assert Run(points, true, [e1]) == Editor(Some(points), None, None, None, Following);
    assert [e1, e2][..1] == [e1];
    assert Run(points, true, [e1, e2]) == Editor(Some(points), Some(longer), None, None, Following);
    assert [e1, e2, e3][..2] == [e1, e2];
    assert Run(points, true, [e1, e2, e3]) == Editor(Some(points), Some(longer), Some(|longer| - 1), None, Following);
    assert [e1, e2, e3, e4][..3] == [e1, e2, e3];
  }

  /** The delete button removes the selected point, or nothing exactly when the selection has strayed. */
  lemma DeleteRemovesIff(s: Editor)
    requires DeleteOffered(s)
    ensures var t, points, index := Step(s, DeletePoint), s.draft.value, s.selected.value;
            && t.draft.Some? && t.selected == None
            && (SelectionInDraft(s) ==> t.draft.value == points[..index] + points[index + 1..])
            && (t.draft.value == points <==> !SelectionInDraft(s))
  {
    var points, index := s.draft.value, s.selected.value;
    if index < |points| {
      assert |Without(points, index)| == |points| - 1;
    }
  }

  /**
   * The delete button never reads a missing draft exactly when the editor was opened on an input that
   * has its own curve: opened while following, a selected computed point and a cut link suffice.
   */
  lemma DeleteButtonSafeIff(points: Points, own: bool)
    requires IsCurve(points)
    ensures (forall events :: !DeleteButtonFailsAfter(points, own, events)) <==> own
  {
    if own {
      forall events
        ensures !DeleteButtonFailsAfter(points, own, events)
      {
        DraftIsOwn(points, true, events);
      }
    } else {
      CutLinkFails(points);
      assert DeleteButtonFailsAfter(points, false, [CurveComputed(points), Click(0), ModeChanged(Editing)]);
    }
  }

  lemma {:induction false} CutLinkFails(points: Points)
    requires IsCurve(points)
    ensures DeleteButtonFails(Run(points, false, [CurveComputed(points), Click(0), ModeChanged(Editing)]))
  {
    var e1, e2, e3 := CurveComputed(points), Click(0), ModeChanged(Editing);
    assert [e1][..0] == [];
    assert Run(points, false, [e1]) == Editor(None, Some(points), None, None, Following);
    assert [e1, e2][..1] == [e1];
    assert Run(points, false, [e1, e2]) == Editor(None, Some(points), Some(0), None, Following);
    assert [e1, e2, e3][..2] == [e1, e2];
  }

  /** A double click is refused exactly without an editable draft, on a full curve, or at a taken position. */
  lemma AddRefusedIff(s: Editor, at: Client)
    requires OnScreen(at) && DraftIsCurve(s)
    ensures Added(s, at) == s <==> AddRefused(s, at)
  {
    AddedSelects(s, at);
  }

  /** A point that was added is the selected one, and deleting it restores the curve. */
  lemma DeleteUndoesAdd(s: Editor, at: Client)
    requires OnScreen(at) && DraftIsCurve(s) && Added(s, at) != s
    ensures var t := Step(s, DoubleClick(at));
            && t.draft.Some? && t.selected.Some? && t.selected.value < |t.draft.value|
            && t.draft.value[t.selected.value] == PointFromEvent(at, AxisEnd(s))
            && Step(t, DeletePoint) == s.(selected := None)
  {
    var points, p := s.draft.value, PointFromEvent(at, AxisEnd(s));
    var k := PlaceOf(points, p.position);
    var next := SortedByPosition(points + [p]);
    SortingInOnePoint(points, p);
    SortedHolds(points, p);
    assert Added(s, at) == s.(draft := Some(next), selected := Some(k));
    DeleteRestores(s, next, points, k);
  }

  lemma DeleteRestores(s: Editor, next: Points, points: Points, k: nat)
    requires s.draft == Some(points) && s.mode == Editing && |next| > 1 && Without(next, k) == points
    ensures Step(s.(draft := Some(next), selected := Some(k)), DeletePoint) == s.(selected := None)
  {
  }

  /** A dragged point goes where the pointer is, exactly strictly between its neighbours; nothing else moves. */
  lemma DragFollowsPointerIff(s: Editor, pointer: int, index: nat, at: Client)
    requires OnScreen(at) && DraftIsCurve(s) && s.mode == Editing && s.draft.Some? && index < |s.draft.value|
    requires s.drag == Some(Drag(pointer, index))
    ensures var t, points, p := Step(s, PointerMove(pointer, index, at)), s.draft.value, PointFromEvent(at, AxisEnd(s));
            && t.draft.Some? && |t.draft.value| == |points| && t.draft.value[index].value == p.value
            && (forall i :: 0 <= i < |points| && i != index ==> t.draft.value[i] == points[i])
            && (t.draft.value[index] == p
                <==> forall i :: 0 <= i < |points| && i != index ==>
                       points[i].position != p.position && (points[i].position < p.position <==> i < index))
  {
    var points, p := s.draft.value, PointFromEvent(at, AxisEnd(s));
    forall i | 0 <= i < |points| && i != index
      ensures i < index ==> points[i].position <= points[index - 1].position
      ensures i > index ==> points[index + 1].position <= points[i].position
    {
    }
  }

  /** A press drags the point only if the pointer is captured; its release, and only its, ends the drag. */
  lemma DraggingBeginsAndEnds(s: Editor, pointer: int, other: int, index: nat, at: Client)
    requires OnScreen(at) && Displayed(s).Some? && index < |Displayed(s).value|
    ensures Step(s, PointerDown(pointer, index, false, at)) == if s.mode == Editing then s.(drag := None) else s
    ensures s.mode != Editing ==> Step(s, PointerDown(pointer, index, true, at)) == s
    ensures s.mode == Editing ==> Step(s, PointerDown(pointer, index, true, at)).drag == Some(Drag(pointer, index))
    ensures var released := Step(s, PointerReleased(other));
            && released == s.(drag := if s.drag.Some? && s.drag.value.pointer == other then None else s.drag)
            && (s.drag.None? || s.drag.value.pointer == other ==>
                  Step(released, PointerMove(pointer, index, at)) == released)
  {
  }

  /** A change of the target shows the draft again, or the envelope's curve once it has been computed. */
  lemma TargetDecidesWhatIsShown(s: Editor, mode: Mode, points: Points)
    ensures var t := Step(s, ModeChanged(mode));
            && t == s.(mode := mode, computed := None)
            && Displayed(t) == (if mode == Following then None else s.draft)
            && (mode == Following && IsCurve(points) ==>
                  Displayed(Step(t, CurveComputed(points))) == Some(points) && Step(t, CurveComputed(points)).draft == s.draft)
  {
  }

  /** Reading the pointer on a drawn point: negative positions are drawn at 0, values at the nearest in 0..1. */
  lemma DrawnPointReads(at: Client, p: Point, extent: real)
    requires OnScreen(at) && extent > 0.0 && IsAt(at, p, extent) && p.position <= extent
    ensures PointFromEvent(at, extent) == Point(MaxReal(0.0, p.position), Clamp(p.value))
  {
    ReadAlong(p.position / extent, p.value);
    InBounds(p.position, extent);
    PartReads(p.position, extent);
  }

  lemma PartReads(position: real, extent: real)
    requires extent > 0.0 && position <= extent
    ensures PositionAt(Clamp(position / extent), extent) == MaxReal(0.0, position)
  {
    InBounds(position, extent);
    MulDiv(position, extent);
    if position < 0.0 {
      assert position / extent < 0.0;
      assert 0.0 * extent == 0.0;
    }
  }

  /**
   * Pressing a point where it is drawn leaves the curve as it was exactly when its value is in 0..1 and
   * its position is not negative, or is held in place by a neighbour at or before 0.
   */
  lemma PressingAPointKeepsItIff(s: Editor, pointer: int, index: nat, at: Client)
    requires DraftIsCurve(s) && s.mode == Editing && s.draft.Some? && index < |s.draft.value|
    requires OnScreen(at) && IsAt(at, s.draft.value[index], AxisEnd(s))
    ensures var t, points, p := Step(s, PointerDown(pointer, index, true, at)), s.draft.value, s.draft.value[index];
            && t == s.(draft := t.draft, selected := Some(index), drag := Some(Drag(pointer, index)))
            && (t.draft == s.draft <==>
                  && 0.0 <= p.value <= 1.0
                  && (0.0 <= p.position || (index + 1 < |points| && points[index + 1].position <= 0.0)))
  {
    var points, p := s.draft.value, s.draft.value[index];
    assert p.position <= points[|points| - 1].position;
    DrawnPointReads(at, p, AxisEnd(s));
    var moved := MovedPoint(points, index, PointFromEvent(at, AxisEnd(s)));
    assert index > 0 ==> points[index - 1].position < p.position;
    assert index + 1 < |points| ==> p.position < points[index + 1].position;
    SameUpdateIff(points, index, moved);
  }

  lemma SameUpdateIff(points: Points, index: nat, p: Point)
    requires index < |points|
    ensures points[index := p] == points <==> p == points[index]
  {
    assert points[index := p][index] == p;
  }

  // ---- The component ----

  class CurvePanel {
    /** The signals `draft`, `computed`, `selected`, the drag, and the target's mode. */
    var state: Editor

    constructor (points: Points, own: bool)
      ensures state == Run(points, own, [])
      ensures state.draft.Some? <==> own
      ensures state.mode == Editing <==> own
      ensures SelectionInDraft(state) && (IsCurve(points) ==> DraftIsCurve(state))
    {
      var draft := if own then Some(points) else None;
      state := Editor(draft, None, None, None, if own then Editing else Following);
    }

    method AddPoint(at: Client)
      requires OnScreen(at)
      modifies this
      ensures state == Added(old(state), at)
    {
      if state.mode != Editing || state.draft == None || |state.draft.value| >= MAX_POINTS {
        return;
      }
      var added := PointFromEvent(at, AxisEnd(state));
      var next := SortedByPosition(state.draft.value + [added]);
      var index := 1;
      while index < |next|
        invariant 1 <= index
        invariant forall i :: 0 < i < index && i < |next| ==> next[i].position != next[i - 1].position
      {
        if next[index].position == next[index - 1].position {
          return;
        }
        index := index + 1;
      }
      SortedHolds(state.draft.value, added);
      state := state.(draft := Some(next), selected := Some(IndexOf(next, added)));
    }

    method MovePoint(pointer: int, index: nat, at: Client)
      requires OnScreen(at)
      modifies this
      ensures state == Moved(old(state), pointer, index, at)
    {
      if state.mode != Editing || state.drag != Some(Drag(pointer, index)) {
        return;
      }
      if state.draft == None || index >= |state.draft.value| {
        return;
      }
      var points := state.draft.value;
      var moved := PointFromEvent(at, AxisEnd(state));
      var position := moved.position;
      if index > 0 && moved.position <= points[index - 1].position {
        position := points[index].position;
      }
      if index + 1 < |points| && moved.position >= points[index + 1].position {
        position := points[index].position;
      }
      state := state.(draft := Some(points[index := Point(position, moved.value)]), selected := Some(index));
    }

    method StartDrag(pointer: int, index: nat, captured: bool, at: Client)
      requires OnScreen(at)
      modifies this
      ensures state == DragStarted(old(state), pointer, index, captured, at)
    {
      if state.mode != Editing {
        return;
      }
      state := state.(drag := Some(Drag(pointer, index)));
      if !captured {
        state := state.(drag := None);
        return;
      }
      MovePoint(pointer, index, at);
    }

    method FinishDrag(pointer: int)
      modifies this
      ensures state == Released(old(state), pointer)
    {
      if state.drag.Some? && state.drag.value.pointer == pointer {
        state := state.(drag := None);
      }
    }

    method DeleteSelected()
      requires DeleteOffered(state)
      modifies this
      ensures state == Deleted(old(state))
    {
      var points, index := state.draft.value, state.selected.value;
      var kept: Points := [];
      for candidate := 0 to |points|
        invariant kept == if index < candidate then points[..index] + points[index + 1..candidate] else points[..candidate]
      {
        if candidate != index {
          kept := kept + [points[candidate]];
        }
      }
      assert kept == Without(points, index);
      state := state.(draft := Some(kept), selected := None);
    }

    /** Every event is one step of the protocol and keeps the draft a curve. */
    method Handle(e: Event)
      requires DraftIsCurve(state) && Enabled(state, e)
      modifies this
      ensures state == Step(old(state), e) && DraftIsCurve(state)
    {
      StepKeepsCurve(state, e);
      match e
      case DoubleClick(at) => AddPoint(at);
      case PointerDown(pointer, index, captured, at) => StartDrag(pointer, index, captured, at);
      case PointerMove(pointer, index, at) => MovePoint(pointer, index, at);
      case PointerReleased(pointer) => FinishDrag(pointer);
      case Click(index) => state := state.(selected := Some(index));
      case DeletePoint => DeleteSelected();
      case ModeChanged(mode) => state := state.(mode := mode, computed := None);
      case CurveComputed(points) => state := state.(computed := Some(points));
    }
  }

  /** Sorting loses no point. */
  lemma {:induction false} SortedHolds(points: Points, p: Point)
    ensures p in SortedByPosition(points + [p])
  {
    assert (points + [p])[..|points|] == points;
    InsertedHolds(SortedByPosition(points), p);
  }

  lemma {:induction false} InsertedHolds(points: Points, p: Point)
    ensures p in Inserted(points, p)
  {
    if points != [] && points[|points| - 1].position > p.position {
      InsertedHolds(points[..|points| - 1], p);
    }
  }
}
