/**
 * Moving and resizing placements on the App view's grid with the pointer and with the keyboard
 * (`beginGridPointer`, `gridKeyDown`, `gridKeyUp`, packages/app/src/AppView.tsx). Both kinds of gesture
 * share one `gridGesture` signal and may interleave.
 *
 * Every gesture has a serial number here, which the program does not have: one is given when a pointer
 * goes down and when an arrow key does not continue the gesture before it.
 */
module AppViewGestures {
  import opened Prelude
  import opened AppLayoutGrid

  datatype Mode = Move | Right | Bottom | Corner

  datatype Target = Placement | Handle(mode: Mode)

  datatype Gesture =
    | PointerGesture(id: Id, start: Grid, pending: Grid, pointerId: int)
    | KeyboardGesture(id: Id, start: Grid, pending: Grid, target: Target)

  /** The pointer listeners on the window, while they are attached. */
  datatype Listening = Listening(id: Id, start: Grid, mode: Mode, pointerId: int)

  datatype Vars = Vars(gesture: Option<Gesture>, pointer: Option<Listening>)

  datatype Arrow = ArrowLeft | ArrowRight | ArrowUp | ArrowDown

  /** A `setGrid` command sent to the document, and the gesture it came from. */
  datatype Dispatch = Dispatch(serial: nat, id: Id, start: Grid, grid: Grid)

  /** Serial numbers of the current gesture and of the listeners, and what came of the others. */
  datatype Log = Log(next: nat, gesture: nat, pointer: nat, sent: seq<Dispatch>, cancelled: set<nat>)

  datatype State = State(vars: Vars, log: Log)

  datatype Event =
    | PointerDown(id: Id, cell: Grid, mode: Mode, pointerId: int)
    | PointerMove(pointerId: int, columns: int, rows: int)
    | PointerUp(pointerId: int)
    | PointerCancel(pointerId: int)
    | EscapeDown(focus: Option<(Id, Target)>)
    | ArrowDownOn(id: Id, cell: Grid, target: Target, arrow: Arrow, shift: bool)
    | ArrowReleasedOn(id: Id, target: Target)
    | ScopeChanged

  // ---- Where a gesture would put the placement ----

  function Clamped(low: int, high: int, value: int): int {
    Max(low, Min(high, value))
  }

  /** The pointer always counts from the cell where the gesture started. */
  function PointerPending(start: Grid, mode: Mode, columns: int, rows: int): Grid {
    if mode == Move then
      start.(x := Clamped(0, COLUMNS - start.w, start.x + columns), y := Max(0, start.y + rows))
    else
      start.(w := if mode == Right || mode == Corner then Clamped(1, COLUMNS - start.x, start.w + columns) else start.w,
             h := if mode == Bottom || mode == Corner then Max(1, start.h + rows) else start.h)
  }

  function Horizontal(arrow: Arrow): int {
    if arrow == ArrowLeft then -1 else if arrow == ArrowRight then 1 else 0
  }

  function Vertical(arrow: Arrow): int {
    if arrow == ArrowUp then -1 else if arrow == ArrowDown then 1 else 0
  }

  predicate Resizing(target: Target, shift: bool) {
    target == Handle(Right) || target == Handle(Bottom) || target == Handle(Corner) || (target == Placement && shift)
  }

  /** The keyboard counts on from the pending cell. */
  function KeyboardPending(current: Grid, target: Target, arrow: Arrow, shift: bool): Grid {
    if Resizing(target, shift) then
      current.(w := if target == Handle(Bottom) then current.w
                    else Clamped(1, COLUMNS - current.x, current.w + Horizontal(arrow)),
               h := if target == Handle(Right) then current.h else Max(1, current.h + Vertical(arrow)))
    else
      current.(x := Clamped(0, COLUMNS - current.w, current.x + Horizontal(arrow)),
               y := Max(0, current.y + Vertical(arrow)))
  }

  /** The side handles take only the arrows along their axis. */
  predicate Accepts(target: Target, arrow: Arrow) {
    !(target == Handle(Right) && Horizontal(arrow) == 0) && !(target == Handle(Bottom) && Vertical(arrow) == 0)
  }

  predicate Continues(gesture: Option<Gesture>, id: Id, target: Target) {
    gesture.Some? && gesture.value.KeyboardGesture? && gesture.value.id == id && gesture.value.target == target
  }

  // ---- The component's handlers, on values ----

  /** A gesture ends: a changed cell is sent. */
  function Committed(log: Log, serial: nat, gesture: Gesture): Log {
    if gesture.start == gesture.pending then log
    else log.(sent := log.sent + [Dispatch(serial, gesture.id, gesture.start, gesture.pending)])
  }

  /** Gestures given up by cancelling: the one on show, and the pointer's if it is listened to. */
  function GivenUp(s: State): set<nat> {
    (if s.vars.gesture.Some? then {s.log.gesture} else {}) + (if s.vars.pointer.Some? then {s.log.pointer} else {})
  }

  function AllDropped(s: State): State {
    State(Vars(None, None), s.log.(cancelled := s.log.cancelled + GivenUp(s)))
  }

  function Pressed(s: State, id: Id, cell: Grid, mode: Mode, pointerId: int): State {
    State(Vars(Some(PointerGesture(id, cell, cell, pointerId)), Some(Listening(id, cell, mode, pointerId))),
          s.log.(next := s.log.next + 1, gesture := s.log.next, pointer := s.log.next))
  }

  function Dragged(s: State, pointerId: int, columns: int, rows: int): State {
    if s.vars.pointer.None? || s.vars.pointer.value.pointerId != pointerId then s else
    var l := s.vars.pointer.value;
    State(s.vars.(gesture := Some(PointerGesture(l.id, l.start, PointerPending(l.start, l.mode, columns, rows), pointerId))),
          s.log.(gesture := s.log.pointer))
  }

  function Finished(s: State, pointerId: int): State {
    if s.vars.pointer.None? || s.vars.pointer.value.pointerId != pointerId then s else
    State(Vars(None, None),
          if s.vars.gesture.Some? && s.vars.gesture.value.PointerGesture? && s.vars.gesture.value.pointerId == pointerId
          then Committed(s.log, s.log.gesture, s.vars.gesture.value) else s.log)
  }

  function Cancelled(s: State, pointerId: int): State {
    if s.vars.pointer.None? || s.vars.pointer.value.pointerId != pointerId then s else AllDropped(s)
  }

  /** Escape reaches the focused placement first, then the pointer's listener on the window. */
  function Escaped(s: State, focus: Option<(Id, Target)>): State {
    var t := if focus.Some? && Continues(s.vars.gesture, focus.value.0, focus.value.1)
             then State(s.vars.(gesture := None), s.log.(cancelled := s.log.cancelled + {s.log.gesture}))
             else s;
    if t.vars.pointer.Some? then AllDropped(t) else t
  }

  function Nudged(s: State, id: Id, cell: Grid, target: Target, arrow: Arrow, shift: bool): State {
    if !Accepts(target, arrow) then s else
    var continuing := Continues(s.vars.gesture, id, target);
    var start := if continuing then s.vars.gesture.value.start else cell;
    var current := if continuing then s.vars.gesture.value.pending else cell;
    State(s.vars.(gesture := Some(KeyboardGesture(id, start, KeyboardPending(current, target, arrow, shift), target))),
          if continuing then s.log else s.log.(next := s.log.next + 1, gesture := s.log.next))
  }

  function Let(s: State, id: Id, target: Target): State {
    if !Continues(s.vars.gesture, id, target) then s else
    State(s.vars.(gesture := None), Committed(s.log, s.log.gesture, s.vars.gesture.value))
  }

  // ---- One atomic step ----

  /** Gestures start on placements that have a cell. */
  predicate Enabled(e: Event) {
    match e
    case PointerDown(_, cell, _, _) => IsCell(cell)
    case ArrowDownOn(_, cell, _, _, _) => IsCell(cell)
    case _ => true
  }

  function Step(s: State, e: Event): State {
    if !Enabled(e) then s else
    match e
    case PointerDown(id, cell, mode, pointerId) => Pressed(s, id, cell, mode, pointerId)
    case PointerMove(pointerId, columns, rows) => Dragged(s, pointerId, columns, rows)
    case PointerUp(pointerId) => Finished(s, pointerId)
    case PointerCancel(pointerId) => Cancelled(s, pointerId)
    case EscapeDown(focus) => Escaped(s, focus)
    case ArrowDownOn(id, cell, target, arrow, shift) => Nudged(s, id, cell, target, arrow, shift)
    case ArrowReleasedOn(id, target) => Let(s, id, target)
    case ScopeChanged => AllDropped(s)
  }

  function Run(events: seq<Event>): State {
    if events == [] then State(Vars(None, None), Log(0, 0, 0, [], {}))
    else Step(Run(events[..|events| - 1]), events[|events| - 1])
  }

  // ---- What is true of every reachable state ----

  /** Held cells are cells, and a pointer gesture on show is the one being listened to. */
  ghost predicate CellInv(v: Vars) {
    && (v.gesture.Some? ==> IsCell(v.gesture.value.start) && IsCell(v.gesture.value.pending))
    && (v.pointer.Some? ==> IsCell(v.pointer.value.start))
    && (v.gesture.Some? && v.gesture.value.PointerGesture? ==>
          && v.pointer.Some? && v.pointer.value.pointerId == v.gesture.value.pointerId
          && v.pointer.value.id == v.gesture.value.id && v.pointer.value.start == v.gesture.value.start)
  }

  ghost predicate Sent(log: Log, serial: nat) {
    exists d :: d in log.sent && d.serial == serial
  }

  /** A gesture that can still be sent has neither been sent nor given up. */
  ghost predicate Open(log: Log, serial: nat) {
    serial < log.next && !Sent(log, serial) && serial !in log.cancelled
  }

  ghost predicate SerialInv(s: State) {
    && (s.vars.gesture.Some? ==> Open(s.log, s.log.gesture))
    && (s.vars.pointer.Some? ==> Open(s.log, s.log.pointer))
    && (s.vars.gesture.Some? && s.vars.pointer.Some? ==>
          (s.vars.gesture.value.PointerGesture? <==> s.log.gesture == s.log.pointer))
  }

  ghost predicate LogInv(log: Log) {
    && (forall i, j :: 0 <= i < j < |log.sent| ==> log.sent[i].serial != log.sent[j].serial)
    && (forall d :: d in log.sent ==> d.serial < log.next && d.serial !in log.cancelled)
    && (forall n :: n in log.cancelled ==> n < log.next)
    && (forall d :: d in log.sent ==> IsCell(d.start) && IsCell(d.grid) && d.grid != d.start)
  }

  ghost predicate Inv(s: State) {
    CellInv(s.vars) && SerialInv(s) && LogInv(s.log)
  }

  lemma PointerPendingIsCell(start: Grid, mode: Mode, columns: int, rows: int)
    requires IsCell(start)
    ensures IsCell(PointerPending(start, mode, columns, rows))
  {
  }

  lemma KeyboardPendingIsCell(current: Grid, target: Target, arrow: Arrow, shift: bool)
    requires IsCell(current)
    ensures IsCell(KeyboardPending(current, target, arrow, shift))
  {
  }

  lemma CommitKeepsLog(log: Log, serial: nat, gesture: Gesture)
    requires LogInv(log) && Open(log, serial) && IsCell(gesture.start) && IsCell(gesture.pending)
    ensures LogInv(Committed(log, serial, gesture))
    ensures forall n :: n != serial && Open(log, n) ==> Open(Committed(log, serial, gesture), n)
  {
  }

  lemma PressKeepsInv(s: State, id: Id, cell: Grid, mode: Mode, pointerId: int)
    requires Inv(s) && IsCell(cell)
    ensures Inv(Pressed(s, id, cell, mode, pointerId))
  {
    assert !Sent(s.log, s.log.next);
  }

  lemma DragKeepsInv(s: State, pointerId: int, columns: int, rows: int)
    requires Inv(s)
    ensures Inv(Dragged(s, pointerId, columns, rows))
  {
    if s.vars.pointer.Some? {
      PointerPendingIsCell(s.vars.pointer.value.start, s.vars.pointer.value.mode, columns, rows);
    }
  }

  lemma FinishKeepsInv(s: State, pointerId: int)
    requires Inv(s)
    ensures Inv(Finished(s, pointerId))
  {
    if s.vars.gesture.Some? && s.vars.gesture.value.PointerGesture? {
      CommitKeepsLog(s.log, s.log.gesture, s.vars.gesture.value);
    }
  }

  lemma DropKeepsInv(s: State)
    requires Inv(s)
    ensures Inv(AllDropped(s))
  {
    forall d | d in s.log.sent
      ensures d.serial !in GivenUp(s)
    {
      assert Sent(s.log, d.serial);
    }
  }

  lemma EscapeKeepsInv(s: State, focus: Option<(Id, Target)>)
    requires Inv(s)
    ensures Inv(Escaped(s, focus))
  {
    var t := State(s.vars.(gesture := None), s.log.(cancelled := s.log.cancelled + {s.log.gesture}));
    if focus.Some? && Continues(s.vars.gesture, focus.value.0, focus.value.1) {
      forall d | d in s.log.sent
        ensures d.serial != s.log.gesture
      {
        assert Sent(s.log, d.serial);
      }
      assert Inv(t);
      DropKeepsInv(t);
    } else {
      DropKeepsInv(s);
    }
  }

  lemma NudgeKeepsInv(s: State, id: Id, cell: Grid, target: Target, arrow: Arrow, shift: bool)
    requires Inv(s) && IsCell(cell)
    ensures Inv(Nudged(s, id, cell, target, arrow, shift))
  {
    var continuing := Continues(s.vars.gesture, id, target);
    KeyboardPendingIsCell(if continuing then s.vars.gesture.value.pending else cell, target, arrow, shift);
    assert !Sent(s.log, s.log.next);
  }

  lemma LetKeepsInv(s: State, id: Id, target: Target)
    requires Inv(s)
    ensures Inv(Let(s, id, target))
  {
    if Continues(s.vars.gesture, id, target) {
      CommitKeepsLog(s.log, s.log.gesture, s.vars.gesture.value);
    }
  }

  lemma StepKeepsInv(s: State, e: Event)
    requires Inv(s)
    ensures Inv(Step(s, e))
  {
    if Enabled(e) {
      match e
      case PointerDown(id, cell, mode, pointerId) => PressKeepsInv(s, id, cell, mode, pointerId);
      case PointerMove(pointerId, columns, rows) => DragKeepsInv(s, pointerId, columns, rows);
      case PointerUp(pointerId) => FinishKeepsInv(s, pointerId);
      case PointerCancel(pointerId) => DropKeepsInv(s);
      case EscapeDown(focus) => EscapeKeepsInv(s, focus);
      case ArrowDownOn(id, cell, target, arrow, shift) => NudgeKeepsInv(s, id, cell, target, arrow, shift);
      case ArrowReleasedOn(id, target) => LetKeepsInv(s, id, target);
      case ScopeChanged => DropKeepsInv(s);
    }
  }

  // ---- Main results ----

  lemma {:induction false} RunKeepsInv(events: seq<Event>)
    ensures Inv(Run(events))
  {
    if events != [] {
      RunKeepsInv(events[..|events| - 1]);
      StepKeepsInv(Run(events[..|events| - 1]), events[|events| - 1]);
    }
  }

  /** Whatever is pressed, dragged and released, the pending rectangle stays on the twelve columns. */
  lemma {:induction false} PendingIsACell(events: seq<Event>)
    ensures Run(events).vars.gesture.Some? ==> IsCell(Run(events).vars.gesture.value.pending)
  {
    RunKeepsInv(events);
  }

  /** A gesture sends at most one command, a given-up one sends none, and what is sent is a changed cell. */
  lemma {:induction false} OneCommandPerGesture(events: seq<Event>)
    ensures var log := Run(events).log;
            && (forall i, j :: 0 <= i < j < |log.sent| ==> log.sent[i].serial != log.sent[j].serial)
            && (forall d :: d in log.sent ==> d.serial !in log.cancelled)
            && (forall d :: d in log.sent ==> IsCell(d.grid) && d.grid != d.start)
  {
    RunKeepsInv(events);
  }

  lemma CancelledGrows(s: State, e: Event)
    ensures s.log.cancelled <= Step(s, e).log.cancelled
  {
  }

  lemma {:induction false} CancelledStays(events: seq<Event>, more: seq<Event>)
    ensures Run(events).log.cancelled <= Run(events + more).log.cancelled
  {
    if more == [] {
      assert events + more == events;
    } else {
      var init, last := more[..|more| - 1], more[|more| - 1];
      CancelledStays(events, init);
      assert (events + more)[..|events + more| - 1] == events + init;
      CancelledGrows(Run(events + init), last);
    }
  }

  /** An Escape that is heard ends every gesture there is: none of them is ever sent, whatever follows. */
  lemma {:induction false} EscapeIsFinal(events: seq<Event>, focus: Option<(Id, Target)>, more: seq<Event>)
    requires var v := Run(events).vars;
             v.pointer.Some? || (focus.Some? && Continues(v.gesture, focus.value.0, focus.value.1))
    ensures var s := Run(events);
            forall d :: d in Run(events + [EscapeDown(focus)] + more).log.sent ==>
              && (s.vars.gesture.Some? ==> d.serial != s.log.gesture)
              && (s.vars.pointer.Some? ==> d.serial != s.log.pointer)
    ensures Run(events + [EscapeDown(focus)]).vars == Vars(None, None)
  {
    var heard := events + [EscapeDown(focus)];
    assert heard[..|heard| - 1] == events;
    assert GivenUp(Run(events)) <= Run(heard).log.cancelled;
    CancelledStays(heard, more);
    RunKeepsInv(heard + more);
  }

  /** The same for a cancelled pointer, and for leaving the tab, the arranging mode or the breakpoint. */
  lemma {:induction false} CancellingIsFinal(events: seq<Event>, e: Event, more: seq<Event>)
    requires e == ScopeChanged
             || (e.PointerCancel? && Run(events).vars.pointer.Some? && Run(events).vars.pointer.value.pointerId == e.pointerId)
    ensures var s := Run(events);
            forall d :: d in Run(events + [e] + more).log.sent ==>
              && (s.vars.gesture.Some? ==> d.serial != s.log.gesture)
              && (s.vars.pointer.Some? ==> d.serial != s.log.pointer)
    ensures Run(events + [e]).vars == Vars(None, None)
  {
    var heard := events + [e];
    assert heard[..|heard| - 1] == events;
    assert GivenUp(Run(events)) <= Run(heard).log.cancelled;
    CancelledStays(heard, more);
    RunKeepsInv(heard + more);
  }

  /** What a gesture of this mode may make of a cell. */
  ghost predicate Reachable(start: Grid, mode: Mode, g: Grid) {
    && IsCell(g)
    && (if mode == Move then g.w == start.w && g.h == start.h else g.x == start.x && g.y == start.y)
    && (mode == Right ==> g.h == start.h)
    && (mode == Bottom ==> g.w == start.w)
  }

  /** What the drag asks for, whether or not it fits. */
  ghost function Asked(start: Grid, mode: Mode, columns: int, rows: int): Grid {
    if mode == Move then start.(x := start.x + columns, y := start.y + rows) else
    start.(w := if mode == Bottom then start.w else start.w + columns, h := if mode == Right then start.h else start.h + rows)
  }

  ghost function Distance(a: int, b: int): int {
    if a < b then b - a else a - b
  }

  ghost function Far(a: Grid, b: Grid): int {
    Distance(a.x, b.x) + Distance(a.y, b.y) + Distance(a.w, b.w) + Distance(a.h, b.h)
  }

  /** The pending rectangle is the reachable cell nearest to what the drag asks for. */
  lemma PendingIsNearest(start: Grid, mode: Mode, columns: int, rows: int)
    requires IsCell(start)
    ensures var asked, pending := Asked(start, mode, columns, rows), PointerPending(start, mode, columns, rows);
            && Reachable(start, mode, pending)
            && (forall g :: Reachable(start, mode, g) ==>
                  && Far(pending, asked) <= Far(g, asked)
                  && (Far(g, asked) == Far(pending, asked) ==> g == pending))
  {
  }

  /** The pointer's mode that a key on a target stands for. */
  ghost function ModeOf(target: Target, shift: bool): Mode {
    if target.Handle? then target.mode else if shift then Corner else Move
  }

  /** A side handle is for the arrows along its axis only. */
  predicate Along(target: Target, arrow: Arrow) {
    && (target == Handle(Right) ==> arrow == ArrowLeft || arrow == ArrowRight)
    && (target == Handle(Bottom) ==> arrow == ArrowUp || arrow == ArrowDown)
  }

  /** One arrow key does what the pointer does over one column or row. */
  lemma ArrowIsOneStepOfThePointer(cell: Grid, target: Target, arrow: Arrow, shift: bool)
    requires IsCell(cell) && Along(target, arrow)
    ensures KeyboardPending(cell, target, arrow, shift)
            == PointerPending(cell, ModeOf(target, shift), Horizontal(arrow), Vertical(arrow))
  {
  }

  /** Only where the pointer is now counts, not the way it took. */
  lemma PointerMovesDoNotAddUp(s: State, pointerId: int, c1: int, r1: int, c2: int, r2: int)
    ensures Step(Step(s, PointerMove(pointerId, c1, r1)), PointerMove(pointerId, c2, r2))
            == Step(s, PointerMove(pointerId, c2, r2))
  {
  }

  /** A drag shows, and on release sends, the cell under the pointer, if that is another cell. */
  lemma DragSendsTheCell(s: State, id: Id, cell: Grid, mode: Mode, pointerId: int, columns: int, rows: int)
    requires IsCell(cell)
    ensures var pressed := Step(s, PointerDown(id, cell, mode, pointerId));
            var dragged := Step(pressed, PointerMove(pointerId, columns, rows));
            var t, g := Step(dragged, PointerUp(pointerId)), PointerPending(cell, mode, columns, rows);
            && pressed.vars.gesture == Some(PointerGesture(id, cell, cell, pointerId)) && pressed.log.sent == s.log.sent
            && dragged.vars.gesture == Some(PointerGesture(id, cell, g, pointerId)) && dragged.log.sent == s.log.sent
            && t.vars == Vars(None, None)
            && t.log.sent == if g == cell then s.log.sent else s.log.sent + [Dispatch(s.log.next, id, cell, g)]
  {
  }

  /** What is released is what is on show: its changed cell is sent, and no gesture is left. */
  lemma ReleasingSendsWhatIsShown(s: State, e: Event)
    requires s.vars.gesture.Some?
    requires match e
             case PointerUp(pointerId) =>
               && s.vars.gesture.value.PointerGesture? && s.vars.gesture.value.pointerId == pointerId
               && s.vars.pointer.Some? && s.vars.pointer.value.pointerId == pointerId
             case ArrowReleasedOn(id, target) =>
               s.vars.gesture.value.KeyboardGesture? && s.vars.gesture.value.id == id && s.vars.gesture.value.target == target
             case _ => false
    ensures var t, g := Step(s, e), s.vars.gesture.value;
            && t.vars.gesture == None && (e.PointerUp? ==> t.vars.pointer == None)
            && t.log.sent == if g.pending == g.start then s.log.sent
                             else s.log.sent + [Dispatch(s.log.gesture, g.id, g.start, g.pending)]
  {
  }

  /** Other pointers and keys released elsewhere change nothing, nor does an Escape that nothing hears. */
  lemma OthersAreIgnored(s: State, e: Event)
    requires match e
             case PointerMove(pointerId, _, _) => s.vars.pointer.None? || s.vars.pointer.value.pointerId != pointerId
             case PointerUp(pointerId) => s.vars.pointer.None? || s.vars.pointer.value.pointerId != pointerId
             case PointerCancel(pointerId) => s.vars.pointer.None? || s.vars.pointer.value.pointerId != pointerId
             case ArrowReleasedOn(id, target) =>
               s.vars.gesture.None? || !s.vars.gesture.value.KeyboardGesture?
               || s.vars.gesture.value.id != id || s.vars.gesture.value.target != target
             case EscapeDown(focus) =>
               s.vars.pointer.None? && (focus.None? || !Continues(s.vars.gesture, focus.value.0, focus.value.1))
             case ArrowDownOn(_, _, target, arrow, _) => !Along(target, arrow)
             case _ => false
    ensures Step(s, e) == s
  {
  }

  /** An arrow on a placement moves it by one cell where there is room, with Shift it sizes it. */
  lemma ArrowsMoveByOne(cell: Grid, arrow: Arrow)
    requires IsCell(cell)
    ensures KeyboardPending(cell, Placement, arrow, false)
            == match arrow
               case ArrowLeft => if cell.x > 0 then cell.(x := cell.x - 1) else cell
               case ArrowRight => if cell.x + cell.w < COLUMNS then cell.(x := cell.x + 1) else cell
               case ArrowUp => if cell.y > 0 then cell.(y := cell.y - 1) else cell
               case ArrowDown => cell.(y := cell.y + 1)
    ensures KeyboardPending(cell, Placement, arrow, true)
            == match arrow
               case ArrowLeft => if cell.w > 1 then cell.(w := cell.w - 1) else cell
               case ArrowRight => if cell.x + cell.w < COLUMNS then cell.(w := cell.w + 1) else cell
               case ArrowUp => if cell.h > 1 then cell.(h := cell.h - 1) else cell
               case ArrowDown => cell.(h := cell.h + 1)
  {
  }

  /** The first arrow on a target starts from its cell, and further ones count on; nothing is sent before release. */
  lemma ArrowsCountOn(s: State, id: Id, cell: Grid, target: Target, arrow: Arrow, shift: bool)
    requires IsCell(cell) && Along(target, arrow)
    ensures var t := Step(s, ArrowDownOn(id, cell, target, arrow, shift));
            var g := s.vars.gesture;
            var same := g.Some? && g.value.KeyboardGesture? && g.value.id == id && g.value.target == target;
            && t.log.sent == s.log.sent && t.vars.pointer == s.vars.pointer
            && t.vars.gesture == Some(KeyboardGesture(id, if same then g.value.start else cell,
                                        KeyboardPending(if same then g.value.pending else cell, target, arrow, shift), target))
            && t.log.gesture == (if same then s.log.gesture else s.log.next)
  {
  }

  /** A drag that comes back to where it began sends nothing. */
  lemma DragBackSendsNothing(s: State, pointerId: int)
    requires Inv(s)
    ensures Step(Step(s, PointerMove(pointerId, 0, 0)), PointerUp(pointerId)).log.sent == s.log.sent
  {
    if s.vars.pointer.Some? {
      assert PointerPending(s.vars.pointer.value.start, s.vars.pointer.value.mode, 0, 0) == s.vars.pointer.value.start;
    }
  }

  /** Right then left on a placement sends nothing exactly when the step right had room, or neither had. */
  lemma RightThenLeftSendsNothingIff(s: State, id: Id, cell: Grid)
    requires IsCell(cell) && !Continues(s.vars.gesture, id, Placement)
    ensures var right := Step(s, ArrowDownOn(id, cell, Placement, ArrowRight, false));
            var left := Step(right, ArrowDownOn(id, cell, Placement, ArrowLeft, false));
            Step(left, ArrowReleasedOn(id, Placement)).log.sent == s.log.sent
            <==> cell.x + cell.w < COLUMNS || cell.x == 0
  {
    var right := Step(s, ArrowDownOn(id, cell, Placement, ArrowRight, false));
    var left := Step(right, ArrowDownOn(id, cell, Placement, ArrowLeft, false));
    assert right.vars.gesture.value.pending == cell.(x := if cell.x + cell.w < COLUMNS then cell.x + 1 else cell.x);
    assert left.vars.gesture.value.start == cell;
    assert left.vars.gesture.value.pending
           == cell.(x := if cell.x + cell.w < COLUMNS || cell.x == 0 then cell.x else cell.x - 1);
    assert left.log.sent == s.log.sent;
  }

  // ---- The component ----

  class GridGestures {
    /** The `gridGesture` signal, and the pointer listeners that `disposeGridPointer` would remove. */
    var vars: Vars
    ghost var log: Log

    ghost function View(): State
      reads this
    {
      State(vars, log)
    }

    constructor ()
      ensures View() == Run([])
    {
      vars := Vars(None, None);
      log := Log(0, 0, 0, [], {});
    }

    method CommitGridGesture(gesture: Gesture, ghost serial: nat) returns (sent: Option<(Id, Grid)>)
      modifies this`log
      ensures log == Committed(old(log), serial, gesture)
      ensures sent == if gesture.start == gesture.pending then None else Some((gesture.id, gesture.pending))
    {
      sent := None;
      if gesture.start != gesture.pending {
        sent := Some((gesture.id, gesture.pending));
        log := log.(sent := log.sent + [Dispatch(serial, gesture.id, gesture.start, gesture.pending)]);
      }
    }

    method BeginGridPointer(id: Id, cell: Grid, mode: Mode, pointerId: int)
      modifies this
      ensures View() == Pressed(old(View()), id, cell, mode, pointerId)
    {
      vars := vars.(pointer := None);
      vars := vars.(gesture := Some(PointerGesture(id, cell, cell, pointerId)));
      vars := vars.(pointer := Some(Listening(id, cell, mode, pointerId)));
      log := log.(next := log.next + 1, gesture := log.next, pointer := log.next);
    }

    method MovePointer(pointerId: int, columns: int, rows: int)
      modifies this
      ensures View() == Dragged(old(View()), pointerId, columns, rows)
    {
      if vars.pointer.None? || vars.pointer.value.pointerId != pointerId {
        return;
      }
      var l := vars.pointer.value;
      var pending := l.start;
      if l.mode == Move {
        pending := pending.(x := Max(0, Min(COLUMNS - l.start.w, l.start.x + columns)), y := Max(0, l.start.y + rows));
      } else {
        if l.mode == Right || l.mode == Corner {
          pending := pending.(w := Max(1, Min(COLUMNS - l.start.x, l.start.w + columns)));
        }
        if l.mode == Bottom || l.mode == Corner {
          pending := pending.(h := Max(1, l.start.h + rows));
        }
      }
      vars := vars.(gesture := Some(PointerGesture(l.id, l.start, pending, pointerId)));
      log := log.(gesture := log.pointer);
    }

    method FinishPointer(pointerId: int)
      modifies this
      ensures View() == Finished(old(View()), pointerId)
    {
      if vars.pointer.None? || vars.pointer.value.pointerId != pointerId {
        return;
      }
      var completed := vars.gesture;
      vars := Vars(None, None);
      if completed.Some? && completed.value.PointerGesture? && completed.value.pointerId == pointerId {
        var _ := CommitGridGesture(completed.value, log.gesture);
      }
    }

    method CancelPointer(pointerId: int)
      modifies this
      ensures View() == Cancelled(old(View()), pointerId)
    {
      if vars.pointer.None? || vars.pointer.value.pointerId != pointerId {
        return;
      }
      log := log.(cancelled := log.cancelled + GivenUp(View()));
      vars := Vars(None, None);
    }

    method Escape(focus: Option<(Id, Target)>)
      modifies this
      ensures View() == Escaped(old(View()), focus)
    {
      if focus.Some? && Continues(vars.gesture, focus.value.0, focus.value.1) {
        log := log.(cancelled := log.cancelled + {log.gesture});
        vars := vars.(gesture := None);
      }
      if vars.pointer.Some? {
        log := log.(cancelled := log.cancelled + GivenUp(View()));
        vars := Vars(None, None);
      }
    }

    method GridKeyDown(id: Id, cell: Grid, target: Target, arrow: Arrow, shift: bool)
      modifies this
      ensures View() == Nudged(old(View()), id, cell, target, arrow, shift)
    {
      if !Accepts(target, arrow) {
        return;
      }
      var start, current := cell, cell;
      if Continues(vars.gesture, id, target) {
        start, current := vars.gesture.value.start, vars.gesture.value.pending;
      } else {
        log := log.(next := log.next + 1, gesture := log.next);
      }
      var pending := KeyboardPending(current, target, arrow, shift);
      vars := vars.(gesture := Some(KeyboardGesture(id, start, pending, target)));
    }

    method GridKeyUp(id: Id, target: Target)
      modifies this
      ensures View() == Let(old(View()), id, target)
    {
      if !Continues(vars.gesture, id, target) {
        return;
      }
      var completed := vars.gesture.value;
      vars := vars.(gesture := None);
      var _ := CommitGridGesture(completed, log.gesture);
    }

    /** The active tab, arranging, or the breakpoint changed. */
    method ResetInteraction()
      modifies this
      ensures View() == AllDropped(old(View()))
    {
      log := log.(cancelled := log.cancelled + GivenUp(View()));
      vars := Vars(None, None);
    }

    /** Every event is one step of the protocol and keeps what is true of every reachable state. */
    method Handle(e: Event)
      requires Inv(View()) && Enabled(e)
      modifies this
      ensures View() == Step(old(View()), e) && Inv(View())
    {
      StepKeepsInv(View(), e);
      match e
      case PointerDown(id, cell, mode, pointerId) => BeginGridPointer(id, cell, mode, pointerId);
      case PointerMove(pointerId, columns, rows) => MovePointer(pointerId, columns, rows);
      case PointerUp(pointerId) => FinishPointer(pointerId);
      case PointerCancel(pointerId) => CancelPointer(pointerId);
      case EscapeDown(focus) => Escape(focus);
      case ArrowDownOn(id, cell, target, arrow, shift) => GridKeyDown(id, cell, target, arrow, shift);
      case ArrowReleasedOn(id, target) => GridKeyUp(id, target);
      case ScopeChanged => ResetInteraction();
    }
  }
}
