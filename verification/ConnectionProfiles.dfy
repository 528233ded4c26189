/**
 * Saved connections and their access tokens (packages/app/src/ConnectionProfiles.tsx,
 * packages/app/src/connection-profiles.ts), as any number of windows run them.
 *
 * Each window runs one mutation at a time. A mutation waits for the cross-window lock, does
 * its synchronous part, and may then await one call to the desktop bridge. A call takes
 * effect at some moment between being sent and being answered, if at all; a failing answer
 * says nothing about whether it did. Changing the stored list means reading it and writing it
 * back, and other windows may come in between. `Config` says which protections are in force.
 */
module ConnectionProfiles {
  import opened Prelude

  datatype Config = Config(
    locking: bool,      // mutation bodies run under the shared Web Lock
    refusing: bool,     // the bridge refuses to store a token for a retired profile id
    closing: bool,      // a window may be closed in the middle of a mutation
    atomic: bool,       // no other window touches the stored list while one reads it and writes it back
    lossyReads: bool)   // reading the stored profile list may fail and yield the empty list

  datatype Request = SetCredential(id: nat) | ClearCredential(id: nat) | Retire(id: nat)

  datatype Progress = Pending | Applied | Refused | Dropped

  datatype Call = Call(request: Request, progress: Progress)

  datatype Op = Add(withToken: bool) | SaveToken(id: nat) | ClearToken(id: nat) | Remove(id: nat)

  /**
   * `Writing` is between reading the stored list and writing it back. In all states but `Idle` the
   * window's controls are disabled.
   */
  datatype Task = Idle | Queued(op: Op) | Writing(op: Op, listed: set<nat>) | Awaiting(op: Op, call: nat)

  /** The listed profiles, and how many have ever been written. Ids are never reused. */
  datatype Store = Store(profiles: set<nat>, created: nat)

  datatype Bridge = Bridge(credentials: set<nat>, retired: set<nat>, calls: seq<Call>)

  datatype World = World(store: Store, bridge: Bridge, lock: Option<nat>, tasks: map<nat, Task>)

  datatype Event =
    | Started(window: nat, op: Op)
    | Entered(window: nat, readFails: bool)
    | Wrote(window: nat, wrote: bool)
    | CallApplied(call: nat)
    | CallDropped(call: nat)
    | Answered(window: nat, ok: bool, readFails: bool)
    | WindowClosed(window: nat)

  const INITIAL := World(Store({}, 0), Bridge({}, {}, []), None, map[])

  function TaskOf(w: World, window: nat): Task {
    if window in w.tasks then w.tasks[window] else Idle
  }

  /** The profile an operation names must have been on some window's list. */
  predicate OpKnown(created: nat, op: Op) {
    match op
    case Add(_) => true
    case SaveToken(id) => id < created
    case ClearToken(id) => id < created
    case Remove(id) => id < created
  }

  /** If the list is changed in one indivisible step, nobody else is in the middle of changing it. */
  predicate ListFree(cfg: Config, w: World) {
    cfg.atomic ==> forall i | i in w.tasks :: !w.tasks[i].Writing?
  }

  predicate Enabled(cfg: Config, w: World, e: Event) {
    match e
    case Started(i, op) => TaskOf(w, i) == Idle && OpKnown(w.store.created, op)
    case Entered(i, readFails) =>
      && TaskOf(w, i).Queued?
      && (cfg.locking ==> w.lock == None)
      && (readFails ==> cfg.lossyReads)
      && (TaskOf(w, i).op.Add? || TaskOf(w, i).op.SaveToken? ==> ListFree(cfg, w))
    case Wrote(i, _) => TaskOf(w, i).Writing?
    case CallApplied(c) => c < |w.bridge.calls| && w.bridge.calls[c].progress == Pending
    case CallDropped(c) => c < |w.bridge.calls| && w.bridge.calls[c].progress == Pending
    case Answered(i, ok, readFails) =>
      && TaskOf(w, i).Awaiting?
      && TaskOf(w, i).call < |w.bridge.calls|
      && w.bridge.calls[TaskOf(w, i).call].progress != Pending
      && (ok ==> w.bridge.calls[TaskOf(w, i).call].progress == Applied)
      && (readFails ==> cfg.lossyReads)
      && (TaskOf(w, i).op.Remove? && ok ==> ListFree(cfg, w))
    case WindowClosed(i) => cfg.closing
  }

  /** What `listConnectionProfiles` returns: a failed read shows no profiles. */
  function Listed(store: Store, readFails: bool): set<nat> {
    if readFails then {} else store.profiles
  }

  function Finish(w: World, window: nat): World {
    w.(tasks := w.tasks[window := Idle], lock := if w.lock == Some(window) then None else w.lock)
  }

  function Send(w: World, window: nat, op: Op, request: Request): World {
    w.(bridge := w.bridge.(calls := w.bridge.calls + [Call(request, Pending)]),
       tasks := w.tasks[window := Awaiting(op, |w.bridge.calls|)])
  }

  function Read(w: World, window: nat, op: Op, readFails: bool): World {
    w.(tasks := w.tasks[window := Writing(op, Listed(w.store, readFails))])
  }

  /** The synchronous part of a mutation body, up to its bridge call or to writing the list back. */
  function Body(w: World, window: nat, op: Op, readFails: bool): World {
    match op
    case Add(_) => Read(w, window, op, readFails)
    case SaveToken(id) =>
      if id !in Listed(w.store, readFails) then Finish(w, window)
      else Send(w, window, op, SetCredential(id))
    case ClearToken(id) => Send(w, window, op, ClearCredential(id))
    case Remove(id) => Send(w, window, op, Retire(id))
  }

  /** Writing the list back: with the new profile, or without the removed one. */
  function Written(w: World, window: nat, op: Op, listed: set<nat>, wrote: bool): World {
    if !wrote then Finish(w, window) else
    match op
    case Add(withToken) =>
      var id := w.store.created;
      var saved := w.(store := Store(listed + {id}, id + 1));
      if withToken then Send(saved, window, op, SetCredential(id)) else Finish(saved, window)
    case Remove(id) => Finish(w.(store := w.store.(profiles := listed - {id})), window)
    case _ => Finish(w, window)
  }

  /** What the desktop shell does when a call reaches it. */
  function Served(cfg: Config, b: Bridge, c: nat): Bridge
    requires c < |b.calls|
  {
    match b.calls[c].request
    case SetCredential(id) =>
      if cfg.refusing && id in b.retired then b.(calls := b.calls[c := b.calls[c].(progress := Refused)])
      else b.(credentials := b.credentials + {id}, calls := b.calls[c := b.calls[c].(progress := Applied)])
    case ClearCredential(id) =>
      b.(credentials := b.credentials - {id}, calls := b.calls[c := b.calls[c].(progress := Applied)])
    case Retire(id) =>
      b.(credentials := b.credentials - {id}, retired := b.retired + {id},
         calls := b.calls[c := b.calls[c].(progress := Applied)])
  }

  /** The rest of a mutation body, after its bridge call was answered. */
  function Resume(w: World, window: nat, op: Op, ok: bool, readFails: bool): World {
    if op.Remove? && ok then Read(w, window, op, readFails) else Finish(w, window)
  }

  function Step(cfg: Config, w: World, e: Event): World {
    if !Enabled(cfg, w, e) then w else
    match e
    case Started(i, op) => w.(tasks := w.tasks[i := Queued(op)])
    case Entered(i, readFails) =>
      Body(w.(lock := if cfg.locking then Some(i) else None), i, TaskOf(w, i).op, readFails)
    case Wrote(i, wrote) => Written(w, i, TaskOf(w, i).op, TaskOf(w, i).listed, wrote)
    case CallApplied(c) => w.(bridge := Served(cfg, w.bridge, c))
    case CallDropped(c) =>
      w.(bridge := w.bridge.(calls := w.bridge.calls[c := w.bridge.calls[c].(progress := Dropped)]))
    case Answered(i, ok, readFails) => Resume(w, i, TaskOf(w, i).op, ok, readFails)
    case WindowClosed(i) => Finish(w, i)
  }

  function Run(cfg: Config, events: seq<Event>): World {
    if events == [] then INITIAL else Step(cfg, Run(cfg, events[..|events| - 1]), events[|events| - 1])
  }

  lemma {:induction false} RunExtends(cfg: Config, events: seq<Event>, e: Event)
    ensures Run(cfg, events + [e]) == Step(cfg, Run(cfg, events), e)
  {
    assert (events + [e])[..|events + [e]| - 1] == events;
  }

  /** No stored token is without a listed profile to manage it. */
  ghost predicate Safe(w: World) {
    w.bridge.credentials <= w.store.profiles
  }

  /** Profile 0 is off the list and its token is stored. */
  predicate Orphaned(w: World) {
    0 < w.store.created && 0 !in w.store.profiles && 0 in w.bridge.credentials
  }

  /** Only one window at a time is in the middle of changing the stored list. */
  predicate Serial(cfg: Config) {
    cfg.locking || cfg.atomic
  }

  // ---- Facts about the stored list whenever it is changed by one window at a time ----

  /** The list that is about to be written back is still the stored one, or lost entries when it was read. */
  ghost predicate ListInv(cfg: Config, w: World) {
    && (forall i | i in w.tasks && w.tasks[i].Writing? ::
          w.tasks[i].listed <= w.store.profiles && (!cfg.lossyReads ==> w.tasks[i].listed == w.store.profiles))
    && (forall i, j | i in w.tasks && j in w.tasks && w.tasks[i].Writing? && w.tasks[j].Writing? :: i == j)
    && (cfg.locking ==>
          forall i | i in w.tasks && (w.tasks[i].Writing? || w.tasks[i].Awaiting?) :: w.lock == Some(i))
    && (forall id | id in w.store.profiles :: id < w.store.created)
  }

  lemma EnteredKeepsList(cfg: Config, w: World, e: Event)
    requires ListInv(cfg, w) && Serial(cfg) && e.Entered?
    ensures ListInv(cfg, Step(cfg, w, e))
  {
  }

  lemma WroteKeepsList(cfg: Config, w: World, e: Event)
    requires ListInv(cfg, w) && Serial(cfg) && e.Wrote?
    ensures ListInv(cfg, Step(cfg, w, e))
  {
  }

  lemma AnsweredKeepsList(cfg: Config, w: World, e: Event)
    requires ListInv(cfg, w) && Serial(cfg) && e.Answered?
    ensures ListInv(cfg, Step(cfg, w, e))
  {
  }

  lemma StepKeepsList(cfg: Config, w: World, e: Event)
    requires ListInv(cfg, w) && Serial(cfg)
    ensures ListInv(cfg, Step(cfg, w, e))
  {
    match e
    case Entered(_, _) => EnteredKeepsList(cfg, w, e);
    case Wrote(_, _) => WroteKeepsList(cfg, w, e);
    case Answered(_, _, _) => AnsweredKeepsList(cfg, w, e);
    case _ =>
  }

  lemma {:induction false} RunKeepsList(cfg: Config, events: seq<Event>)
    requires Serial(cfg)
    ensures ListInv(cfg, Run(cfg, events))
  {
    if events != [] {
      RunKeepsList(cfg, events[..|events| - 1]);
      StepKeepsList(cfg, Run(cfg, events[..|events| - 1]), events[|events| - 1]);
    }
  }

  // ---- Facts that hold when, besides, reads do not fail ----

  /** The call that a waiting mutation sent. */
  ghost predicate Sent(created: nat, op: Op, request: Request) {
    match op
    case Add(_) => request.SetCredential? && request.id < created
    case SaveToken(id) => request == SetCredential(id)
    case ClearToken(id) => request == ClearCredential(id)
    case Remove(id) => request == Retire(id)
  }

  ghost predicate TaskInv(w: World, t: Task) {
    match t
    case Idle => true
    case Queued(op) => OpKnown(w.store.created, op)
    case Writing(op, _) => op.Add? || (op.Remove? && op.id in w.bridge.retired)
    case Awaiting(op, call) => call < |w.bridge.calls| && Sent(w.store.created, op, w.bridge.calls[call].request)
  }

  ghost predicate TasksInv(w: World) {
    forall i | i in w.tasks :: TaskInv(w, w.tasks[i])
  }

  ghost predicate IdsInv(w: World) {
    && (forall id | id in w.bridge.credentials :: id < w.store.created)
    && (forall c | 0 <= c < |w.bridge.calls| :: w.bridge.calls[c].request.id < w.store.created)
    && (forall id: nat | id < w.store.created :: id in w.store.profiles || id in w.bridge.retired)
    && (forall c | 0 <= c < |w.bridge.calls| ::
          w.bridge.calls[c].request.Retire? && w.bridge.calls[c].progress == Applied ==>
          w.bridge.calls[c].request.id in w.bridge.retired)
  }

  ghost predicate BaseInv(cfg: Config, w: World) {
    TasksInv(w) && IdsInv(w) && ListInv(cfg, w)
  }

  lemma FinishKeepsBase(w: World, window: nat)
    requires TasksInv(w) && IdsInv(w)
    ensures TasksInv(Finish(w, window)) && IdsInv(Finish(w, window))
  {
  }

  lemma SendKeepsBase(w: World, window: nat, op: Op, request: Request)
    requires TasksInv(w) && IdsInv(w) && Sent(w.store.created, op, request) && request.id < w.store.created
    ensures TasksInv(Send(w, window, op, request)) && IdsInv(Send(w, window, op, request))
  {
    var w' := Send(w, window, op, request);
    assert forall c | 0 <= c < |w.bridge.calls| :: w'.bridge.calls[c] == w.bridge.calls[c];
    forall i | i in w'.tasks
      ensures TaskInv(w', w'.tasks[i])
    {
      assert i != window ==> TaskInv(w, w.tasks[i]);
    }
  }

  lemma StoredKeepsBase(w: World, store: Store)
    requires TasksInv(w) && IdsInv(w) && w.store.created <= store.created
    requires forall id: nat | id < store.created :: id in store.profiles || id in w.bridge.retired
    ensures TasksInv(w.(store := store)) && IdsInv(w.(store := store))
  {
    var w' := w.(store := store);
    forall i | i in w'.tasks
      ensures TaskInv(w', w'.tasks[i])
    {
      assert TaskInv(w, w.tasks[i]);
    }
  }

  lemma BodyKeepsBase(w: World, window: nat, op: Op)
    requires TasksInv(w) && IdsInv(w) && OpKnown(w.store.created, op)
    ensures TasksInv(Body(w, window, op, false)) && IdsInv(Body(w, window, op, false))
  {
    match op
    case Add(_) =>
    case SaveToken(id) =>
      FinishKeepsBase(w, window);
      SendKeepsBase(w, window, op, SetCredential(id));
    case ClearToken(id) => SendKeepsBase(w, window, op, ClearCredential(id));
    case Remove(id) => SendKeepsBase(w, window, op, Retire(id));
  }

  lemma WrittenKeepsBase(w: World, window: nat, op: Op, wrote: bool)
    requires TasksInv(w) && IdsInv(w) && (op.Add? || (op.Remove? && op.id in w.bridge.retired))
    ensures var w' := Written(w, window, op, w.store.profiles, wrote);
            TasksInv(w') && IdsInv(w')
  {
    FinishKeepsBase(w, window);
    if wrote {
      match op
      case Add(withToken) =>
        var id := w.store.created;
        var store := Store(w.store.profiles + {id}, id + 1);
        StoredKeepsBase(w, store);
        FinishKeepsBase(w.(store := store), window);
        SendKeepsBase(w.(store := store), window, op, SetCredential(id));
      case Remove(id) =>
        var store := w.store.(profiles := w.store.profiles - {id});
        StoredKeepsBase(w, store);
        FinishKeepsBase(w.(store := store), window);
    }
  }

  lemma ServedKeepsBase(cfg: Config, w: World, c: nat)
    requires TasksInv(w) && IdsInv(w) && c < |w.bridge.calls|
    ensures TasksInv(w.(bridge := Served(cfg, w.bridge, c))) && IdsInv(w.(bridge := Served(cfg, w.bridge, c)))
  {
    var w' := w.(bridge := Served(cfg, w.bridge, c));
    forall i | i in w'.tasks
      ensures TaskInv(w', w'.tasks[i])
    {
      assert TaskInv(w, w.tasks[i]);
    }
  }

  lemma StepKeepsBase(cfg: Config, w: World, e: Event)
    requires BaseInv(cfg, w) && Serial(cfg) && !cfg.lossyReads
    ensures BaseInv(cfg, Step(cfg, w, e))
  {
    StepKeepsList(cfg, w, e);
    if Enabled(cfg, w, e) {
      match e
      case Started(i, op) =>
      case Entered(i, readFails) =>
        assert TaskInv(w, w.tasks[i]);
        BodyKeepsBase(w.(lock := if cfg.locking then Some(i) else None), i, TaskOf(w, i).op);
      case Wrote(i, wrote) =>
        assert TaskInv(w, w.tasks[i]);
        WrittenKeepsBase(w, i, TaskOf(w, i).op, wrote);
      case CallApplied(c) => ServedKeepsBase(cfg, w, c);
      case CallDropped(c) => DroppedKeepsBase(cfg, w, c);
      case Answered(i, ok, readFails) =>
        assert TaskInv(w, w.tasks[i]);
        FinishKeepsBase(w, i);
      case WindowClosed(i) => FinishKeepsBase(w, i);
    }
  }

  lemma DroppedKeepsBase(cfg: Config, w: World, c: nat)
    requires TasksInv(w) && IdsInv(w) && Enabled(cfg, w, CallDropped(c))
    ensures TasksInv(Step(cfg, w, CallDropped(c))) && IdsInv(Step(cfg, w, CallDropped(c)))
  {
    var w' := Step(cfg, w, CallDropped(c));
    forall i | i in w'.tasks
      ensures TaskInv(w', w'.tasks[i])
    {
      assert TaskInv(w, w.tasks[i]);
    }
  }

  // ---- Safety from the bridge's refusal ----

  ghost predicate RefusalInv(cfg: Config, w: World) {
    BaseInv(cfg, w) && w.bridge.credentials !! w.bridge.retired
  }

  lemma {:induction false} SafeByRefusal(cfg: Config, events: seq<Event>)
    requires cfg.refusing && Serial(cfg) && !cfg.lossyReads
    ensures RefusalInv(cfg, Run(cfg, events)) && Safe(Run(cfg, events))
  {
    if events != [] {
      var before, e := events[..|events| - 1], events[|events| - 1];
      SafeByRefusal(cfg, before);
      StepKeepsBase(cfg, Run(cfg, before), e);
    }
  }

  // ---- Safety from the lock alone ----

  /** Under the lock the only pending call is the one that the holder waits for. */
  ghost predicate HolderInv(w: World) {
    && (forall c | 0 <= c < |w.bridge.calls| && w.bridge.calls[c].progress == Pending ::
          w.lock.Some? && TaskOf(w, w.lock.value).Awaiting? && TaskOf(w, w.lock.value).call == c)
    && (w.lock.Some? ==> TaskOf(w, w.lock.value).Awaiting? || TaskOf(w, w.lock.value).Writing?)
  }

  /** What the holder is about to do is still right. */
  ghost predicate PromiseInv(w: World) {
    && (forall c | 0 <= c < |w.bridge.calls| && w.bridge.calls[c].progress == Pending ::
          w.bridge.calls[c].request.SetCredential? ==> w.bridge.calls[c].request.id in w.store.profiles)
    && (forall i | i in w.tasks && w.tasks[i].Awaiting? && w.tasks[i].op.Remove? && w.tasks[i].call < |w.bridge.calls| ::
          w.bridge.calls[w.tasks[i].call].progress == Applied ==> w.tasks[i].op.id !in w.bridge.credentials)
    && (forall i | i in w.tasks && w.tasks[i].Writing? && w.tasks[i].op.Remove? ::
          w.tasks[i].op.id !in w.bridge.credentials)
  }

  ghost predicate LockInv(cfg: Config, w: World) {
    BaseInv(cfg, w) && HolderInv(w) && PromiseInv(w) && Safe(w)
  }

  lemma BodyKeepsLock(cfg: Config, w: World, window: nat, op: Op)
    requires LockInv(cfg, w) && cfg.locking && w.lock == None && OpKnown(w.store.created, op)
    ensures var w' := Body(w.(lock := Some(window)), window, op, false);
            HolderInv(w') && PromiseInv(w') && Safe(w')
  {
    var w' := Body(w.(lock := Some(window)), window, op, false);
    assert forall c | 0 <= c < |w.bridge.calls| :: w'.bridge.calls[c] == w.bridge.calls[c] && w.bridge.calls[c].progress != Pending;
    assert HolderInv(w');
  }

  lemma WrittenKeepsLock(cfg: Config, w: World, window: nat, wrote: bool)
    requires LockInv(cfg, w) && cfg.locking && !cfg.lossyReads && TaskOf(w, window).Writing?
    ensures var w' := Written(w, window, TaskOf(w, window).op, TaskOf(w, window).listed, wrote);
            HolderInv(w') && PromiseInv(w') && Safe(w')
  {
    var w' := Written(w, window, TaskOf(w, window).op, TaskOf(w, window).listed, wrote);
    assert w.lock == Some(window);
    assert forall c | 0 <= c < |w.bridge.calls| :: w'.bridge.calls[c] == w.bridge.calls[c] && w.bridge.calls[c].progress != Pending;
    assert HolderInv(w');
  }

  lemma ServedKeepsLock(cfg: Config, w: World, c: nat)
    requires LockInv(cfg, w) && cfg.locking && c < |w.bridge.calls| && w.bridge.calls[c].progress == Pending
    ensures var w' := w.(bridge := Served(cfg, w.bridge, c));
            HolderInv(w') && PromiseInv(w') && Safe(w')
  {
    var w' := w.(bridge := Served(cfg, w.bridge, c));
    assert TaskInv(w, w.tasks[w.lock.value]);
    assert HolderInv(w');
    assert PromiseInv(w');
  }

  lemma AnsweredKeepsLock(cfg: Config, w: World, e: Event)
    requires LockInv(cfg, w) && cfg.locking && !cfg.lossyReads && e.Answered? && Enabled(cfg, w, e)
    ensures HolderInv(Step(cfg, w, e)) && PromiseInv(Step(cfg, w, e)) && Safe(Step(cfg, w, e))
  {
    assert w.lock == Some(e.window);
    assert forall c | 0 <= c < |w.bridge.calls| :: w.bridge.calls[c].progress != Pending;
  }

  lemma StepKeepsLock(cfg: Config, w: World, e: Event)
    requires LockInv(cfg, w) && cfg.locking && !cfg.closing && !cfg.lossyReads
    ensures LockInv(cfg, Step(cfg, w, e))
  {
    StepKeepsBase(cfg, w, e);
    if Enabled(cfg, w, e) {
      match e
      case Started(i, op) =>
      case Entered(i, readFails) =>
        assert TaskInv(w, w.tasks[i]);
        BodyKeepsLock(cfg, w, i, TaskOf(w, i).op);
      case Wrote(i, wrote) => WrittenKeepsLock(cfg, w, i, wrote);
      case CallApplied(c) => ServedKeepsLock(cfg, w, c);
      case CallDropped(c) =>
      case Answered(i, ok, readFails) => AnsweredKeepsLock(cfg, w, e);
    }
  }

  lemma {:induction false} SafeByLock(cfg: Config, events: seq<Event>)
    requires cfg.locking && !cfg.closing && !cfg.lossyReads
    ensures LockInv(cfg, Run(cfg, events)) && Safe(Run(cfg, events))
  {
    if events != [] {
      SafeByLock(cfg, events[..|events| - 1]);
      StepKeepsLock(cfg, Run(cfg, events[..|events| - 1]), events[|events| - 1]);
    }
  }

  // ---- Exactly which protections are needed ----

  /** One more event of a history. */
  lemma Then(cfg: Config, events: seq<Event>, w: World, e: Event) returns (events': seq<Event>, w': World)
    requires Run(cfg, events) == w
    ensures events' == events + [e] && w' == Step(cfg, w, e) && Run(cfg, events') == w'
  {
    events', w' := events + [e], Step(cfg, w, e);
    RunExtends(cfg, events, e);
  }

  function Holder(cfg: Config, window: nat): Option<nat> {
    if cfg.locking then Some(window) else None
  }

  lemma FirstAdd(cfg: Config, withToken: bool) returns (events: seq<Event>, w: World)
    ensures w == Run(cfg, events)
    ensures w == if withToken
                 then World(Store({0}, 1), Bridge({}, {}, [Call(SetCredential(0), Pending)]), Holder(cfg, 0),
                            map[0 := Awaiting(Add(true), 0)])
                 else World(Store({0}, 1), Bridge({}, {}, []), None, map[0 := Idle])
  {
    events, w := Then(cfg, [], INITIAL, Started(0, Add(withToken)));
    events, w := Then(cfg, events, w, Entered(0, false));
    assert w == World(Store({}, 0), Bridge({}, {}, []), Holder(cfg, 0), map[0 := Writing(Add(withToken), {})]);
    events, w := Then(cfg, events, w, Wrote(0, true));
  }

  /** What window 0 does once it was closed, if it could be. */
  function Abandoned(cfg: Config): Task {
    if cfg.closing then Idle else Awaiting(SaveToken(0), 0)
  }

  lemma SaveWasAbandoned(cfg: Config) returns (events: seq<Event>, w: World)
    requires !(cfg.locking && !cfg.closing)
    ensures w == Run(cfg, events)
    ensures w == World(Store({0}, 1), Bridge({}, {}, [Call(SetCredential(0), Pending)]), None, map[0 := Abandoned(cfg)])
  {
    events, w := FirstAdd(cfg, false);
    events, w := Then(cfg, events, w, Started(0, SaveToken(0)));
    events, w := Then(cfg, events, w, Entered(0, false));
    assert w == World(Store({0}, 1), Bridge({}, {}, [Call(SetCredential(0), Pending)]),
                      Holder(cfg, 0), map[0 := Awaiting(SaveToken(0), 0)]);
    events, w := Then(cfg, events, w, WindowClosed(0));
  }

  lemma RemovalWasSent(cfg: Config) returns (events: seq<Event>, w: World)
    requires !(cfg.locking && !cfg.closing)
    ensures w == Run(cfg, events)
    ensures w == World(Store({0}, 1), Bridge({}, {}, [Call(SetCredential(0), Pending), Call(Retire(0), Pending)]),
                       Holder(cfg, 1), map[0 := Abandoned(cfg), 1 := Awaiting(Remove(0), 1)])
  {
    events, w := SaveWasAbandoned(cfg);
    events, w := Then(cfg, events, w, Started(1, Remove(0)));
    events, w := Then(cfg, events, w, Entered(1, false));
  }

  /** A save races a removal: its call takes effect only after the profile is gone. */
  lemma RaceOrphansToken(cfg: Config) returns (events: seq<Event>)
    requires !cfg.refusing && !(cfg.locking && !cfg.closing)
    ensures Orphaned(Run(cfg, events)) && !Safe(Run(cfg, events))
  {
    var w;
    events, w := RemovalWasSent(cfg);
    events, w := Then(cfg, events, w, CallApplied(1));
    events, w := Then(cfg, events, w, Answered(1, true, false));
    assert w == World(Store({0}, 1), Bridge({}, {0}, [Call(SetCredential(0), Pending), Call(Retire(0), Applied)]),
                      Holder(cfg, 1), map[0 := Abandoned(cfg), 1 := Writing(Remove(0), {0})]);
    events, w := Then(cfg, events, w, Wrote(1, true));
    events, w := Then(cfg, events, w, CallApplied(0));
    assert 0 in w.bridge.credentials && 0 !in w.store.profiles;
  }

  /** A profile with a token is stored; the next save reads an empty list and writes it back. */
  lemma LostListOrphansToken(cfg: Config) returns (events: seq<Event>)
    requires cfg.lossyReads
    ensures Orphaned(Run(cfg, events)) && !Safe(Run(cfg, events))
  {
    var w;
    events, w := FirstAdd(cfg, true);
    events, w := Then(cfg, events, w, CallApplied(0));
    events, w := Then(cfg, events, w, Answered(0, true, false));
    assert w == World(Store({0}, 1), Bridge({0}, {}, [Call(SetCredential(0), Applied)]), None, map[0 := Idle]);
    events, w := Then(cfg, events, w, Started(0, Add(false)));
    events, w := Then(cfg, events, w, Entered(0, true));
    assert TaskOf(w, 0) == Writing(Add(false), {});
    events, w := Then(cfg, events, w, Wrote(0, true));
    assert 0 in w.bridge.credentials && w.store == Store({1}, 2);
  }

  /** Two windows read the list before either writes it back. */
  lemma LostUpdateOrphansToken(cfg: Config) returns (events: seq<Event>)
    requires !Serial(cfg)
    ensures Orphaned(Run(cfg, events)) && !Safe(Run(cfg, events))
  {
    var w;
    events, w := Then(cfg, [], INITIAL, Started(0, Add(true)));
    events, w := Then(cfg, events, w, Started(1, Add(false)));
    events, w := Then(cfg, events, w, Entered(0, false));
    events, w := Then(cfg, events, w, Entered(1, false));
    assert w == World(Store({}, 0), Bridge({}, {}, []), None,
                      map[0 := Writing(Add(true), {}), 1 := Writing(Add(false), {})]);
    events, w := Then(cfg, events, w, Wrote(0, true));
    events, w := Then(cfg, events, w, Wrote(1, true));
    assert w.store == Store({1}, 2) && w.bridge == Bridge({}, {}, [Call(SetCredential(0), Pending)]);
    events, w := Then(cfg, events, w, CallApplied(0));
    assert 0 in w.bridge.credentials;
  }

  /** Reads are faithful, and mutations are serialised to their end or late saves are refused. */
  predicate Protected(cfg: Config) {
    !cfg.lossyReads && ((cfg.locking && !cfg.closing) || (cfg.refusing && Serial(cfg)))
  }

  /** Without those protections some history leaves a token behind. */
  lemma Orphaning(cfg: Config) returns (events: seq<Event>)
    requires !Protected(cfg)
    ensures Orphaned(Run(cfg, events)) && !Safe(Run(cfg, events))
  {
    if cfg.lossyReads {
      events := LostListOrphansToken(cfg);
    } else if !cfg.refusing {
      events := RaceOrphansToken(cfg);
    } else {
      events := LostUpdateOrphansToken(cfg);
    }
  }

  /**
   * Over all runs of any number of windows, every stored token belongs to a listed profile exactly when
   * the stored list is read faithfully and either mutations hold the lock and no window closes in the
   * middle of one, or the bridge refuses retired ids and the list is changed by one window at a time.
   */
  lemma {:induction false} TokensAreListedIff(cfg: Config)
    ensures (forall events :: Safe(Run(cfg, events))) <==> Protected(cfg)
  {
    if !Protected(cfg) {
      var events := Orphaning(cfg);
    } else if cfg.locking && !cfg.closing {
      forall events
        ensures Safe(Run(cfg, events))
      {
        SafeByLock(cfg, events);
      }
    } else {
      forall events
        ensures Safe(Run(cfg, events))
      {
        SafeByRefusal(cfg, events);
      }
    }
  }

  // ---- Removal ----

  /** One window reads the list before another removes a profile from it, and writes it back afterwards. */
  lemma StaleListRestoresProfile(cfg: Config) returns (events: seq<Event>, e: Event)
    requires !Serial(cfg)
    ensures 0 < Run(cfg, events).store.created && 0 !in Run(cfg, events).store.profiles
    ensures 0 in Run(cfg, events + [e]).store.profiles && 0 in Step(cfg, Run(cfg, events), e).store.profiles
  {
    var w;
    events, w := FirstAdd(cfg, false);
    events, w := Then(cfg, events, w, Started(1, Remove(0)));
    events, w := Then(cfg, events, w, Entered(1, false));
    events, w := Then(cfg, events, w, CallApplied(0));
    assert w == World(Store({0}, 1), Bridge({}, {0}, [Call(Retire(0), Applied)]), None,
                      map[0 := Idle, 1 := Awaiting(Remove(0), 0)]);
    events, w := Then(cfg, events, w, Started(0, Add(false)));
    events, w := Then(cfg, events, w, Entered(0, false));
    events, w := Then(cfg, events, w, Answered(1, true, false));
    assert w == World(Store({0}, 1), Bridge({}, {0}, [Call(Retire(0), Applied)]), None,
                      map[0 := Writing(Add(false), {0}), 1 := Writing(Remove(0), {0})]);
    events, w := Then(cfg, events, w, Wrote(1, true));
    e := Wrote(0, true);
    var _, w' := Then(cfg, events, w, e);
  }

  ghost predicate StaysRemoved(cfg: Config, events: seq<Event>, e: Event, id: nat) {
    var w := Run(cfg, events);
    id < w.store.created && id !in w.store.profiles ==>
      id < Step(cfg, w, e).store.created && id !in Step(cfg, w, e).store.profiles
  }

  /** A removed profile never comes back, over all runs, exactly when the list is changed by one window at a time. */
  lemma ProfileStaysRemovedIff(cfg: Config)
    ensures (forall events, e, id :: StaysRemoved(cfg, events, e, id)) <==> Serial(cfg)
  {
    if Serial(cfg) {
      forall events, e, id
        ensures StaysRemoved(cfg, events, e, id)
      {
        RunKeepsList(cfg, events);
      }
    } else {
      var events, e := StaleListRestoresProfile(cfg);
      assert !StaysRemoved(cfg, events, e, 0);
    }
  }

  ghost predicate StaysGone(cfg: Config, events: seq<Event>, more: seq<Event>, id: nat) {
    id < Run(cfg, events).store.created && id !in Run(cfg, events).store.profiles ==>
      id !in Run(cfg, events + more).store.profiles && id !in Run(cfg, events + more).bridge.credentials
  }

  lemma {:induction false} RemovalIsFinal(cfg: Config, events: seq<Event>, more: seq<Event>, id: nat)
    requires Protected(cfg)
    requires id < Run(cfg, events).store.created && id !in Run(cfg, events).store.profiles
    ensures id < Run(cfg, events + more).store.created
    ensures id !in Run(cfg, events + more).store.profiles && id !in Run(cfg, events + more).bridge.credentials
  {
    if more == [] {
      assert events + more == events;
    } else {
      var init, last := more[..|more| - 1], more[|more| - 1];
      RemovalIsFinal(cfg, events, init, id);
      assert events + more == (events + init) + [last];
      RunExtends(cfg, events + init, last);
      ProfileStaysRemovedIff(cfg);
      assert StaysRemoved(cfg, events + init, last, id);
    }
    TokensAreListedIff(cfg);
  }

  /** A removed profile and its token never come back, over all runs, exactly with the same protections. */
  lemma RemovalIsFinalIff(cfg: Config)
    ensures (forall events, more, id: nat :: StaysGone(cfg, events, more, id)) <==> Protected(cfg)
  {
    if Protected(cfg) {
      forall events, more, id: nat
        ensures StaysGone(cfg, events, more, id)
      {
        if id < Run(cfg, events).store.created && id !in Run(cfg, events).store.profiles {
          RemovalIsFinal(cfg, events, more, id);
        }
      }
    } else {
      var events := Orphaning(cfg);
      assert events + [] == events;
      assert !StaysGone(cfg, events, [], 0);
    }
  }

  // ---- What the operations achieve ----

  /** Every mutation names a written profile, and when it waits, it waits for its own call. */
  ghost predicate Asked(w: World, t: Task) {
    match t
    case Idle => true
    case Queued(op) => OpKnown(w.store.created, op)
    case Writing(op, _) => OpKnown(w.store.created, op)
    case Awaiting(op, call) => call < |w.bridge.calls| && Sent(w.store.created, op, w.bridge.calls[call].request)
  }

  ghost predicate AskedInv(w: World) {
    && (forall i | i in w.tasks :: Asked(w, w.tasks[i]))
    && (forall c | 0 <= c < |w.bridge.calls| :: w.bridge.calls[c].request.id < w.store.created)
    && (forall id | id in w.bridge.retired :: id < w.store.created)
  }

  /** Whatever is written and sent besides, the other mutations still wait for their own calls. */
  lemma OthersStayAsked(w: World, t: World, window: nat)
    requires AskedInv(w) && w.store.created <= t.store.created && |w.bridge.calls| <= |t.bridge.calls|
    requires forall c | 0 <= c < |w.bridge.calls| :: t.bridge.calls[c].request == w.bridge.calls[c].request
    requires t.tasks.Keys <= w.tasks.Keys + {window}
    requires forall i | i in t.tasks && i != window :: i in w.tasks && t.tasks[i] == w.tasks[i]
    ensures forall i | i in t.tasks && i != window :: Asked(t, t.tasks[i])
  {
    forall i | i in t.tasks && i != window
      ensures Asked(t, t.tasks[i])
    {
      assert Asked(w, w.tasks[i]);
    }
  }

  lemma StepKeepsAsked(cfg: Config, w: World, e: Event)
    requires AskedInv(w)
    ensures AskedInv(Step(cfg, w, e))
  {
    if Enabled(cfg, w, e) {
      var t := Step(cfg, w, e);
      match e
      case CallApplied(_) => OthersStayAsked(w, t, 0); assert 0 in w.tasks ==> Asked(w, w.tasks[0]);
      case CallDropped(_) => OthersStayAsked(w, t, 0); assert 0 in w.tasks ==> Asked(w, w.tasks[0]);
      case _ =>
        assert e.window in w.tasks ==> Asked(w, w.tasks[e.window]);
        OthersStayAsked(w, t, e.window);
    }
  }

  lemma {:induction false} RunKeepsAsked(cfg: Config, events: seq<Event>)
    ensures AskedInv(Run(cfg, events))
  {
    if events != [] {
      RunKeepsAsked(cfg, events[..|events| - 1]);
      StepKeepsAsked(cfg, Run(cfg, events[..|events| - 1]), events[|events| - 1]);
    }
  }

  /** Event `k` made a pending call take effect. */
  ghost predicate AppliedAt(cfg: Config, events: seq<Event>, k: nat, c: nat) {
    k < |events| && events[k] == CallApplied(c) && Enabled(cfg, Run(cfg, events[..k]), events[k])
  }

  /** Event `k` was a call taking effect that asks for the token of `id` to be stored. */
  ghost predicate StoresAt(cfg: Config, events: seq<Event>, k: nat, id: nat) {
    exists c: nat :: AppliedAt(cfg, events, k, c) && Run(cfg, events[..k]).bridge.calls[c].request == SetCredential(id)
  }

  /** Event `k` was a call taking effect that asks for the token of `id` to be dropped. */
  ghost predicate DropsAt(cfg: Config, events: seq<Event>, k: nat, id: nat) {
    exists c: nat :: AppliedAt(cfg, events, k, c)
                && (Run(cfg, events[..k]).bridge.calls[c].request == ClearCredential(id)
                    || Run(cfg, events[..k]).bridge.calls[c].request == Retire(id))
  }

  lemma PrefixApplied(cfg: Config, events: seq<Event>, n: nat, k: nat, c: nat)
    requires n <= |events| && k < n
    ensures events[..n][..k] == events[..k]
    ensures AppliedAt(cfg, events[..n], k, c) <==> AppliedAt(cfg, events, k, c)
  {
    assert events[..n][..k] == events[..k] && events[..n][k] == events[k];
  }

  /** A token appears only when a call that asks for it takes effect. */
  lemma {:induction false} TokenNeedsASave(cfg: Config, events: seq<Event>, a: nat, id: nat)
    requires a <= |events| && id !in Run(cfg, events[..a]).bridge.credentials && id in Run(cfg, events).bridge.credentials
    ensures exists k :: a <= k < |events| && StoresAt(cfg, events, k, id)
  {
    assert events[..|events|] == events;
    var n := |events| - 1;
    var w, e := Run(cfg, events[..n]), events[n];
    if a <= n && id in w.bridge.credentials {
      assert events[..n][..a] == events[..a];
      TokenNeedsASave(cfg, events[..n], a, id);
      var k :| a <= k < n && StoresAt(cfg, events[..n], k, id);
      var c: nat :| AppliedAt(cfg, events[..n], k, c) && Run(cfg, events[..n][..k]).bridge.calls[c].request == SetCredential(id);
      PrefixApplied(cfg, events, n, k, c);
      assert StoresAt(cfg, events, k, id);
    } else {
      assert e.CallApplied? && AppliedAt(cfg, events, n, e.call);
      assert StoresAt(cfg, events, n, id);
    }
  }

  /** And disappears only when a call that clears or retires it takes effect. */
  lemma {:induction false} TokenStaysUntilDropped(cfg: Config, events: seq<Event>, a: nat, id: nat)
    requires a <= |events| && id in Run(cfg, events[..a]).bridge.credentials && id !in Run(cfg, events).bridge.credentials
    ensures exists k :: a <= k < |events| && DropsAt(cfg, events, k, id)
  {
    assert events[..|events|] == events;
    var n := |events| - 1;
    var w, e := Run(cfg, events[..n]), events[n];
    if a <= n && id !in w.bridge.credentials {
      assert events[..n][..a] == events[..a];
      TokenStaysUntilDropped(cfg, events[..n], a, id);
      var k :| a <= k < n && DropsAt(cfg, events[..n], k, id);
      var c: nat :| AppliedAt(cfg, events[..n], k, c)
                    && (Run(cfg, events[..n][..k]).bridge.calls[c].request == ClearCredential(id)
                        || Run(cfg, events[..n][..k]).bridge.calls[c].request == Retire(id));
      PrefixApplied(cfg, events, n, k, c);
      assert DropsAt(cfg, events, k, id);
    } else {
      assert e.CallApplied? && AppliedAt(cfg, events, n, e.call);
      assert DropsAt(cfg, events, n, id);
    }
  }

  /** Calls are never forgotten or changed, and count as applied only by taking effect. */
  lemma CallsStay(cfg: Config, w: World, e: Event, c: nat)
    requires c < |Step(cfg, w, e).bridge.calls| && Step(cfg, w, e).bridge.calls[c].progress == Applied
    ensures c < |w.bridge.calls| && Step(cfg, w, e).bridge.calls[c].request == w.bridge.calls[c].request
    ensures w.bridge.calls[c].progress == Applied || (e == CallApplied(c) && Enabled(cfg, w, e))
  {
  }

  /** A call that counts as applied did take effect, as it was asked for. */
  lemma {:induction false} AppliedOnce(cfg: Config, events: seq<Event>, c: nat) returns (k: nat)
    requires c < |Run(cfg, events).bridge.calls| && Run(cfg, events).bridge.calls[c].progress == Applied
    ensures AppliedAt(cfg, events, k, c)
    ensures Run(cfg, events[..k]).bridge.calls[c].request == Run(cfg, events).bridge.calls[c].request
    ensures Step(cfg, Run(cfg, events[..k]), events[k]).bridge.calls[c].progress == Applied
  {
    var n := |events| - 1;
    CallsStay(cfg, Run(cfg, events[..n]), events[n], c);
    if Run(cfg, events[..n]).bridge.calls[c].progress == Applied {
      k := AppliedOnce(cfg, events[..n], c);
      PrefixApplied(cfg, events, n, k, c);
    } else {
      k := n;
    }
  }

  /**
   * An answer of success means what it says. The call of that very mutation took effect; a token that it
   * saved is there unless a later call dropped it, and a token that it cleared or retired is gone unless
   * a later call stored it.
   */
  lemma {:induction false} SuccessIsTrue(cfg: Config, events: seq<Event>, window: nat, readFails: bool)
    returns (k: nat)
    requires Enabled(cfg, Run(cfg, events), Answered(window, true, readFails))
    ensures var w := Run(cfg, events);
            var op, c := w.tasks[window].op, w.tasks[window].call;
            && AppliedAt(cfg, events, k, c)
            && Sent(w.store.created, op, w.bridge.calls[c].request)
            && (w.bridge.calls[c].request.SetCredential? && w.bridge.calls[c].request.id !in w.bridge.credentials ==>
                  exists j :: k < j < |events| && DropsAt(cfg, events, j, w.bridge.calls[c].request.id))
            && (!w.bridge.calls[c].request.SetCredential? && w.bridge.calls[c].request.id in w.bridge.credentials ==>
                  exists j :: k < j < |events| && StoresAt(cfg, events, j, w.bridge.calls[c].request.id))
  {
    var w := Run(cfg, events);
    var op, c := w.tasks[window].op, w.tasks[window].call;
    RunKeepsAsked(cfg, events);
    assert Asked(w, w.tasks[window]);
    k := AppliedOnce(cfg, events, c);
    var before := Run(cfg, events[..k]);
    assert events[..k + 1][..k] == events[..k];
    assert Run(cfg, events[..k + 1]) == Step(cfg, before, CallApplied(c));
    assert before.bridge.calls[c].progress == Pending;
    var id := w.bridge.calls[c].request.id;
    if w.bridge.calls[c].request.SetCredential? {
      if id !in w.bridge.credentials {
        TokenStaysUntilDropped(cfg, events, k + 1, id);
      }
    } else if id in w.bridge.credentials {
      TokenNeedsASave(cfg, events, k + 1, id);
    }
  }

  /** A window whose click is heard, that gets the lock and whose list nobody else is changing. */
  predicate Ready(cfg: Config, w: World, window: nat, op: Op) {
    && TaskOf(w, window) == Idle && OpKnown(w.store.created, op)
    && (cfg.locking ==> w.lock == None) && ListFree(cfg, w)
  }

  /** A mutation without failures and without other windows in between. */
  function Uninterrupted(w: World, window: nat, op: Op): seq<Event> {
    var served := [CallApplied(|w.bridge.calls|), Answered(window, true, false)];
    [Started(window, op), Entered(window, false)] +
    match op
    case Add(withToken) => [Wrote(window, true)] + if withToken then served else []
    case Remove(_) => served + [Wrote(window, true)]
    case _ => served
  }

  /** What it leaves: the list and the tokens as asked, and nothing else that others see. */
  ghost predicate Achieved(cfg: Config, w: World, window: nat, op: Op, t: World) {
    && t.tasks == w.tasks[window := Idle]
    && (w.lock == None ==> t.lock == None)
    && match op
       case Add(withToken) =>
         && t.store == Store(w.store.profiles + {w.store.created}, w.store.created + 1)
         && t.bridge.credentials == if withToken then w.bridge.credentials + {w.store.created} else w.bridge.credentials
       case SaveToken(id) =>
         && t.store == w.store && t.bridge.credentials == w.bridge.credentials + {id}
       case ClearToken(id) =>
         && t.store == w.store && t.bridge.credentials == w.bridge.credentials - {id}
       case Remove(id) =>
         && t.store == w.store.(profiles := w.store.profiles - {id})
         && t.bridge.credentials == w.bridge.credentials - {id} && id in t.bridge.retired
  }

  /** The request that a mutation waits for. */
  function Wanted(op: Op): Option<Request> {
    match op
    case Add(_) => None
    case SaveToken(id) => Some(SetCredential(id))
    case ClearToken(id) => Some(ClearCredential(id))
    case Remove(id) => Some(Retire(id))
  }

  /**
   * Entering puts the request on the bridge and waits for it; only the token of a profile that is not
   * listed is not asked for, and an addition first reads the list.
   */
  lemma EnteringSends(cfg: Config, w: World, window: nat, readFails: bool)
    requires Enabled(cfg, w, Entered(window, readFails))
    ensures var op, t := TaskOf(w, window).op, Step(cfg, w, Entered(window, readFails));
            var waits := !op.Add? && (op.SaveToken? ==> !readFails && op.id in w.store.profiles);
            && t.store == w.store
            && t.bridge == (if waits then w.bridge.(calls := w.bridge.calls + [Call(Wanted(op).value, Pending)]) else w.bridge)
            && t.tasks == w.tasks[window := if waits then Awaiting(op, |w.bridge.calls|)
                                            else if op.Add? then Writing(op, if readFails then {} else w.store.profiles)
                                            else Idle]
            && (cfg.locking && t.tasks[window] != Idle ==> t.lock == Some(window))
            && (w.lock == None ==> t.lock == None || (t.lock == Some(window) && t.tasks[window] != Idle))
  {
  }

  /** Serving a call does what it asks for and settles it; only the token of a retired id may be refused. */
  lemma ServingApplies(cfg: Config, b: Bridge, c: nat)
    requires c < |b.calls|
    ensures var request, t := b.calls[c].request, Served(cfg, b, c);
            var refused := request.SetCredential? && cfg.refusing && request.id in b.retired;
            && t.calls == b.calls[c := Call(request, if refused then Refused else Applied)]
            && t.credentials == (if refused then b.credentials
                                 else if request.SetCredential? then b.credentials + {request.id}
                                 else b.credentials - {request.id})
            && t.retired == (if request.Retire? then b.retired + {request.id} else b.retired)
  {
  }

  lemma AddIsListed(cfg: Config, events: seq<Event>, window: nat, withToken: bool) returns (more: seq<Event>, w: World)
    requires Ready(cfg, Run(cfg, events), window, Add(withToken))
    ensures var w0, op := Run(cfg, events), Add(withToken);
            && more == events + [Started(window, op), Entered(window, false), Wrote(window, true)]
            && w == Run(cfg, more)
            && w.store == Store(w0.store.profiles + {w0.store.created}, w0.store.created + 1)
            && w.bridge.credentials == w0.bridge.credentials && w.bridge.retired == w0.bridge.retired
            && (withToken ==> w.bridge.calls == w0.bridge.calls + [Call(SetCredential(w0.store.created), Pending)])
            && w.tasks == w0.tasks[window := if withToken then Awaiting(op, |w0.bridge.calls|) else Idle]
            && (w0.lock == None ==> w.lock == None || (withToken && w.lock == Some(window)))
  {
    var w0, op := Run(cfg, events), Add(withToken);
    more, w := Then(cfg, events, w0, Started(window, op));
    EnteringSends(cfg, w, window, false);
    more, w := Then(cfg, more, w, Entered(window, false));
    var w2 := w;
    more, w := Then(cfg, more, w, Wrote(window, true));
    assert w == Written(w2, window, op, w0.store.profiles, true);
  }

  lemma AddWorks(cfg: Config, events: seq<Event>, window: nat, withToken: bool)
    requires Ready(cfg, Run(cfg, events), window, Add(withToken))
    ensures var w := Run(cfg, events);
            Achieved(cfg, w, window, Add(withToken), Run(cfg, events + Uninterrupted(w, window, Add(withToken))))
  {
    var w0, op := Run(cfg, events), Add(withToken);
    RunKeepsAsked(cfg, events);
    assert w0.store.created !in w0.bridge.retired;
    var more, w := AddIsListed(cfg, events, window, withToken);
    if withToken {
      more, w := Then(cfg, more, w, CallApplied(|w0.bridge.calls|));
      more, w := Then(cfg, more, w, Answered(window, true, false));
    }
    assert more == events + Uninterrupted(w0, window, op);
  }

  lemma CallWorks(cfg: Config, events: seq<Event>, window: nat, op: Op)
    returns (more: seq<Event>, w: World)
    requires Ready(cfg, Run(cfg, events), window, op) && !op.Add?
    requires op.SaveToken? ==> op.id in Run(cfg, events).store.profiles
                               && !(cfg.refusing && op.id in Run(cfg, events).bridge.retired)
    ensures var w0 := Run(cfg, events);
            && more == events + [Started(window, op), Entered(window, false), CallApplied(|w0.bridge.calls|),
                                 Answered(window, true, false)]
            && w == Run(cfg, more) && w.store == w0.store
            && w.bridge.credentials == (if op.SaveToken? then w0.bridge.credentials + {op.id} else w0.bridge.credentials - {op.id})
            && (op.Remove? ==> op.id in w.bridge.retired)
            && w.tasks == w0.tasks[window := if op.Remove? then Writing(op, w0.store.profiles) else Idle]
            && (w0.lock == None ==> w.lock == None || (op.Remove? && w.lock == Some(window)))
  {
    var w0 := Run(cfg, events);
    more, w := Then(cfg, events, w0, Started(window, op));
    EnteringSends(cfg, w, window, false);
    more, w := Then(cfg, more, w, Entered(window, false));
    var c := |w0.bridge.calls|;
    ServingApplies(cfg, w.bridge, c);
    more, w := Then(cfg, more, w, CallApplied(c));
    more, w := Then(cfg, more, w, Answered(window, true, false));
  }

  /**
   * From every reachable state a mutation that nothing interrupts does what it is for: it lists the new
   * profile, stores or drops exactly that token, or removes exactly that profile with its token.
   */
  lemma OperationsWork(cfg: Config, events: seq<Event>, window: nat, op: Op)
    requires Ready(cfg, Run(cfg, events), window, op)
    requires op.SaveToken? ==> op.id in Run(cfg, events).store.profiles
                               && !(cfg.refusing && op.id in Run(cfg, events).bridge.retired)
    ensures var w := Run(cfg, events);
            Achieved(cfg, w, window, op, Run(cfg, events + Uninterrupted(w, window, op)))
  {
    var w0 := Run(cfg, events);
    if op.Add? {
      AddWorks(cfg, events, window, op.withToken);
    } else {
      var more, w := CallWorks(cfg, events, window, op);
      if op.Remove? {
        more, w := Then(cfg, more, w, Wrote(window, true));
      }
      assert more == events + Uninterrupted(w0, window, op);
    }
  }

  // ---- The windows, with the state they share ----

  class Windows {
    const cfg: Config
    var store: Store
    var bridge: Bridge
    var lock: Option<nat>
    var tasks: map<nat, Task>

    ghost function View(): World
      reads this
    {
      World(store, bridge, lock, tasks)
    }

    constructor (cfg: Config)
      ensures this.cfg == cfg && View() == Run(cfg, [])
    {
      this.cfg := cfg;
      store, bridge, lock, tasks := Store({}, 0), Bridge({}, {}, []), None, map[];
    }

    /** A click: the busy flag goes up before anything is awaited. */
    method Start(window: nat, op: Op)
      requires Enabled(cfg, View(), Started(window, op))
      modifies this
      ensures View() == Step(cfg, old(View()), Started(window, op))
    {
      tasks := tasks[window := Queued(op)];
    }

    method SendCall(window: nat, op: Op, request: Request)
      modifies this
      ensures View() == Send(old(View()), window, op, request)
    {
      tasks := tasks[window := Awaiting(op, |bridge.calls|)];
      bridge := bridge.(calls := bridge.calls + [Call(request, Pending)]);
    }

    /** The `finally` of a mutation: the lock and the busy flag go. */
    method Settle(window: nat)
      modifies this
      ensures View() == Finish(old(View()), window)
    {
      tasks := tasks[window := Idle];
      if lock == Some(window) {
        lock := None;
      }
    }

    /** Reads the stored list, to write it back changed. */
    method ReadList(window: nat, op: Op, readFails: bool)
      modifies this
      ensures View() == Read(old(View()), window, op, readFails)
    {
      var listed := if readFails then {} else store.profiles;
      tasks := tasks[window := Writing(op, listed)];
    }

    /** `createConnectionProfile` and `removeConnectionProfile` from their write on. */
    method WriteList(window: nat, wrote: bool)
      requires Enabled(cfg, View(), Wrote(window, wrote))
      modifies this
      ensures View() == Step(cfg, old(View()), Wrote(window, wrote))
    {
      var op, listed := tasks[window].op, tasks[window].listed;
      if wrote && op.Remove? {
        store := store.(profiles := listed - {op.id});
      }
      if wrote && op.Add? {
        var id := store.created;
        store := Store(listed + {id}, id + 1);
        if op.withToken {
          SendCall(window, op, SetCredential(id));
          return;
        }
      }
      Settle(window);
    }

    method SaveTokenBody(window: nat, id: nat, readFails: bool)
      modifies this
      ensures View() == Body(old(View()), window, SaveToken(id), readFails)
    {
      if id !in Listed(store, readFails) {
        Settle(window);
        return;
      }
      SendCall(window, SaveToken(id), SetCredential(id));
    }

    method Enter(window: nat, readFails: bool)
      requires Enabled(cfg, View(), Entered(window, readFails))
      modifies this
      ensures View() == Step(cfg, old(View()), Entered(window, readFails))
    {
      lock := if cfg.locking then Some(window) else None;
      match tasks[window].op {
        case Add(withToken) => ReadList(window, Add(withToken), readFails);
        case SaveToken(id) => SaveTokenBody(window, id, readFails);
        case ClearToken(id) => SendCall(window, ClearToken(id), ClearCredential(id));
        case Remove(id) => SendCall(window, Remove(id), Retire(id));
      }
    }

    /** The shell stores a token only as asked and never for an id it refuses, and drops one only as asked. */
    method ServeCall(c: nat)
      requires Enabled(cfg, View(), CallApplied(c))
      modifies this`bridge
      ensures View() == Step(cfg, old(View()), CallApplied(c))
      ensures forall id | id in bridge.credentials && id !in old(bridge.credentials) ::
                old(bridge.calls[c].request) == SetCredential(id) && !(cfg.refusing && id in old(bridge.retired))
      ensures forall id | id in old(bridge.credentials) && id !in bridge.credentials ::
                old(bridge.calls[c].request) == ClearCredential(id) || old(bridge.calls[c].request) == Retire(id)
      ensures cfg.refusing && old(bridge.credentials !! bridge.retired) ==> bridge.credentials !! bridge.retired
    {
      var request := bridge.calls[c].request;
      var progress := Applied;
      if request.Retire? {
        bridge := bridge.(retired := bridge.retired + {request.id});
      }
      if request.SetCredential? {
        if cfg.refusing && request.id in bridge.retired {
          progress := Refused;
        } else {
          bridge := bridge.(credentials := bridge.credentials + {request.id});
        }
      } else {
        bridge := bridge.(credentials := bridge.credentials - {request.id});
      }
      bridge := bridge.(calls := bridge.calls[c := bridge.calls[c].(progress := progress)]);
    }

    method DropCall(c: nat)
      requires Enabled(cfg, View(), CallDropped(c))
      modifies this
      ensures View() == Step(cfg, old(View()), CallDropped(c))
    {
      bridge := bridge.(calls := bridge.calls[c := bridge.calls[c].(progress := Dropped)]);
    }

    /** Removal goes on to the stored list only after the credential was retired. */
    method Answer(window: nat, ok: bool, readFails: bool)
      requires Enabled(cfg, View(), Answered(window, ok, readFails))
      modifies this
      ensures View() == Step(cfg, old(View()), Answered(window, ok, readFails))
    {
      var op := tasks[window].op;
      if op.Remove? && ok {
        ReadList(window, op, readFails);
        return;
      }
      Settle(window);
    }

    method Close(window: nat)
      requires Enabled(cfg, View(), WindowClosed(window))
      modifies this
      ensures View() == Step(cfg, old(View()), WindowClosed(window))
    {
      Settle(window);
    }

    /** Every event is one step of the protocol. */
    method Handle(e: Event)
      requires Enabled(cfg, View(), e)
      modifies this
      ensures View() == Step(cfg, old(View()), e)
    {
      match e
      case Started(i, op) => Start(i, op);
      case Entered(i, readFails) => Enter(i, readFails);
      case Wrote(i, wrote) => WriteList(i, wrote);
      case CallApplied(c) => ServeCall(c);
      case CallDropped(c) => DropCall(c);
      case Answered(i, ok, readFails) => Answer(i, ok, readFails);
      case WindowClosed(i) => Close(i);
    }
  }
}
