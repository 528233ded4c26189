/**
 * The throttled screen-reader announcements of a preview (packages/app/src/AppPreviewSurface.tsx).
 * Live frames are announced at most every two seconds; anything else at once.
 *
 * A timer never fires early; `late` bounds how long after its due time it may still fire.
 */
module PreviewAnnouncer {
  import opened Prelude

  const INTERVAL_MS: nat := 2000

  /** The component's variables. `due` is when the frame timer fires, if it is set. */
  datatype Vars = Vars(announced: Option<string>, pending: Option<string>, due: Option<nat>, lastAt: nat, revision: nat)

  datatype Announcement = Announcement(key: string, at: nat, liveFrame: bool)

  /** What is previewed now, since when, and what was announced. */
  datatype Env = Env(key: Option<string>, ready: bool, since: nat, now: nat, mounted: bool, log: seq<Announcement>)

  datatype State = State(vars: Vars, env: Env)

  datatype Event =
    | SurfaceChanged(key: Option<string>, ready: bool)
    | TimerFired
    | TimePassed(ms: nat)
    | Unmounted

  predicate IsFrame(key: string) {
    "frame:" <= key
  }

  // ---- The component's own functions, on values ----

  function Announced(s: State, key: string, liveFrame: bool): State {
    State(s.vars.(announced := Some(key),
                  pending := None,
                  lastAt := if liveFrame then s.env.now else s.vars.lastAt,
                  revision := s.vars.revision + 1),
          s.env.(log := s.env.log + [Announcement(key, s.env.now, liveFrame)]))
  }

  function Delay(s: State): nat {
    Max(0, INTERVAL_MS - (s.env.now - s.vars.lastAt))
  }

  function EffectRun(s: State): State {
    if s.env.key == None || !s.env.ready || s.env.key == s.vars.announced || s.env.key == s.vars.pending then s else
    var key := s.env.key.value;
    if !IsFrame(key) then Announced(s.(vars := s.vars.(due := None, pending := None)), key, false)
    else if Delay(s) == 0 then Announced(s.(vars := s.vars.(due := None)), key, true)
    else s.(vars := s.vars.(pending := Some(key),
                            due := if s.vars.due.Some? then s.vars.due else Some(s.env.now + Delay(s))))
  }

  function TimerRun(s: State): State {
    var t := s.(vars := s.vars.(due := None, pending := None));
    if s.vars.pending.Some? && s.env.key == s.vars.pending && s.env.ready
    then Announced(t, s.vars.pending.value, true)
    else t
  }

  // ---- One atomic step ----

  predicate Enabled(late: nat, s: State, e: Event) {
    match e
    case SurfaceChanged(_, _) => s.env.mounted
    case TimerFired => s.vars.due.Some? && s.vars.due.value <= s.env.now
    case TimePassed(ms) => s.vars.due.Some? ==> s.env.now + ms <= s.vars.due.value + late
    case Unmounted => s.env.mounted
  }

  function Step(late: nat, s: State, e: Event): State {
    if !Enabled(late, s, e) then s else
    match e
    case SurfaceChanged(key, ready) =>
      var same := key == s.env.key && ready == s.env.ready;
      EffectRun(s.(env := s.env.(key := key, ready := ready, since := if same then s.env.since else s.env.now)))
    case TimerFired => TimerRun(s)
    case TimePassed(ms) => s.(env := s.env.(now := s.env.now + ms))
    case Unmounted => s.(vars := s.vars.(due := None), env := s.env.(mounted := false))
  }

  /** Mounted at time `now` with nothing to preview yet. */
  function Mounted(now: nat): State {
    State(Vars(None, None, None, 0, 0), Env(None, false, now, now, true, []))
  }

  function Run(late: nat, now: nat, events: seq<Event>): State {
    if events == [] then Mounted(now) else Step(late, Run(late, now, events[..|events| - 1]), events[|events| - 1])
  }

  // ---- What is true of every reachable state ----

  /** Live frames are spaced out, and two announcements in a row are of different previews. */
  ghost predicate Spaced(log: seq<Announcement>) {
    && (forall i, j :: 0 <= i < j < |log| && log[i].liveFrame && log[j].liveFrame ==> log[j].at - log[i].at >= INTERVAL_MS)
    && (forall i :: 0 < i < |log| ==> log[i].key != log[i - 1].key)
  }

  ghost predicate LogInv(s: State) {
    && Spaced(s.env.log)
    && s.vars.revision == |s.env.log|
    && s.vars.announced == (if s.env.log == [] then None else Some(s.env.log[|s.env.log| - 1].key))
    && s.vars.lastAt <= s.env.now
    && (forall i :: 0 <= i < |s.env.log| && s.env.log[i].liveFrame ==> s.env.log[i].at <= s.vars.lastAt)
  }

  ghost predicate TimerInv(late: nat, s: State) {
    && (s.env.mounted ==> (s.vars.pending.Some? <==> s.vars.due.Some?))
    && (!s.env.mounted ==> s.vars.due == None)
    && (s.vars.due.Some? ==> s.vars.due.value == s.vars.lastAt + INTERVAL_MS && s.env.now <= s.vars.due.value + late)
    && (s.vars.pending.Some? ==> s.vars.pending != s.vars.announced && IsFrame(s.vars.pending.value))
  }

  /** A ready preview that has not been announced is the pending frame. */
  ghost predicate CurrentInv(s: State) {
    && s.env.since <= s.env.now
    && (s.env.mounted && s.env.ready && s.env.key.Some? && s.env.key != s.vars.announced ==>
          s.vars.pending == s.env.key && s.vars.lastAt <= s.env.since)
  }

  ghost predicate Inv(late: nat, s: State) {
    LogInv(s) && TimerInv(late, s) && CurrentInv(s)
  }

  lemma AnnouncedKeepsLog(s: State, key: string, liveFrame: bool)
    requires LogInv(s) && s.vars.announced != Some(key)
    requires liveFrame && (exists a :: a in s.env.log && a.liveFrame) ==> s.env.now - s.vars.lastAt >= INTERVAL_MS
    ensures LogInv(Announced(s, key, liveFrame))
  {
    var t := Announced(s, key, liveFrame);
    forall i, j | 0 <= i < j < |t.env.log| && t.env.log[i].liveFrame && t.env.log[j].liveFrame
      ensures t.env.log[j].at - t.env.log[i].at >= INTERVAL_MS
    {
      assert t.env.log[i] == s.env.log[i];
      assert s.env.log[i] in s.env.log;
    }
  }

  lemma EffectKeepsInv(late: nat, s: State)
    requires LogInv(s) && TimerInv(late, s) && s.env.mounted && s.env.since == s.env.now
    ensures Inv(late, EffectRun(s))
  {
    var key := s.env.key;
    if !(key == None || !s.env.ready || key == s.vars.announced || key == s.vars.pending) {
      if !IsFrame(key.value) {
        AnnouncedKeepsLog(s.(vars := s.vars.(due := None, pending := None)), key.value, false);
      } else if Delay(s) == 0 {
        AnnouncedKeepsLog(s.(vars := s.vars.(due := None)), key.value, true);
      }
    }
  }

  lemma StepKeepsInv(late: nat, s: State, e: Event)
    requires Inv(late, s)
    ensures Inv(late, Step(late, s, e))
  {
    if Enabled(late, s, e) {
      match e
      case SurfaceChanged(key, ready) =>
        if !(key == s.env.key && ready == s.env.ready) {
          EffectKeepsInv(late, s.(env := s.env.(key := key, ready := ready, since := s.env.now)));
        } else {
          // Run again on the same surface, the effect does nothing.
          assert EffectRun(s) == s;
        }
      case TimerFired =>
        if s.vars.pending.Some? && s.env.key == s.vars.pending && s.env.ready {
          AnnouncedKeepsLog(s.(vars := s.vars.(due := None, pending := None)), s.vars.pending.value, true);
        }
      case TimePassed(ms) =>
      case Unmounted =>
    }
  }

  lemma {:induction false} RunKeepsInv(late: nat, now: nat, events: seq<Event>)
    ensures Inv(late, Run(late, now, events))
  {
    if events != [] {
      RunKeepsInv(late, now, events[..|events| - 1]);
      StepKeepsInv(late, Run(late, now, events[..|events| - 1]), events[|events| - 1]);
    }
  }

  // ---- Main results, over every run ----

  /** Live frames never come less than two seconds apart, and no preview is announced twice in a row. */
  lemma {:induction false} AnnouncementsAreSpaced(late: nat, now: nat, events: seq<Event>)
    ensures Spaced(Run(late, now, events).env.log)
    ensures Run(late, now, events).vars.revision == |Run(late, now, events).env.log|
  {
    RunKeepsInv(late, now, events);
  }

  /**
   * A preview that is ready and stays current is announced: at once if it is not a live frame,
   * otherwise within two seconds (plus the timer's lateness). Until then it is the pending one.
   */
  lemma {:induction false} ReadyPreviewIsAnnouncedInTime(late: nat, now: nat, events: seq<Event>)
    ensures var s := Run(late, now, events);
            s.env.mounted && s.env.ready && s.env.key.Some? ==>
              || (s.env.log != [] && s.env.log[|s.env.log| - 1].key == s.env.key.value)
              || (IsFrame(s.env.key.value) && s.vars.pending == s.env.key && s.vars.due.Some?
                  && s.env.now <= s.env.since + INTERVAL_MS + late)
  {
    RunKeepsInv(late, now, events);
  }

  /** A key is pending exactly while the timer is set. */
  lemma {:induction false} PendingExactlyWithTimer(late: nat, now: nat, events: seq<Event>)
    ensures var s := Run(late, now, events);
            s.env.mounted ==> (s.vars.pending.Some? <==> s.vars.due.Some?)
  {
    RunKeepsInv(late, now, events);
  }

  /** Only what was ready and current is announced, at the moment of the announcement. */
  lemma {:induction false} OnlyCurrentIsAnnounced(late: nat, now: nat, events: seq<Event>, e: Event)
    ensures var s, t := Run(late, now, events), Run(late, now, events + [e]);
            t.env.log == s.env.log ||
            (t.env.ready && t.env.key.Some? && t.env.log ==
               s.env.log + [Announcement(t.env.key.value, t.env.now, IsFrame(t.env.key.value))])
  {
    assert (events + [e])[..|events + [e]| - 1] == events;
    RunKeepsInv(late, now, events);
  }

  /** What is announced now, once. */
  ghost predicate AnnouncesNow(v: Vars, log: seq<Announcement>, t: State, key: string, liveFrame: bool) {
    && t.env.log == log + [Announcement(key, t.env.now, liveFrame)]
    && t.vars.announced == Some(key) && t.vars.pending == None && t.vars.due == None
    && t.vars.lastAt == if liveFrame then t.env.now else v.lastAt
  }

  /**
   * What there is to announce is announced at once, unless it is a live frame less than two seconds after
   * the last one: that waits until those are over. Otherwise nothing is announced.
   */
  ghost predicate AnnouncesSurface(v: Vars, log: seq<Announcement>, t: State) {
    var key := t.env.key;
    if key.None? || !t.env.ready || key == v.announced || key == v.pending then t.vars == v && t.env.log == log
    else if !("frame:" <= key.value) || t.env.now >= v.lastAt + INTERVAL_MS then
      AnnouncesNow(v, log, t, key.value, "frame:" <= key.value)
    else
      && t.env.log == log && t.vars.announced == v.announced
      && t.vars.pending == key && t.vars.due == Some(v.lastAt + INTERVAL_MS)
  }

  lemma EffectAnnounces(late: nat, s: State)
    requires TimerInv(late, s) && s.vars.lastAt <= s.env.now && s.env.mounted
    ensures EffectRun(s).env == s.env.(log := EffectRun(s).env.log)
    ensures AnnouncesSurface(s.vars, s.env.log, EffectRun(s))
  {
  }

  /** Every surface is announced in that way when it comes. */
  lemma SurfaceIsAnnounced(late: nat, now: nat, events: seq<Event>, key: Option<string>, ready: bool)
    requires Run(late, now, events).env.mounted
    ensures var s, t := Run(late, now, events), Run(late, now, events + [SurfaceChanged(key, ready)]);
            && t.env.key == key && t.env.ready == ready && t.env.now == s.env.now && t.env.mounted
            && AnnouncesSurface(s.vars, s.env.log, t)
  {
    var s, e := Run(late, now, events), SurfaceChanged(key, ready);
    RunKeepsInv(late, now, events);
    assert (events + [e])[..|events + [e]| - 1] == events;
    var same := key == s.env.key && ready == s.env.ready;
    var seen := s.(env := s.env.(key := key, ready := ready, since := if same then s.env.since else s.env.now));
    EffectAnnounces(late, seen);
    assert Run(late, now, events + [e]) == EffectRun(seen);
  }

  /** The due timer announces the pending frame if it is still what is shown; either way nothing is pending then. */
  lemma TimerAnnounces(late: nat, now: nat, events: seq<Event>)
    requires Enabled(late, Run(late, now, events), TimerFired)
    ensures var s, t := Run(late, now, events), Run(late, now, events + [TimerFired]);
            && t.vars.due == None && t.vars.pending == None && t.env == s.env.(log := t.env.log)
            && s.vars.pending.Some?
            && if s.env.key == s.vars.pending && s.env.ready then AnnouncesNow(s.vars, s.env.log, t, s.vars.pending.value, true)
               else t.env.log == s.env.log && t.vars.announced == s.vars.announced
  {
    RunKeepsInv(late, now, events);
    assert (events + [TimerFired])[..|events + [TimerFired]| - 1] == events;
  }

  /** Once unmounted nothing more is announced; time passes without changing anything else. */
  lemma {:induction false} SilentOnceUnmounted(late: nat, now: nat, events: seq<Event>, more: seq<Event>)
    requires Unmounted in events
    ensures var s := Run(late, now, events + more);
            !s.env.mounted && s.vars.due == None && s.env.log == Run(late, now, events).env.log
  {
    RunKeepsInv(late, now, events);
    UnmountedStays(late, now, events);
    if more == [] {
      assert events + more == events;
    } else {
      var init := more[..|more| - 1];
      SilentOnceUnmounted(late, now, events, init);
      assert (events + more)[..|events + more| - 1] == events + init;
      RunKeepsInv(late, now, events + init);
    }
  }

  lemma {:induction false} UnmountedStays(late: nat, now: nat, events: seq<Event>)
    requires Unmounted in events
    ensures !Run(late, now, events).env.mounted
  {
    var init, last := events[..|events| - 1], events[|events| - 1];
    assert events == init + [last];
    if last != Unmounted {
      UnmountedStays(late, now, init);
    }
  }

  lemma TimePasses(late: nat, s: State, ms: nat)
    requires Enabled(late, s, TimePassed(ms))
    ensures Step(late, s, TimePassed(ms)) == s.(env := s.env.(now := s.env.now + ms))
  {
  }

  // ---- The component, with its own variables ----

  class Announcer {
    var announcedSourceKey: Option<string>
    var pendingFrameSourceKey: Option<string>
    var frameTimer: Option<nat>
    var lastFrameAnnouncementAt: nat
    var revision: nat
    ghost var env: Env

    ghost function View(): State
      reads this
    {
      State(Vars(announcedSourceKey, pendingFrameSourceKey, frameTimer, lastFrameAnnouncementAt, revision), env)
    }

    constructor (ghost now: nat)
      ensures View() == Mounted(now)
    {
      announcedSourceKey, pendingFrameSourceKey, frameTimer := None, None, None;
      lastFrameAnnouncementAt, revision := 0, 0;
      env := Env(None, false, now, now, true, []);
    }

    method ClearFrameTimer()
      modifies this`frameTimer
      ensures frameTimer == None
    {
      if frameTimer == None {
        return;
      }
      frameTimer := None;
    }

    method Announce(sourceKey: string, liveFrame: bool, now: nat)
      requires now == env.now
      modifies this
      ensures View() == Announced(old(View()), sourceKey, liveFrame)
    {
      announcedSourceKey := Some(sourceKey);
      pendingFrameSourceKey := None;
      if liveFrame {
        lastFrameAnnouncementAt := now;
      }
      revision := revision + 1;
      env := env.(log := env.log + [Announcement(sourceKey, now, liveFrame)]);
    }

    /** The effect, with the surface's source key and readiness and the clock it reads. */
    method Effect(sourceKey: Option<string>, previewReady: bool, now: nat)
      requires sourceKey == env.key && previewReady == env.ready && now == env.now
      modifies this
      ensures View() == EffectRun(old(View()))
    {
      if sourceKey == None || !previewReady || sourceKey == announcedSourceKey || sourceKey == pendingFrameSourceKey {
        return;
      }
      if !IsFrame(sourceKey.value) {
        ClearFrameTimer();
        pendingFrameSourceKey := None;
        Announce(sourceKey.value, false, now);
        return;
      }
      var delay := Max(0, INTERVAL_MS - (now - lastFrameAnnouncementAt));
      if delay == 0 {
        ClearFrameTimer();
        Announce(sourceKey.value, true, now);
        return;
      }
      pendingFrameSourceKey := sourceKey;
      if frameTimer.Some? {
        return;
      }
      frameTimer := Some(now + delay);
    }

    method TimerFires(sourceKey: Option<string>, previewReady: bool, now: nat)
      requires sourceKey == env.key && previewReady == env.ready && now == env.now
      modifies this
      ensures View() == TimerRun(old(View()))
    {
      frameTimer := None;
      var pending := pendingFrameSourceKey;
      pendingFrameSourceKey := None;
      if pending.Some? && sourceKey == pending && previewReady {
        Announce(pending.value, true, now);
      }
    }

    /**
     * Every event is one step of the protocol and keeps what is true of every reachable state.
     * `sourceKey` and `previewReady` are the surface after the event, `now` is the clock.
     */
    method Handle(ghost late: nat, e: Event, sourceKey: Option<string>, previewReady: bool, now: nat)
      requires Inv(late, View()) && Enabled(late, View(), e) && now == env.now
      requires if e.SurfaceChanged? then sourceKey == e.key && previewReady == e.ready
               else sourceKey == env.key && previewReady == env.ready
      modifies this
      ensures View() == Step(late, old(View()), e) && Inv(late, View())
    {
      StepKeepsInv(late, View(), e);
      match e
      case SurfaceChanged(_, _) =>
        ghost var same := sourceKey == env.key && previewReady == env.ready;
        env := env.(key := sourceKey, ready := previewReady, since := if same then env.since else env.now);
        Effect(sourceKey, previewReady, now);
      case TimerFired => TimerFires(sourceKey, previewReady, now);
      case TimePassed(ms) => env := env.(now := env.now + ms);
      case Unmounted =>
        ClearFrameTimer();
        env := env.(mounted := false);
    }
  }
}
