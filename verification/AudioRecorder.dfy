/**
 * Microphone recording (packages/app/src/AudioRecorder.tsx): the life of every opened stream
 * and of the bytes that end up in a saved clip, over all interleavings of clicks, permission
 * replies, timers, recorder callbacks, upload replies and unmounting.
 *
 * A recorder delivers data until it fires `stop`, and nothing afterwards. A timer never fires
 * early; `late` bounds how long after its due time it may still fire.
 */
module AudioRecorder {
  import opened Prelude

  const MAX_BYTES: nat := 32 * 1024 * 1024
  const PERMISSION_MS: nat := 30_000

  datatype Phase = Idle | Permission | Recording | Ready | Saving

  datatype Timer = NoTimer | PermissionTimer(due: nat) | LimitTimer(due: nat)

  datatype Clip = Clip(data: seq<byte>)

  /** A media recorder with what its callbacks captured. */
  datatype Take = Take(gen: nat, stream: nat, running: bool, chunks: seq<seq<byte>>, bytes: nat)

  /** A microphone stream that the browser opened for us. */
  datatype Mic = Mic(openedAt: nat, stopped: bool)

  /** The environment: the clock, unanswered permission requests, and what recorders delivered. */
  datatype Env = Env(
    now: nat,
    opening: set<nat>,
    mics: seq<Mic>,
    delivered: seq<seq<seq<byte>>>,
    ended: set<nat>,
    saves: seq<Clip>,
    uploading: bool)

  datatype Recorder = Recorder(
    generation: nat,
    stream: Option<nat>,
    recorder: Option<nat>,
    timer: Timer,
    clip: Option<Clip>,
    phase: Phase,
    live: bool,
    limit: nat,
    takes: seq<Take>,
    env: Env)

  datatype Event =
    | RecordClicked
    | Granted(gen: nat, constructs: bool, starts: bool)
    | Denied(gen: nat)
    | TimerFired
    | Data(take: nat, chunk: seq<byte>)
    | TakeFailed(take: nat)
    | TakeEnded(take: nat)
    | StopClicked
    | DiscardClicked
    | SaveClicked
    | SaveAnswered(saved: bool)
    | LimitSet(seconds: int)
    | Unmounted
    | TimePassed(ms: nat)

  // ---- The component's own functions, on values ----

  function MicStopped(env: Env, m: nat): Env {
    if m < |env.mics| then env.(mics := env.mics[m := env.mics[m].(stopped := true)]) else env
  }

  function Released(s: Recorder): Recorder {
    s.(timer := NoTimer,
       stream := None,
       env := if s.stream.Some? then MicStopped(s.env, s.stream.value) else s.env)
  }

  function RecorderStopped(s: Recorder): Recorder {
    if s.recorder.Some? && s.recorder.value < |s.takes|
    then s.(takes := s.takes[s.recorder.value := s.takes[s.recorder.value].(running := false)])
    else s
  }

  function Cancelled(s: Recorder): Recorder {
    Released(RecorderStopped(s.(generation := s.generation + 1))).(recorder := None, clip := None, phase := Idle)
  }

  function Stopped(s: Recorder): Recorder {
    Released(RecorderStopped(s))
  }

  function RecordStarted(s: Recorder): Recorder {
    var request := s.generation + 1;
    s.(generation := request,
       clip := None,
       phase := Permission,
       timer := PermissionTimer(s.env.now + PERMISSION_MS),
       env := s.env.(opening := s.env.opening + {request}))
  }

  /** The permission reply. A stream nobody waits for any more is stopped at once. */
  function Opened(s: Recorder, gen: nat, constructs: bool, starts: bool): Recorder {
    var stale := !s.live || s.generation != gen;
    var mic := |s.env.mics|;
    var env := s.env.(opening := s.env.opening - {gen}, mics := s.env.mics + [Mic(s.env.now, stale)]);
    if stale then s.(env := env) else
    var granted := s.(timer := NoTimer, stream := Some(mic), env := env);
    if !constructs then Released(granted).(phase := Idle) else
    var take := |s.takes|;
    var made := granted.(
      recorder := Some(take),
      takes := s.takes + [Take(gen, mic, starts, [], 0)],
      env := env.(delivered := env.delivered + [[]], ended := if starts then env.ended else env.ended + {take}));
    if !starts then Released(made).(phase := Idle) else
    made.(phase := Recording, timer := LimitTimer(s.env.now + s.limit * 1000))
  }

  function OpenFailed(s: Recorder, gen: nat): Recorder {
    var answered := s.(env := s.env.(opening := s.env.opening - {gen}));
    if !s.live || s.generation != gen then answered else Released(answered).(phase := Idle)
  }

  function DataArrived(s: Recorder, take: nat, chunk: seq<byte>): Recorder
    requires take < |s.takes| && take < |s.env.delivered|
  {
    var heard := s.(env := s.env.(delivered := s.env.delivered[take := s.env.delivered[take] + [chunk]]));
    var t := s.takes[take];
    if s.generation != t.gen then heard else
    var counted := heard.(takes := s.takes[take := t.(bytes := t.bytes + |chunk|)]);
    if t.bytes + |chunk| > MAX_BYTES then Cancelled(counted) else
    heard.(takes := s.takes[take := t.(bytes := t.bytes + |chunk|,
                                       chunks := if chunk != [] then t.chunks + [chunk] else t.chunks)])
  }

  function Ended(s: Recorder, take: nat): Recorder
    requires take < |s.takes|
  {
    var t := s.takes[take];
    var over := s.(takes := s.takes[take := t.(running := false)], env := s.env.(ended := s.env.ended + {take}));
    if !s.live || s.generation != t.gen then over
    else if t.bytes == 0 then Released(over).(phase := Idle)
    else Released(over).(clip := Some(Clip(Flatten(t.chunks))), phase := Ready)
  }

  function SaveStarted(s: Recorder): Recorder {
    if s.clip == None then s
    else s.(phase := Saving, env := s.env.(saves := s.env.saves + [s.clip.value], uploading := true))
  }

  function SaveSettled(s: Recorder, saved: bool): Recorder {
    var answered := s.(env := s.env.(uploading := false));
    if !s.live then answered
    else if saved then answered.(phase := Idle, clip := None)
    else answered.(phase := Ready)
  }

  function LimitOf(seconds: int): nat {
    Max(1, Min(300, if seconds == 0 then 60 else seconds))
  }

  // ---- One atomic step ----

  predicate Enabled(late: nat, s: Recorder, e: Event) {
    match e
    case RecordClicked => s.live && s.phase == Idle
    case Granted(gen, _, _) => gen in s.env.opening
    case Denied(gen) => gen in s.env.opening
    case TimerFired => s.timer != NoTimer && s.timer.due <= s.env.now
    case Data(take, _) => take < |s.takes| && take < |s.env.delivered| && take !in s.env.ended
    case TakeFailed(take) => take < |s.takes| && take !in s.env.ended
    case TakeEnded(take) => take < |s.takes| && take !in s.env.ended
    case StopClicked => s.live && s.phase == Recording
    case DiscardClicked => s.live && s.phase != Idle && s.phase != Saving
    case SaveClicked => s.live && s.phase == Ready
    case SaveAnswered(_) => s.env.uploading
    case LimitSet(_) => s.live && s.phase == Idle
    case Unmounted => s.live
    case TimePassed(ms) => s.timer != NoTimer ==> s.env.now + ms <= s.timer.due + late
  }

  function Step(late: nat, s: Recorder, e: Event): Recorder {
    if !Enabled(late, s, e) then s else
    match e
    case RecordClicked => RecordStarted(s)
    case Granted(gen, constructs, starts) => Opened(s, gen, constructs, starts)
    case Denied(gen) => OpenFailed(s, gen)
    case TimerFired => if s.timer.PermissionTimer? then Cancelled(s) else Stopped(s)
    case Data(take, chunk) => DataArrived(s, take, chunk)
    case TakeFailed(take) => if s.generation != s.takes[take].gen then s else Cancelled(s)
    case TakeEnded(take) => Ended(s, take)
    case StopClicked => Stopped(s)
    case DiscardClicked => Cancelled(s)
    case SaveClicked => SaveStarted(s)
    case SaveAnswered(saved) => SaveSettled(s, saved)
    case LimitSet(seconds) => s.(limit := LimitOf(seconds))
    case Unmounted => Cancelled(s.(live := false))
    case TimePassed(ms) => s.(env := s.env.(now := s.env.now + ms))
  }

  const INITIAL := Recorder(0, None, None, NoTimer, None, Idle, true, 60, [], Env(0, {}, [], [], {}, [], false))

  function Run(late: nat, events: seq<Event>): Recorder {
    if events == [] then INITIAL else Step(late, Run(late, events[..|events| - 1]), events[|events| - 1])
  }

  // ---- What is true of every reachable recorder ----

  /** The newest recorder belongs to the current generation. */
  ghost predicate Current(s: Recorder) {
    s.takes != [] && s.takes[|s.takes| - 1].gen == s.generation
  }

  ghost predicate GenInv(s: Recorder) {
    && |s.env.delivered| == |s.takes|
    && (forall t | 0 <= t < |s.takes| :: s.takes[t].gen <= s.generation)
    && (forall t | 0 <= t < |s.takes| - 1 :: s.takes[t].gen < s.generation)
    && (forall g | g in s.env.opening :: g <= s.generation)
    && (forall t | t in s.env.ended :: t < |s.takes|)
  }

  /** Only the stream in hand is open. */
  ghost predicate MicInv(s: Recorder) {
    && (forall m | 0 <= m < |s.env.mics| :: !s.env.mics[m].stopped ==> s.stream == Some(m))
    && (s.stream.Some? ==> s.stream.value < |s.env.mics|)
  }

  ghost predicate TimerInv(late: nat, s: Recorder) {
    && 1 <= s.limit <= 300
    && (s.timer != NoTimer ==> s.env.now <= s.timer.due + late)
    && (s.timer.PermissionTimer? <==> s.phase == Permission)
    && (s.timer.LimitTimer? <==> s.stream.Some?)
    && (s.stream.Some? && s.stream.value < |s.env.mics| ==>
          s.timer == LimitTimer(s.env.mics[s.stream.value].openedAt + s.limit * 1000))
  }

  /** What the current recorder's callbacks hold is what it delivered. */
  ghost predicate TakeInv(s: Recorder) {
    Current(s) && |s.env.delivered| == |s.takes| ==>
      var t := s.takes[|s.takes| - 1];
      var heard := Flatten(s.env.delivered[|s.takes| - 1]);
      Flatten(t.chunks) == heard && t.bytes == |heard| && t.bytes <= MAX_BYTES
  }

  ghost predicate PhaseInv(s: Recorder) {
    && (s.phase != Idle ==> s.live)
    && (s.stream.Some? ==> s.phase == Recording)
    && (s.generation in s.env.opening ==> s.phase == Permission)
    && (s.phase == Recording ==>
          Current(s) && |s.takes| - 1 !in s.env.ended && s.recorder == Some(|s.takes| - 1))
    && (s.phase == Permission ==> s.generation in s.env.opening && !Current(s))
    && (s.phase != Recording && Current(s) ==> |s.takes| - 1 in s.env.ended)
    && (s.phase == Ready || s.phase == Saving ==>
          Current(s) && s.clip.Some? && ClipOf(s.env, |s.takes| - 1, s.clip.value))
    && (s.phase != Ready && s.phase != Saving ==> s.clip == None)
    && (s.live ==> (s.env.uploading <==> s.phase == Saving))
  }

  /** `clip` is everything recorder `t` delivered, in order, and within the limits. */
  ghost predicate ClipOf(env: Env, t: int, clip: Clip) {
    && 0 <= t < |env.delivered|
    && t in env.ended
    && clip.data == Flatten(env.delivered[t])
    && 0 < |clip.data| <= MAX_BYTES
  }

  ghost predicate Recorded(env: Env, clip: Clip) {
    exists t :: ClipOf(env, t, clip)
  }

  ghost predicate SavesInv(s: Recorder) {
    forall clip | clip in s.env.saves :: Recorded(s.env, clip)
  }

  ghost predicate Inv(late: nat, s: Recorder) {
    GenInv(s) && MicInv(s) && TimerInv(late, s) && TakeInv(s) && PhaseInv(s) && SavesInv(s)
  }

  lemma {:induction false} FlattenOne<T>(xs: seq<seq<T>>, x: seq<T>)
    ensures Flatten(xs + [x]) == Flatten(xs) + x
    ensures x == [] ==> Flatten(xs + [x]) == Flatten(xs)
  {
    FlattenAppend(xs, x);
  }

  /** Deliveries to recorders that have not ended leave finished clips alone. */
  lemma RecordedStays(env: Env, env': Env, clip: Clip)
    requires Recorded(env, clip)
    requires env.ended <= env'.ended && |env.delivered| <= |env'.delivered|
    requires forall t: nat | t < |env.delivered| && t in env.ended :: env'.delivered[t] == env.delivered[t]
    ensures Recorded(env', clip)
  {
    var t :| ClipOf(env, t, clip);
    assert ClipOf(env', t, clip);
  }

  lemma SavesStay(s: Recorder, s': Recorder)
    requires SavesInv(s) && s'.env.saves == s.env.saves
    requires s.env.ended <= s'.env.ended && |s.env.delivered| <= |s'.env.delivered|
    requires forall t: nat | t < |s.env.delivered| && t in s.env.ended :: s'.env.delivered[t] == s.env.delivered[t]
    ensures SavesInv(s')
  {
    forall clip | clip in s'.env.saves
      ensures Recorded(s'.env, clip)
    {
      RecordedStays(s.env, s'.env, clip);
    }
  }

  lemma ReleasedFacts(s: Recorder)
    requires MicInv(s)
    ensures var r := Released(s);
            forall m | 0 <= m < |r.env.mics| :: r.env.mics[m].stopped
  {
  }

  lemma CancelledKeepsInv(late: nat, s: Recorder)
    requires GenInv(s) && MicInv(s) && SavesInv(s) && 1 <= s.limit <= 300 && (s.live ==> !s.env.uploading)
    ensures Inv(late, Cancelled(s))
  {
    var s' := Cancelled(s);
    ReleasedFacts(RecorderStopped(s.(generation := s.generation + 1)));
    SavesStay(s, s');
    assert GenInv(s');
  }

  lemma StoppedKeepsInv(late: nat, s: Recorder)
    requires Inv(late, s) && s.phase == Recording
    ensures Inv(late, Stopped(s))
  {
    var s' := Stopped(s);
    ReleasedFacts(RecorderStopped(s));
    SavesStay(s, s');
    assert GenInv(s') && TakeInv(s');
  }

  lemma StaleOpenKeepsInv(late: nat, s: Recorder, gen: nat, constructs: bool, starts: bool)
    requires Inv(late, s) && gen in s.env.opening && (!s.live || s.generation != gen)
    ensures Inv(late, Opened(s, gen, constructs, starts))
  {
    var s' := Opened(s, gen, constructs, starts);
    SavesStay(s, s');
    assert GenInv(s') && MicInv(s');
  }

  lemma BrokenOpenKeepsInv(late: nat, s: Recorder, gen: nat, constructs: bool, starts: bool)
    requires Inv(late, s) && gen in s.env.opening && s.live && s.generation == gen
    requires !constructs || !starts
    ensures Inv(late, Opened(s, gen, constructs, starts))
  {
    var s' := Opened(s, gen, constructs, starts);
    SavesStay(s, s');
    assert GenInv(s');
    assert MicInv(s');
    assert TakeInv(s');
  }

  lemma GoodOpenKeepsInv(late: nat, s: Recorder, gen: nat)
    requires Inv(late, s) && gen in s.env.opening && s.live && s.generation == gen
    ensures Inv(late, Opened(s, gen, true, true))
  {
    var s' := Opened(s, gen, true, true);
    SavesStay(s, s');
    assert GenInv(s');
    assert MicInv(s');
    assert TakeInv(s');
  }

  /** A chunk for the current recorder that fits is counted and kept. */
  lemma KeptDataKeepsInv(late: nat, s: Recorder, take: nat, chunk: seq<byte>)
    requires Inv(late, s) && Enabled(late, s, Data(take, chunk))
    requires s.generation == s.takes[take].gen && s.takes[take].bytes + |chunk| <= MAX_BYTES
    ensures Inv(late, DataArrived(s, take, chunk))
  {
    var s' := DataArrived(s, take, chunk);
    assert take == |s.takes| - 1;
    FlattenOne(s.env.delivered[take], chunk);
    FlattenOne(s.takes[take].chunks, chunk);
    SavesStay(s, s');
    assert GenInv(s');
    assert TakeInv(s');
  }

  /** A chunk for an abandoned recorder changes nothing that the component can see. */
  lemma IgnoredDataKeepsInv(late: nat, s: Recorder, take: nat, chunk: seq<byte>)
    requires Inv(late, s) && Enabled(late, s, Data(take, chunk))
    requires s.generation != s.takes[take].gen
    ensures Inv(late, DataArrived(s, take, chunk))
  {
    var s' := DataArrived(s, take, chunk);
    SavesStay(s, s');
    assert GenInv(s');
    assert TakeInv(s');
  }

  /** The chunk that breaks the limit is counted before the recording is given up. */
  ghost function Counted(s: Recorder, take: nat, chunk: seq<byte>): Recorder
    requires take < |s.takes| && take < |s.env.delivered|
  {
    s.(env := s.env.(delivered := s.env.delivered[take := s.env.delivered[take] + [chunk]]),
       takes := s.takes[take := s.takes[take].(bytes := s.takes[take].bytes + |chunk|)])
  }

  lemma CountedKeepsParts(late: nat, s: Recorder, take: nat, chunk: seq<byte>)
    requires Inv(late, s) && Enabled(late, s, Data(take, chunk))
    ensures take < |s.takes| && take < |s.env.delivered|
    ensures GenInv(Counted(s, take, chunk)) && MicInv(Counted(s, take, chunk)) && SavesInv(Counted(s, take, chunk))
  {
    SavesStay(s, Counted(s, take, chunk));
  }

  lemma ExcessDataKeepsInv(late: nat, s: Recorder, take: nat, chunk: seq<byte>)
    requires Inv(late, s) && Enabled(late, s, Data(take, chunk))
    requires s.generation == s.takes[take].gen && s.takes[take].bytes + |chunk| > MAX_BYTES
    ensures Inv(late, DataArrived(s, take, chunk))
  {
    CountedKeepsParts(late, s, take, chunk);
    CancelledKeepsInv(late, Counted(s, take, chunk));
  }

  lemma IgnoredEndKeepsInv(late: nat, s: Recorder, take: nat)
    requires Inv(late, s) && Enabled(late, s, TakeEnded(take))
    requires !s.live || s.generation != s.takes[take].gen
    ensures Inv(late, Ended(s, take))
  {
    var s' := Ended(s, take);
    SavesStay(s, s');
    assert GenInv(s') && TakeInv(s');
  }

  lemma EmptyEndKeepsInv(late: nat, s: Recorder, take: nat)
    requires Inv(late, s) && Enabled(late, s, TakeEnded(take))
    requires s.live && s.generation == s.takes[take].gen && s.takes[take].bytes == 0
    ensures Inv(late, Ended(s, take))
  {
    var s' := Ended(s, take);
    assert take == |s.takes| - 1;
    SavesStay(s, s');
    assert GenInv(s') && MicInv(s') && TakeInv(s');
  }

  lemma FullEndKeepsInv(late: nat, s: Recorder, take: nat)
    requires Inv(late, s) && Enabled(late, s, TakeEnded(take))
    requires s.live && s.generation == s.takes[take].gen && s.takes[take].bytes != 0
    ensures Inv(late, Ended(s, take))
  {
    var s' := Ended(s, take);
    assert take == |s.takes| - 1;
    SavesStay(s, s');
    assert GenInv(s') && MicInv(s') && TakeInv(s');
    assert ClipOf(s'.env, take, s'.clip.value);
  }

  lemma SaveKeepsInv(late: nat, s: Recorder)
    requires Inv(late, s) && Enabled(late, s, SaveClicked)
    ensures Inv(late, SaveStarted(s))
  {
    var s' := SaveStarted(s);
    assert ClipOf(s.env, |s.takes| - 1, s.clip.value);
    forall clip | clip in s'.env.saves
      ensures Recorded(s'.env, clip)
    {
      assert Recorded(s.env, clip);
      RecordedStays(s.env, s'.env, clip);
    }
  }

  lemma OpenKeepsInv(late: nat, s: Recorder, gen: nat, constructs: bool, starts: bool)
    requires Inv(late, s) && gen in s.env.opening
    ensures Inv(late, Opened(s, gen, constructs, starts))
  {
    if !s.live || s.generation != gen {
      StaleOpenKeepsInv(late, s, gen, constructs, starts);
    } else if constructs && starts {
      GoodOpenKeepsInv(late, s, gen);
    } else {
      BrokenOpenKeepsInv(late, s, gen, constructs, starts);
    }
  }

  lemma DenialKeepsInv(late: nat, s: Recorder, gen: nat)
    requires Inv(late, s) && gen in s.env.opening
    ensures Inv(late, OpenFailed(s, gen))
  {
    SavesStay(s, OpenFailed(s, gen));
    assert GenInv(OpenFailed(s, gen));
  }

  lemma TakeEventKeepsInv(late: nat, s: Recorder, e: Event)
    requires Inv(late, s) && Enabled(late, s, e) && (e.Data? || e.TakeFailed? || e.TakeEnded?)
    ensures Inv(late, Step(late, s, e))
  {
    match e
    case Data(take, chunk) =>
      if s.generation != s.takes[take].gen {
        IgnoredDataKeepsInv(late, s, take, chunk);
      } else if s.takes[take].bytes + |chunk| <= MAX_BYTES {
        KeptDataKeepsInv(late, s, take, chunk);
      } else {
        ExcessDataKeepsInv(late, s, take, chunk);
      }
    case TakeFailed(take) =>
      if s.generation == s.takes[take].gen {
        CancelledKeepsInv(late, s);
      }
    case TakeEnded(take) =>
      if !s.live || s.generation != s.takes[take].gen {
        IgnoredEndKeepsInv(late, s, take);
      } else {
        if s.takes[take].bytes == 0 {
          EmptyEndKeepsInv(late, s, take);
        } else {
          FullEndKeepsInv(late, s, take);
        }
      }
  }

  lemma QuietEventKeepsInv(late: nat, s: Recorder, e: Event)
    requires Inv(late, s) && Enabled(late, s, e)
    requires e.RecordClicked? || e.SaveAnswered? || e.LimitSet? || e.TimePassed?
    ensures Inv(late, Step(late, s, e))
  {
    var s' := Step(late, s, e);
    SavesStay(s, s');
    assert GenInv(s');
  }

  lemma UnmountKeepsInv(late: nat, s: Recorder)
    requires Inv(late, s)
    ensures Inv(late, Cancelled(s.(live := false)))
  {
    var gone := s.(live := false);
    SavesStay(s, gone);
    CancelledKeepsInv(late, gone);
  }

  lemma StepKeepsInv(late: nat, s: Recorder, e: Event)
    requires Inv(late, s)
    ensures Inv(late, Step(late, s, e))
  {
    if Enabled(late, s, e) {
      match e
      case Granted(gen, constructs, starts) => OpenKeepsInv(late, s, gen, constructs, starts);
      case Denied(gen) => DenialKeepsInv(late, s, gen);
      case TimerFired =>
        if s.timer.PermissionTimer? {
          CancelledKeepsInv(late, s);
        } else {
          StoppedKeepsInv(late, s);
        }
      case StopClicked => StoppedKeepsInv(late, s);
      case DiscardClicked => CancelledKeepsInv(late, s);
      case SaveClicked => SaveKeepsInv(late, s);
      case Unmounted => UnmountKeepsInv(late, s);
      case Data(_, _) => TakeEventKeepsInv(late, s, e);
      case TakeFailed(_) => TakeEventKeepsInv(late, s, e);
      case TakeEnded(_) => TakeEventKeepsInv(late, s, e);
      case _ => QuietEventKeepsInv(late, s, e);
    }
  }

  lemma {:induction false} RunKeepsInv(late: nat, events: seq<Event>)
    ensures Inv(late, Run(late, events))
  {
    if events != [] {
      RunKeepsInv(late, events[..|events| - 1]);
      StepKeepsInv(late, Run(late, events[..|events| - 1]), events[|events| - 1]);
    }
  }

  // ---- Main results, over every run ----

  /**
   * A microphone stream is open only while the component is mounted and recording from it,
   * and never longer than the chosen limit, which is at most five minutes.
   */
  lemma {:induction false} OpenMicrophoneIsRecording(late: nat, events: seq<Event>, m: nat)
    requires m < |Run(late, events).env.mics| && !Run(late, events).env.mics[m].stopped
    ensures var s := Run(late, events);
            && s.live && s.phase == Recording && s.stream == Some(m)
            && s.env.now - s.env.mics[m].openedAt <= s.limit * 1000 + late
            && s.limit <= 300
  {
    RunKeepsInv(late, events);
  }

  /** Whatever is saved is all that one finished recorder delivered, in order, non-empty, within 32 MiB. */
  lemma {:induction false} SavedClipIsOneRecording(late: nat, events: seq<Event>, clip: Clip)
    requires clip in Run(late, events).env.saves
    ensures var env := Run(late, events).env;
            exists t :: && 0 <= t < |env.delivered|
                        && t in env.ended
                        && clip.data == Flatten(env.delivered[t])
                        && 0 < |clip.data| <= 32 * 1024 * 1024
  {
    RunKeepsInv(late, events);
    var env := Run(late, events).env;
    var t :| ClipOf(env, t, clip);
  }

  /** Discarding and unmounting close every microphone and forget the clip, at any moment they are offered. */
  lemma {:induction false} DiscardClosesEverything(late: nat, events: seq<Event>, e: Event)
    requires e == DiscardClicked || e == Unmounted
    requires Enabled(late, Run(late, events), e)
    ensures var s := Run(late, events + [e]);
            && (forall m | 0 <= m < |s.env.mics| :: s.env.mics[m].stopped)
            && s.clip == None && s.phase == Idle && s.timer == NoTimer
            && s.generation !in s.env.opening
            && (e == Unmounted ==> !s.live)
  {
    RunKeepsInv(late, events + [e]);
    assert (events + [e])[..|events + [e]| - 1] == events;
  }

  /** Once unmounted, the component never holds a microphone, a timer or a clip again. */
  lemma {:induction false} UnmountedStaysClosed(late: nat, events: seq<Event>, more: seq<Event>)
    requires !Run(late, events).live
    ensures var s := Run(late, events + more);
            && !s.live && s.clip == None && s.timer == NoTimer
            && (forall m | 0 <= m < |s.env.mics| :: s.env.mics[m].stopped)
  {
    RunKeepsInv(late, events + more);
    if more == [] {
      assert events + more == events;
    } else {
      UnmountedStaysClosed(late, events, more[..|more| - 1]);
      assert (events + more)[..|events + more| - 1] == events + more[..|more| - 1];
      assert (events + more)[|events + more| - 1] == more[|more| - 1];
    }
  }

  // ---- Recording works ----

  /** Recorder `t` is the one that the component records with. */
  ghost predicate Keeps(s: Recorder, t: nat) {
    s.phase == Recording && s.recorder == Some(t) && t < |s.env.delivered|
  }

  /** An event that does not end recorder `t`, break it, or give its recording up. */
  predicate Calm(t: nat, e: Event) {
    e != DiscardClicked && e != Unmounted && e != TakeFailed(t) && e != TakeEnded(t)
  }

  lemma ReleasingDelivers(s: Recorder)
    ensures Released(s).env.delivered == s.env.delivered
    ensures Stopped(s).env.delivered == s.env.delivered && Cancelled(s).env.delivered == s.env.delivered
  {
  }

  lemma DataDelivers(s: Recorder, take: nat, chunk: seq<byte>)
    requires take < |s.takes| && take < |s.env.delivered|
    ensures DataArrived(s, take, chunk).env.delivered == s.env.delivered[take := s.env.delivered[take] + [chunk]]
  {
    var took := s.takes[take].(bytes := s.takes[take].bytes + |chunk|);
    ReleasingDelivers(s.(env := s.env.(delivered := s.env.delivered[take := s.env.delivered[take] + [chunk]]),
                         takes := s.takes[take := took]));
  }

  /** Only data adds to what a recorder delivered. */
  lemma StepDelivers(late: nat, s: Recorder, t: nat, e: Event)
    requires t < |s.env.delivered|
    ensures t < |Step(late, s, e).env.delivered|
    ensures Step(late, s, e).env.delivered[t]
            == if Enabled(late, s, e) && e.Data? && e.take == t then s.env.delivered[t] + [e.chunk] else s.env.delivered[t]
  {
    ReleasingDelivers(s);
    ReleasingDelivers(s.(live := false));
    if e.Data? && Enabled(late, s, e) {
      DataDelivers(s, e.take, e.chunk);
    }
  }

  lemma DeliveriesGrow(late: nat, s: Recorder, t: nat, e: Event)
    requires t < |s.env.delivered|
    ensures t < |Step(late, s, e).env.delivered|
    ensures |Flatten(s.env.delivered[t])| <= |Flatten(Step(late, s, e).env.delivered[t])|
  {
    StepDelivers(late, s, t, e);
    if Enabled(late, s, e) && e.Data? && e.take == t {
      FlattenAppend(s.env.delivered[t], e.chunk);
    }
  }

  lemma DataKeeps(late: nat, s: Recorder, t: nat, take: nat, chunk: seq<byte>)
    requires Inv(late, s) && Keeps(s, t) && Enabled(late, s, Data(take, chunk))
    requires take == t ==> |Flatten(s.env.delivered[t])| + |chunk| <= MAX_BYTES
    ensures Keeps(DataArrived(s, take, chunk), t)
  {
  }

  lemma CalmStepKeeps(late: nat, s: Recorder, t: nat, e: Event)
    requires Inv(late, s) && Keeps(s, t) && Calm(t, e) && Enabled(late, s, e)
    requires t < |Step(late, s, e).env.delivered| && |Flatten(Step(late, s, e).env.delivered[t])| <= MAX_BYTES
    ensures Keeps(Step(late, s, e), t)
  {
    match e
    case Data(take, chunk) =>
      StepDelivers(late, s, t, e);
      FlattenAppend(s.env.delivered[t], chunk);
      DataKeeps(late, s, t, take, chunk);
    case Granted(gen, constructs, starts) => assert gen != s.generation;
    case Denied(gen) => assert gen != s.generation;
    case TakeFailed(take) => assert s.takes[take].gen != s.generation;
    case TakeEnded(take) => assert s.takes[take].gen != s.generation;
    case _ =>
  }

  /** Whatever else happens, in particular a stop or the limit's timer, the recording goes on until its recorder ends. */
  lemma {:induction false} RecordingIsKept(late: nat, events: seq<Event>, more: seq<Event>, t: nat)
    requires Keeps(Run(late, events), t) && forall e :: e in more ==> Calm(t, e)
    requires t < |Run(late, events + more).env.delivered|
    requires |Flatten(Run(late, events + more).env.delivered[t])| <= MAX_BYTES
    ensures Keeps(Run(late, events + more), t)
  {
    if more == [] {
      assert events + more == events;
    } else {
      var n := |more| - 1;
      var before, e := events + more[..n], more[n];
      assert (events + more)[..|events + more| - 1] == before && (events + more)[|events + more| - 1] == e;
      StillThere(late, events, more[..n], t);
      DeliveriesGrow(late, Run(late, before), t, e);
      RecordingIsKept(late, events, more[..n], t);
      RunKeepsInv(late, before);
      if Enabled(late, Run(late, before), e) {
        CalmStepKeeps(late, Run(late, before), t, e);
      }
    }
  }

  lemma {:induction false} StillThere(late: nat, events: seq<Event>, more: seq<Event>, t: nat)
    requires t < |Run(late, events).env.delivered|
    ensures t < |Run(late, events + more).env.delivered|
  {
    if more == [] {
      assert events + more == events;
    } else {
      var n := |more| - 1;
      assert (events + more)[..|events + more| - 1] == events + more[..n] && (events + more)[|events + more| - 1] == more[n];
      StillThere(late, events, more[..n], t);
      DeliveriesGrow(late, Run(late, events + more[..n]), t, more[n]);
    }
  }

  /** Stopping, by the button or by the limit, closes the microphone and lets the recorder finish. */
  lemma StoppingClosesTheMicrophone(late: nat, events: seq<Event>, e: Event, t: nat)
    requires Keeps(Run(late, events), t) && (e == StopClicked || e == TimerFired) && Enabled(late, Run(late, events), e)
    ensures var s := Run(late, events + [e]);
            && Keeps(s, t) && s.timer == NoTimer && t < |s.takes| && !s.takes[t].running
            && s.env.delivered == Run(late, events).env.delivered
            && forall m | 0 <= m < |s.env.mics| :: s.env.mics[m].stopped
  {
    RunKeepsInv(late, events);
    RunKeepsInv(late, events + [e]);
    assert (events + [e])[..|events + [e]| - 1] == events;
  }

  /**
   * Once its recorder ends, what it delivered within 32 MiB is ready as a clip, all of it and in order;
   * saving hands over exactly that clip. An empty recording is dropped.
   */
  lemma RecordingBecomesTheClip(late: nat, events: seq<Event>, more: seq<Event>, t: nat)
    requires Keeps(Run(late, events), t) && forall e :: e in more ==> Calm(t, e)
    requires t < |Run(late, events + more).env.delivered|
    requires |Flatten(Run(late, events + more).env.delivered[t])| <= MAX_BYTES
    ensures var before := Run(late, events + more);
            var s := Run(late, events + more + [TakeEnded(t)]);
            var heard := Flatten(before.env.delivered[t]);
            && Enabled(late, before, TakeEnded(t)) && s.env.saves == before.env.saves
            && (forall m | 0 <= m < |s.env.mics| :: s.env.mics[m].stopped)
            && if heard == [] then s.phase == Idle && s.clip == None
               else && s.phase == Ready && s.clip == Some(Clip(heard))
                    && Run(late, events + more + [TakeEnded(t)] + [SaveClicked]).env.saves == s.env.saves + [Clip(heard)]
  {
    RecordingIsKept(late, events, more, t);
    RunKeepsInv(late, events + more);
    var ended := events + more + [TakeEnded(t)];
    assert ended[..|ended| - 1] == events + more;
    RunKeepsInv(late, ended);
    assert (ended + [SaveClicked])[..|ended + [SaveClicked]| - 1] == ended;
  }

  /** From idle, recording asks for permission for at most 30 s, and forgets the clip before. */
  lemma RecordAsksForPermission(late: nat, events: seq<Event>)
    requires Run(late, events).live && Run(late, events).phase == Idle
    ensures var s, t := Run(late, events), Run(late, events + [RecordClicked]);
            && t.phase == Permission && t.clip == None && t.timer == PermissionTimer(s.env.now + PERMISSION_MS)
            && Enabled(late, t, Granted(t.generation, true, true)) && Enabled(late, t, Denied(t.generation))
  {
    assert (events + [RecordClicked])[..|events + [RecordClicked]| - 1] == events;
  }

  /** The permission that is waited for starts a recording, with an open microphone and the chosen limit. */
  lemma PermissionStartsRecording(late: nat, events: seq<Event>, constructs: bool, starts: bool)
    requires Run(late, events).phase == Permission
    ensures var s := Run(late, events);
            var granted := Granted(s.generation, constructs, starts);
            var t, take, mic := Run(late, events + [granted]), |s.takes|, |s.env.mics|;
            Enabled(late, s, granted) &&
            if constructs && starts then
              && Keeps(t, take) && t.env.delivered[take] == [] && t.timer == LimitTimer(s.env.now + s.limit * 1000)
              && t.stream == Some(mic) && t.env.mics == s.env.mics + [Mic(s.env.now, false)]
            else t.phase == Idle && t.stream == None
  {
    RunKeepsInv(late, events);
    var e := Granted(Run(late, events).generation, constructs, starts);
    assert (events + [e])[..|events + [e]| - 1] == events;
  }

  /** A permission that nobody waits for any more changes nothing: its stream is stopped at once. */
  lemma LatePermissionIsStopped(late: nat, s: Recorder, gen: nat, constructs: bool, starts: bool)
    requires Enabled(late, s, Granted(gen, constructs, starts)) && (!s.live || gen != s.generation)
    ensures Step(late, s, Granted(gen, constructs, starts))
            == s.(env := s.env.(opening := s.env.opening - {gen}, mics := s.env.mics + [Mic(s.env.now, true)]))
    ensures Enabled(late, s, Denied(gen)) && Step(late, s, Denied(gen)) == s.(env := s.env.(opening := s.env.opening - {gen}))
  {
  }

  /** A refusal, and 30 s without an answer, end the waiting. */
  lemma PermissionMayBeRefused(late: nat, events: seq<Event>, e: Event)
    requires Run(late, events).phase == Permission
    requires e == Denied(Run(late, events).generation) || (e == TimerFired && Enabled(late, Run(late, events), e))
    ensures Run(late, events + [e]).phase == Idle && Run(late, events + [e]).timer == NoTimer
  {
    RunKeepsInv(late, events);
    assert (events + [e])[..|events + [e]| - 1] == events;
  }

  /** A failing recorder, and one that delivers more than 32 MiB, close everything and leave no clip; older ones do not matter. */
  lemma FailureDiscards(late: nat, events: seq<Event>, e: Event, t: nat)
    requires Enabled(late, Run(late, events), e)
    requires e == TakeFailed(t) || (e.Data? && e.take == t)
    ensures var before, s := Run(late, events), Run(late, events + [e]);
            && s.env.saves == before.env.saves
            && (Keeps(before, t) && (e.Data? ==> |Flatten(before.env.delivered[t])| + |e.chunk| > MAX_BYTES) ==>
                  && s.phase == Idle && s.clip == None && s.stream == None && s.timer == NoTimer
                  && forall m | 0 <= m < |s.env.mics| :: s.env.mics[m].stopped)
            && (!Keeps(before, t) ==> s.phase == before.phase && s.clip == before.clip && s.stream == before.stream)
  {
    RunKeepsInv(late, events);
    RunKeepsInv(late, events + [e]);
    assert (events + [e])[..|events + [e]| - 1] == events;
  }

  /** The limit field sets the limit, held to 1 to 300 and 60 for zero; time only passes. */
  lemma LimitAndTime(late: nat, s: Recorder, seconds: int, ms: nat)
    ensures Enabled(late, s, LimitSet(seconds)) ==>
              Step(late, s, LimitSet(seconds)) ==
                s.(limit := if seconds == 0 then 60 else if seconds < 1 then 1 else if seconds > 300 then 300 else seconds)
    ensures Enabled(late, s, TimePassed(ms)) ==> Step(late, s, TimePassed(ms)) == s.(env := s.env.(now := s.env.now + ms))
  {
  }

  /** A clip is given up only once it was saved: a failed save keeps it, to be saved again. */
  lemma SavingKeepsTheClip(late: nat, events: seq<Event>, saved: bool)
    requires Run(late, events).live && Enabled(late, Run(late, events), SaveAnswered(saved))
    ensures var before, s := Run(late, events), Run(late, events + [SaveAnswered(saved)]);
            && before.clip.Some? && before.phase == Saving
            && if saved then s.phase == Idle && s.clip == None else s.phase == Ready && s.clip == before.clip
  {
    RunKeepsInv(late, events);
    assert (events + [SaveAnswered(saved)])[..|events + [SaveAnswered(saved)]| - 1] == events;
  }

  // ---- The component, with its own variables ----

  class MicrophoneRecorder {
    var generation: nat
    var stream: Option<nat>
    var recorder: Option<nat>
    var timer: Timer
    var clip: Option<Clip>
    var phase: Phase
    var live: bool
    var limit: nat
    /** The recorders made so far, each with the variables its callbacks share. */
    var takes: seq<Take>
    ghost var env: Env

    ghost function View(): Recorder
      reads this
    {
      Recorder(generation, stream, recorder, timer, clip, phase, live, limit, takes, env)
    }

    constructor ()
      ensures View() == INITIAL
    {
      generation, stream, recorder, timer, clip := 0, None, None, NoTimer, None;
      phase, live, limit, takes := Idle, true, 60, [];
      env := Env(0, {}, [], [], {}, [], false);
    }

    method Release()
      modifies this
      ensures View() == Released(old(View()))
    {
      timer := NoTimer;
      if stream.Some? {
        env := MicStopped(env, stream.value);
      }
      stream := None;
    }

    method StopRecorder()
      modifies this`takes
      ensures View() == RecorderStopped(old(View()))
    {
      if recorder.Some? && recorder.value < |takes| {
        takes := takes[recorder.value := takes[recorder.value].(running := false)];
      }
    }

    method Cancel()
      modifies this
      ensures View() == Cancelled(old(View()))
    {
      generation := generation + 1;
      StopRecorder();
      Release();
      recorder := None;
      clip := None;
      phase := Idle;
    }

    method Stop()
      modifies this
      ensures View() == Stopped(old(View()))
    {
      StopRecorder();
      Release();
    }

    method Record(now: nat)
      requires live && phase == Idle && now == env.now
      modifies this
      ensures View() == RecordStarted(old(View()))
    {
      generation := generation + 1;
      clip := None;
      phase := Permission;
      timer := PermissionTimer(now + PERMISSION_MS);
      env := env.(opening := env.opening + {generation});
    }

    /** `granted` is the new stream; constructing or starting the recorder may throw. */
    method PermissionGranted(gen: nat, granted: nat, constructs: bool, starts: bool, now: nat)
      requires gen in env.opening && granted == |env.mics| && now == env.now && |env.delivered| == |takes|
      modifies this
      ensures View() == Opened(old(View()), gen, constructs, starts)
    {
      var stale := !live || generation != gen;
      env := env.(opening := env.opening - {gen}, mics := env.mics + [Mic(now, stale)]);
      if stale {
        return;
      }
      timer := NoTimer;
      stream := Some(granted);
      if !constructs {
        Release();
        phase := Idle;
        return;
      }
      recorder := Some(|takes|);
      env := env.(delivered := env.delivered + [[]], ended := if starts then env.ended else env.ended + {|takes|});
      takes := takes + [Take(gen, granted, starts, [], 0)];
      if !starts {
        Release();
        phase := Idle;
        return;
      }
      phase := Recording;
      timer := LimitTimer(now + limit * 1000);
    }

    method PermissionDenied(gen: nat)
      requires gen in env.opening
      modifies this
      ensures View() == OpenFailed(old(View()), gen)
    {
      env := env.(opening := env.opening - {gen});
      if !live || generation != gen {
        return;
      }
      Release();
      phase := Idle;
    }

    method TimerFires()
      requires timer != NoTimer
      modifies this
      ensures View() == if old(timer).PermissionTimer? then Cancelled(old(View())) else Stopped(old(View()))
    {
      if timer.PermissionTimer? {
        Cancel();
      } else {
        Stop();
      }
    }

    method DataAvailable(take: nat, chunk: seq<byte>)
      requires take < |takes| && take < |env.delivered|
      modifies this
      ensures View() == DataArrived(old(View()), take, chunk)
    {
      env := env.(delivered := env.delivered[take := env.delivered[take] + [chunk]]);
      var t := takes[take];
      if generation != t.gen {
        return;
      }
      t := t.(bytes := t.bytes + |chunk|);
      if t.bytes > MAX_BYTES {
        takes := takes[take := t];
        Cancel();
        return;
      }
      if chunk != [] {
        t := t.(chunks := t.chunks + [chunk]);
      }
      takes := takes[take := t];
    }

    method RecorderFails(take: nat)
      requires take < |takes|
      modifies this
      ensures View() == if old(generation) != old(takes)[take].gen then old(View()) else Cancelled(old(View()))
    {
      if generation != takes[take].gen {
        return;
      }
      Cancel();
    }

    method RecorderEnds(take: nat)
      requires take < |takes|
      modifies this
      ensures View() == Ended(old(View()), take)
    {
      var t := takes[take];
      takes := takes[take := t.(running := false)];
      env := env.(ended := env.ended + {take});
      if !live || generation != t.gen {
        return;
      }
      Release();
      if t.bytes == 0 {
        phase := Idle;
        return;
      }
      clip := Some(Clip(Flatten(t.chunks)));
      phase := Ready;
    }

    /** Returns the clip handed to the host, if there is one. */
    method Save() returns (handed: Option<Clip>)
      modifies this
      ensures View() == SaveStarted(old(View())) && handed == old(clip)
    {
      handed := clip;
      if clip == None {
        return;
      }
      phase := Saving;
      env := env.(saves := env.saves + [clip.value], uploading := true);
    }

    method SaveAnswers(saved: bool)
      modifies this
      ensures View() == SaveSettled(old(View()), saved)
    {
      env := env.(uploading := false);
      if !live {
        return;
      }
      if saved {
        phase := Idle;
        clip := None;
      } else {
        phase := Ready;
      }
    }

    /** A number field's value: kept when it is from 1 to 300, the nearest of these otherwise, and 60 for zero. */
    method SetLimit(seconds: int)
      modifies this`limit
      ensures View() == old(View()).(limit := LimitOf(seconds))
      ensures 1 <= limit <= 300
      ensures 1 <= seconds <= 300 ==> limit == seconds
      ensures seconds > 300 ==> limit == 300
      ensures seconds < 0 ==> limit == 1
      ensures seconds == 0 ==> limit == 60
    {
      var wanted := seconds;
      if wanted == 0 {
        wanted := 60;
      }
      limit := Max(1, Min(300, wanted));
    }

    method CleanUp()
      modifies this
      ensures View() == Cancelled(old(View()).(live := false))
    {
      live := false;
      Cancel();
    }

    /**
     * Every event is one step of the protocol and keeps what is true of every reachable recorder.
     * `now` is the clock and `granted` the number of the next stream.
     */
    method Handle(ghost late: nat, e: Event, now: nat, granted: nat)
      requires Inv(late, View()) && Enabled(late, View(), e)
      requires now == env.now && granted == |env.mics|
      modifies this
      ensures View() == Step(late, old(View()), e) && Inv(late, View())
    {
      StepKeepsInv(late, View(), e);
      match e
      case RecordClicked => Record(now);
      case Granted(gen, constructs, starts) => PermissionGranted(gen, granted, constructs, starts, now);
      case Denied(gen) => PermissionDenied(gen);
      case TimerFired => TimerFires();
      case Data(take, chunk) => DataAvailable(take, chunk);
      case TakeFailed(take) => RecorderFails(take);
      case TakeEnded(take) => RecorderEnds(take);
      case StopClicked => Stop();
      case DiscardClicked => Cancel();
      case SaveClicked => var _ := Save();
      case SaveAnswered(saved) => SaveAnswers(saved);
      case LimitSet(seconds) => SetLimit(seconds);
      case Unmounted => CleanUp();
      case TimePassed(ms) => env := env.(now := env.now + ms);
    }
  }
}
