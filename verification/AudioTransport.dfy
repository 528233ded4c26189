/**
 * The audio preview transport (packages/app/src/AudioTransport.tsx): which load may write what
 * is playing, what happens to the object URLs it makes, and how playback walks a long timeline
 * window by window. Seconds are reals.
 */
module AudioTransport {
  import opened Prelude

  /** What is previewed. `duration` is the effective timeline's length, zero when unknown. */
  datatype Media = Audio(identity: string, initialBatch: nat, duration: real) | Plain(link: string)

  datatype Src = Blob(url: nat) | Link(link: string)

  /** A successful reply; the audio and the waveform may each be missing. */
  datatype Window = Window(start: real, duration: real, audio: bool, waveform: bool)

  datatype Request = Request(identity: string, position: real, batch: int)

  /** Requests sent, unanswered and aborted; object URLs made and revoked. */
  datatype Env = Env(sent: seq<Request>, unsettled: set<nat>, aborted: set<nat>, made: nat, revoked: set<nat>)

  /** What the element and the panel show. */
  datatype Shown = Shown(start: real, span: real, src: Option<Src>, waveform: Option<nat>)

  datatype Transport = Transport(
    media: Media,
    abort: Option<nat>,
    shown: Shown,
    urls: seq<nat>,
    resume: bool,
    time: real,
    nativeDuration: real,
    playing: bool,
    busy: bool,
    batch: int,
    loop: bool,
    mounted: bool,
    env: Env)

  datatype Event =
    | MediaChanged(media: Media)
    | Scrubbed(position: real)
    | BatchPicked(batch: int)
    | PlayAgain
    | LoopToggled(loop: bool)
    | PlayingChanged(playing: bool)
    | MetadataLoaded(duration: real)
    | TimeUpdated(time: real)
    | EndReached
    | Replied(request: nat, window: Window)
    | LoadFailed(request: nat)
    | DeadlineFired(request: nat)
    | Unmounted

  function IdentityOf(m: Media): string {
    match m
    case Audio(identity, _, _) => identity
    case Plain(link) => link
  }

  function Duration(s: Transport): real {
    if s.media.Audio? then s.media.duration else s.nativeDuration
  }

  function RealMin(a: real, b: real): real {
    if a < b then a else b
  }

  function RealMax(a: real, b: real): real {
    if a < b then b else a
  }

  // ---- The component's own functions, on values ----

  function AbortCurrent(s: Transport): Transport {
    s.(env := s.env.(aborted := s.env.aborted + SetOf(s.abort)))
  }

  function Released(s: Transport): Transport {
    s.(urls := [], env := s.env.(revoked := s.env.revoked + (set u | u in s.urls)))
  }

  function Loaded(s: Transport, position: real, batch: int, autoplay: bool): Transport {
    if s.media.Plain? then s else
    var request := |s.env.sent|;
    var t := AbortCurrent(s);
    t.(abort := Some(request),
       resume := autoplay,
       busy := true,
       time := position,
       env := t.env.(sent := s.env.sent + [Request(IdentityOf(s.media), position, batch)],
                     unsettled := s.env.unsettled + {request}))
  }

  function Settled(s: Transport, request: nat): Transport {
    s.(env := s.env.(unsettled := s.env.unsettled - {request}))
  }

  function Presented(s: Transport, w: Window): Transport {
    var n := s.env.made;
    var first := if w.audio then [n] else [];
    var second := if w.waveform then [n + |first|] else [];
    s.(shown := Shown(w.start, w.duration,
                      if w.audio then Some(Blob(n)) else None,
                      if w.waveform then Some(n + |first|) else None),
       urls := first + second,
       busy := false,
       env := s.env.(made := n + |first| + |second|))
  }

  /** A reply: an aborted request writes nothing; a live one replaces everything shown. */
  function Answered(s: Transport, request: nat, w: Window): Transport {
    var t := Settled(s, request);
    if request in s.env.aborted then t else
    Presented(Released(t), w)
  }

  function Failed(s: Transport, request: nat): Transport {
    var t := Settled(s, request);
    if request in s.env.aborted then t else t.(shown := t.shown.(src := None), busy := false)
  }

  function TimedOut(s: Transport, request: nat): Transport {
    s.(env := s.env.(aborted := s.env.aborted + {request}),
       resume := false,
       shown := s.shown.(src := None),
       busy := false)
  }

  function Cleared(s: Transport): Transport {
    s.(batch := if s.media.Audio? then s.media.initialBatch else 0,
       time := 0.0,
       nativeDuration := 0.0,
       playing := false,
       resume := false,
       shown := Shown(0.0, 0.0, s.shown.src, None))
  }

  /** The effect that runs when the identity of the media changes. */
  function Replaced(s: Transport): Transport {
    var r := Cleared(Released(AbortCurrent(s)));
    if s.media.Audio? then Loaded(r, 0.0, r.batch, false)
    else r.(shown := r.shown.(src := if s.media.link == "" then None else Some(Link(s.media.link))), busy := false)
  }

  /** Where the window that just played ends. */
  function NextStart(s: Transport): real {
    s.shown.start + RealMin(s.shown.span, if s.nativeDuration == 0.0 then s.shown.span else s.nativeDuration)
  }

  function Ended(s: Transport): Transport {
    var t := s.(playing := false);
    if s.media.Plain? then t
    else if Duration(s) > NextStart(s) + 0.01 then Loaded(t, NextStart(s), s.batch, true)
    else if s.loop then Loaded(t, 0.0, s.batch, true)
    else t
  }

  function CleanedUp(s: Transport): Transport {
    Released(AbortCurrent(s)).(mounted := false)
  }

  // ---- One atomic step ----

  ghost predicate Live(s: Transport, request: nat) {
    request in s.env.unsettled && request !in s.env.aborted
  }

  predicate Enabled(s: Transport, e: Event) {
    match e
    case Replied(r, _) => r in s.env.unsettled
    case LoadFailed(r) => r in s.env.unsettled
    case DeadlineFired(r) => r in s.env.unsettled && r !in s.env.aborted
    case Scrubbed(_) => s.mounted && Duration(s) > 0.0
    case BatchPicked(b) => s.mounted && s.media.Audio? && b >= 0
    case PlayAgain => s.mounted && s.media.Audio? && !s.busy && s.shown.src.Some?
    case _ => s.mounted
  }

  function Step(s: Transport, e: Event): Transport {
    if !Enabled(s, e) then s else
    match e
    case MediaChanged(m) =>
      if IdentityOf(m) == IdentityOf(s.media) then s.(media := m) else Replaced(s.(media := m))
    case Scrubbed(p) =>
      Loaded(s, RealMin(p, RealMax(0.0, Duration(s) - 0.01)), s.batch, s.playing || s.resume)
    case BatchPicked(b) => Loaded(s.(batch := b), 0.0, b, false)
    case PlayAgain => Loaded(s, 0.0, s.batch, true)
    case LoopToggled(loop) => s.(loop := loop)
    case PlayingChanged(playing) => s.(playing := playing)
    case MetadataLoaded(d) => s.(nativeDuration := d, resume := false)
    case TimeUpdated(t) => if s.busy then s else s.(time := s.shown.start + t)
    case EndReached => Ended(s)
    case Replied(r, w) => Answered(s, r, w)
    case LoadFailed(r) => Failed(s, r)
    case DeadlineFired(r) => TimedOut(s, r)
    case Unmounted => CleanedUp(s)
  }

  function Mounted(m: Media): Transport {
    Replaced(Transport(m, None, Shown(0.0, 0.0, None, None), [], false, 0.0, 0.0, false, false, 0, false, true,
                       Env([], {}, {}, 0, {})))
  }

  function Run(s: Transport, events: seq<Event>): Transport {
    if events == [] then s else Step(Run(s, events[..|events| - 1]), events[|events| - 1])
  }

  // ---- What is true of every reachable transport ----

  /** Every URL ever made is either still held or has been revoked, never both; at most two are held. */
  ghost predicate Accounted(urls: seq<nat>, made: nat, revoked: set<nat>) {
    && |urls| <= 2
    && NoDuplicates(urls)
    && (forall u | u in urls :: u < made && u !in revoked)
    && (forall u | u in revoked :: u < made)
    && (forall u: nat | u < made :: u in revoked || u in urls)
  }

  ghost predicate UrlInv(s: Transport) {
    Accounted(s.urls, s.env.made, s.env.revoked)
  }

  ghost predicate RequestInv(s: Transport) {
    && (forall r | r in s.env.unsettled :: r < |s.env.sent|)
    && (forall r | r in s.env.aborted :: r < |s.env.sent|)
    && (s.abort.Some? ==> s.abort.value < |s.env.sent|)
    && (forall r | r in s.env.unsettled && r !in s.env.aborted ::
          && s.mounted && s.abort == Some(r) && r == |s.env.sent| - 1
          && s.env.sent[r].identity == IdentityOf(s.media) && s.env.sent[r].batch == s.batch)
    && (s.mounted ==> (s.busy <==> s.abort.Some? && Live(s, s.abort.value)))
  }

  ghost predicate ShownInv(s: Transport) {
    && (s.mounted && s.shown.waveform.Some? ==> s.shown.waveform.value in s.urls)
    && (s.mounted && !s.busy && s.shown.src.Some? && s.shown.src.value.Blob? ==> s.shown.src.value.url in s.urls)
    && (!s.mounted ==> s.urls == [])
  }

  ghost predicate Inv(s: Transport) {
    UrlInv(s) && RequestInv(s) && ShownInv(s)
  }

  lemma ReleasedUrls(s: Transport)
    requires UrlInv(s)
    ensures UrlInv(Released(s)) && Released(s).urls == []
  {
  }

  lemma FreshUrls(n: nat, revoked: set<nat>)
    requires Accounted([], n, revoked)
    ensures Accounted([n], n + 1, revoked) && Accounted([n, n + 1], n + 2, revoked)
  {
  }

  lemma LoadedKeepsInv(s: Transport, position: real, batch: int, autoplay: bool)
    requires UrlInv(s) && ShownInv(s.(busy := true)) && s.mounted && s.media.Audio? && batch == s.batch
    requires forall r | r in s.env.unsettled :: r < |s.env.sent|
    requires forall r | r in s.env.aborted :: r < |s.env.sent|
    requires s.abort.Some? ==> s.abort.value < |s.env.sent|
    requires forall r | r in s.env.unsettled && r !in s.env.aborted :: s.abort == Some(r)
    ensures Inv(Loaded(s, position, batch, autoplay))
  {
    var t := Loaded(s, position, batch, autoplay);
    assert t.urls == s.urls && t.env.revoked == s.env.revoked && t.env.made == s.env.made;
    assert RequestInv(t);
  }

  lemma ReplacedKeepsInv(s: Transport)
    requires UrlInv(s) && s.mounted
    requires forall r | r in s.env.unsettled :: r < |s.env.sent|
    requires forall r | r in s.env.aborted :: r < |s.env.sent|
    requires s.abort.Some? ==> s.abort.value < |s.env.sent|
    requires forall r | r in s.env.unsettled && r !in s.env.aborted :: s.abort == Some(r)
    ensures Inv(Replaced(s))
  {
    var t := Released(AbortCurrent(s));
    ReleasedUrls(AbortCurrent(s));
    if s.media.Audio? {
      var r := Cleared(t);
      assert UrlInv(r) && ShownInv(r.(busy := true));
      LoadedKeepsInv(r, 0.0, r.batch, false);
    } else {
      var r := Replaced(s);
      assert r.urls == t.urls && r.env == t.env;
      assert UrlInv(r) && RequestInv(r);
    }
  }

  lemma AnsweredUrls(s: Transport, request: nat, w: Window)
    requires UrlInv(s)
    ensures UrlInv(Answered(s, request, w))
  {
    var r := Released(Settled(s, request));
    ReleasedUrls(Settled(s, request));
    FreshUrls(r.env.made, r.env.revoked);
    if request !in s.env.aborted && w.audio && w.waveform {
      assert Answered(s, request, w).urls == [r.env.made, r.env.made + 1];
    }
  }

  lemma AnsweredRequests(s: Transport, request: nat, w: Window)
    requires RequestInv(s) && request in s.env.unsettled
    ensures RequestInv(Answered(s, request, w))
  {
  }

  lemma AnsweredKeepsInv(s: Transport, request: nat, w: Window)
    requires Inv(s) && request in s.env.unsettled
    ensures Inv(Answered(s, request, w))
  {
    AnsweredUrls(s, request, w);
    AnsweredRequests(s, request, w);
    var t := Answered(s, request, w);
    if request in s.env.aborted {
      assert ShownInv(t);
    } else {
      assert s.mounted;
    }
  }

  lemma FailureKeepsInv(s: Transport, request: nat)
    requires Inv(s) && request in s.env.unsettled
    ensures Inv(Failed(s, request))
    ensures request !in s.env.aborted ==> Inv(TimedOut(s, request))
  {
    assert UrlInv(Failed(s, request)) && UrlInv(TimedOut(s, request));
  }

  lemma CleanedUpKeepsInv(s: Transport)
    requires Inv(s) && s.mounted
    ensures Inv(CleanedUp(s))
  {
    ReleasedUrls(AbortCurrent(s));
    var t := CleanedUp(s);
    assert t.env.made == s.env.made && UrlInv(t);
  }

  lemma StepKeepsInv(s: Transport, e: Event)
    requires Inv(s)
    ensures Inv(Step(s, e))
  {
    if Enabled(s, e) {
      match e
      case MediaChanged(m) =>
        if IdentityOf(m) != IdentityOf(s.media) {
          assert UrlInv(s.(media := m));
          ReplacedKeepsInv(s.(media := m));
        }
      case Scrubbed(p) => LoadKeepsInv(s, RealMin(p, RealMax(0.0, Duration(s) - 0.01)), s.batch, s.playing || s.resume);
      case BatchPicked(b) => LoadKeepsInv(s, 0.0, b, false);
      case PlayAgain => LoadKeepsInv(s, 0.0, s.batch, true);
      case EndReached => EndedKeepsInv(s);
      case Replied(r, w) => AnsweredKeepsInv(s, r, w);
      case LoadFailed(r) => FailureKeepsInv(s, r);
      case DeadlineFired(r) => FailureKeepsInv(s, r);
      case Unmounted => CleanedUpKeepsInv(s);
      case _ => SettingKeepsInv(s, e);
    }
  }

  lemma SettingKeepsInv(s: Transport, e: Event)
    requires Inv(s) && Enabled(s, e)
    requires e.LoopToggled? || e.PlayingChanged? || e.MetadataLoaded? || e.TimeUpdated?
    ensures Inv(Step(s, e))
  {
    assert UrlInv(Step(s, e));
  }

  lemma EndedKeepsInv(s: Transport)
    requires Inv(s) && s.mounted
    ensures Inv(Ended(s))
  {
    var t := s.(playing := false);
    assert UrlInv(t) && RequestInv(t) && ShownInv(t);
    LoadKeepsInv(t, NextStart(s), s.batch, true);
    LoadKeepsInv(t, 0.0, s.batch, true);
  }

  lemma LoadKeepsInv(s: Transport, position: real, batch: int, autoplay: bool)
    requires Inv(s) && s.mounted && (s.media.Plain? ==> batch == s.batch)
    ensures Inv(Loaded(s.(batch := batch), position, batch, autoplay))
  {
    var t := s.(batch := batch);
    assert UrlInv(t);
    if s.media.Audio? {
      LoadedKeepsInv(t, position, batch, autoplay);
    }
  }

  lemma {:induction false} RunKeepsInv(m: Media, events: seq<Event>)
    ensures Inv(Run(Mounted(m), events))
  {
    if events == [] {
      ReplacedKeepsInv(Transport(m, None, Shown(0.0, 0.0, None, None), [], false, 0.0, 0.0, false, false, 0, false,
                                 true, Env([], {}, {}, 0, {})));
    } else {
      RunKeepsInv(m, events[..|events| - 1]);
      StepKeepsInv(Run(Mounted(m), events[..|events| - 1]), events[|events| - 1]);
    }
  }

  // ---- Main results: who may write, and what becomes of the URLs ----

  /**
   * A reply or a failure changes what is shown only if it answers the newest request, that
   * request was not aborted, and it was made for the identity and batch shown now.
   */
  lemma {:induction false} OnlyTheNewestLoadWrites(m: Media, events: seq<Event>, e: Event)
    requires e.Replied? || e.LoadFailed?
    requires var s := Run(Mounted(m), events);
             Step(s, e).shown != s.shown || Step(s, e).urls != s.urls || Step(s, e).busy != s.busy
    ensures var s := Run(Mounted(m), events);
            && s.mounted && s.busy
            && Live(s, e.request)
            && e.request == |s.env.sent| - 1
            && s.env.sent[e.request].identity == IdentityOf(s.media)
            && s.env.sent[e.request].batch == s.batch
  {
    RunKeepsInv(m, events);
  }

  /** The transport is busy exactly while one live request is on its way. */
  lemma {:induction false} BusyHasOneLiveRequest(m: Media, events: seq<Event>)
    ensures var s := Run(Mounted(m), events);
            && (s.mounted ==> (s.busy <==> exists r :: Live(s, r)))
            && (forall r, q | Live(s, r) && Live(s, q) :: r == q)
            && (!s.mounted ==> forall r :: !Live(s, r))
  {
    RunKeepsInv(m, events);
    var s := Run(Mounted(m), events);
    if s.mounted && s.busy {
      assert Live(s, s.abort.value);
    }
  }

  /** Object URLs are conserved: made is revoked plus held, at most two are held, none after unmounting. */
  lemma {:induction false} UrlsAreConserved(m: Media, events: seq<Event>)
    ensures var s := Run(Mounted(m), events);
            && (forall u: nat :: u < s.env.made <==> u in s.env.revoked || u in s.urls)
            && (forall u | u in s.urls :: u !in s.env.revoked)
            && |s.urls| <= 2 && NoDuplicates(s.urls)
            && (!s.mounted ==> s.urls == [])
  {
    RunKeepsInv(m, events);
  }

  /** The audio on show, if it is one of our object URLs, is still held. */
  ghost predicate SrcHeld(s: Transport) {
    s.mounted && s.shown.src.Some? && s.shown.src.value.Blob? ==> s.shown.src.value.url in s.urls
  }

  /** Other audio arrives while one of our object URLs is the source: it is revoked but stays the source. */
  predicate Revokes(s: Transport, e: Event) {
    && s.mounted && e.MediaChanged? && e.media.Audio? && IdentityOf(e.media) != IdentityOf(s.media)
    && s.shown.src.Some? && s.shown.src.value.Blob?
  }

  /** The source is replaced or cleared: by the end of the load in any way, a plain source, or unmounting. */
  ghost predicate Renews(s: Transport, e: Event) {
    && Enabled(s, e)
    && match e
       case Replied(r, _) => Live(s, r)
       case LoadFailed(r) => Live(s, r)
       case DeadlineFired(_) => true
       case MediaChanged(m) => m.Plain? && IdentityOf(m) != IdentityOf(s.media)
       case Unmounted => true
       case _ => false
  }

  /** One event revokes the source on show exactly when it brings other audio. */
  lemma RevokedByIff(s: Transport, e: Event)
    requires Inv(s) && SrcHeld(s)
    ensures !SrcHeld(Step(s, e)) <==> Revokes(s, e)
    ensures !SrcHeld(Step(s, e)) ==> Step(s, e).urls == []
  {
  }

  /** A revoked source goes exactly with the events that renew it. */
  lemma RenewedByIff(s: Transport, e: Event)
    requires Inv(s) && !SrcHeld(s) && s.urls == []
    ensures SrcHeld(Step(s, e)) <==> Renews(s, e)
    ensures !SrcHeld(Step(s, e)) ==> Step(s, e).urls == []
  {
  }

  /** Event `k` revoked the source on show, and no event since has renewed it. */
  ghost predicate RevokedSince(m: Media, events: seq<Event>, k: nat) {
    && k < |events|
    && Revokes(Run(Mounted(m), events[..k]), events[k])
    && forall j :: k < j < |events| ==> !Renews(Run(Mounted(m), events[..j]), events[j])
  }

  lemma RevokedSinceExtends(m: Media, events: seq<Event>, k: nat)
    requires events != []
    ensures var n := |events| - 1;
            RevokedSince(m, events, k) <==>
              (k == n && Revokes(Run(Mounted(m), events[..n]), events[n]))
              || (RevokedSince(m, events[..n], k) && !Renews(Run(Mounted(m), events[..n]), events[n]))
  {
    var n := |events| - 1;
    forall j | 0 <= j <= n
      ensures events[..n][..j] == events[..j]
    {
    }
    if RevokedSince(m, events[..n], k) && !Renews(Run(Mounted(m), events[..n]), events[n]) {
      assert events[..n][k] == events[k] && events[..n][..k] == events[..k];
      forall j | k < j < |events|
        ensures !Renews(Run(Mounted(m), events[..j]), events[j])
      {
        if j < n {
          assert events[..n][j] == events[j] && events[..n][..j] == events[..j];
        }
      }
    }
    if RevokedSince(m, events, k) && k < n {
      assert events[..n][k] == events[k] && events[..n][..k] == events[..k];
      forall j | k < j < n
        ensures !Renews(Run(Mounted(m), events[..n][..j]), events[..n][j])
      {
        assert events[..n][j] == events[j] && events[..n][..j] == events[..j];
      }
    }
  }

  /**
   * Over every history the audio on show is a revoked URL exactly when other audio arrived while an
   * object URL was the source, and since then no load has ended, no plain source has come, and the
   * player is still mounted.
   */
  lemma {:induction false} SrcRevokedIff(m: Media, events: seq<Event>)
    ensures var s := Run(Mounted(m), events);
            && (!SrcHeld(s) <==> exists k :: RevokedSince(m, events, k))
            && (!SrcHeld(s) ==> s.urls == [] && s.busy)
  {
    RunKeepsInv(m, events);
    if events != [] {
      var n := |events| - 1;
      var s, e := Run(Mounted(m), events[..n]), events[n];
      SrcRevokedIff(m, events[..n]);
      RunKeepsInv(m, events[..n]);
      if SrcHeld(s) {
        RevokedByIff(s, e);
      } else {
        RenewedByIff(s, e);
      }
      forall k: nat
        ensures RevokedSince(m, events, k) <==>
                  (k == n && Revokes(s, e)) || (RevokedSince(m, events[..n], k) && !Renews(s, e))
      {
        RevokedSinceExtends(m, events, k);
      }
      assert Revokes(s, e) ==> RevokedSince(m, events, n);
    }
  }

  /**
   * What is shown is alive: the waveform always, the audio whenever no load is on its way, and while
   * one is, unless other audio revoked it and nothing has renewed it since.
   */
  lemma {:induction false} ShownUrlsAreHeld(m: Media, events: seq<Event>)
    ensures var s := Run(Mounted(m), events);
            s.mounted ==>
              && (s.shown.waveform.Some? ==> s.shown.waveform.value in s.urls)
              && (!s.busy && s.shown.src.Some? && s.shown.src.value.Blob? ==> s.shown.src.value.url in s.urls)
              && (s.shown.src.Some? && s.shown.src.value.Blob? ==>
                    (s.shown.src.value.url in s.urls <==> !exists k :: RevokedSince(m, events, k)))
  {
    RunKeepsInv(m, events);
    SrcRevokedIff(m, events);
  }

  /** A run in which that happens: while the load of other audio is on its way. */
  lemma BusySrcMayBeRevoked(a: Media, b: Media)
    requires a.Audio? && b.Audio? && IdentityOf(a) != IdentityOf(b)
    ensures var s := Run(Mounted(a), [Replied(0, Window(0.0, 1.0, true, false)), MediaChanged(b)]);
            s.busy && s.shown.src == Some(Blob(0)) && 0 in s.env.revoked
  {
    var events := [Replied(0, Window(0.0, 1.0, true, false)), MediaChanged(b)];
    assert events[..1] == [events[0]] && events[..1][..0] == [];
    assert Run(Mounted(a), events[..1]) == Step(Mounted(a), events[0]);
    assert Run(Mounted(a), events[..1]).urls == [0];
  }

  // ---- What is asked for, and what is shown ----

  /** One request more: the only live one, for this position of the media and batch that are current now. */
  ghost predicate AskedFor(s: Transport, t: Transport, position: real, batch: int, autoplay: bool) {
    && t.env.sent == s.env.sent + [Request(IdentityOf(t.media), position, batch)]
    && t.batch == batch && t.time == position && t.resume == autoplay && t.busy
    && Live(t, |s.env.sent|) && forall r :: Live(t, r) ==> r == |s.env.sent|
  }

  /** A position that a slider may ask for: the one it is at, but not the last 0.01 s. */
  ghost predicate ScrubbedTo(p: real, duration: real, position: real) {
    if p <= 0.0 || p <= duration - 0.01 then position == p
    else position == if duration >= 0.01 then duration - 0.01 else 0.0
  }

  lemma LoadAsks(s: Transport, position: real, batch: int, autoplay: bool)
    requires s.media.Audio? && batch == s.batch
    requires forall r | r in s.env.unsettled :: r < |s.env.sent|
    requires forall r | r in s.env.aborted :: r < |s.env.sent|
    requires forall r | r in s.env.unsettled && r !in s.env.aborted :: s.abort == Some(r)
    requires s.abort.Some? ==> s.abort.value < |s.env.sent|
    ensures AskedFor(s, Loaded(s, position, batch, autoplay), position, batch, autoplay)
  {
  }

  /** From every reachable state the slider, the batch buttons and playing again ask for the window they stand for. */
  lemma ButtonsAsk(m: Media, events: seq<Event>, e: Event)
    requires Enabled(Run(Mounted(m), events), e)
    ensures var s := Run(Mounted(m), events);
            var t := Step(s, e);
            match e
            case Scrubbed(p) =>
              if s.media.Plain? then t == s
              else exists position :: ScrubbedTo(p, s.media.duration, position) && AskedFor(s, t, position, s.batch, s.playing || s.resume)
            case BatchPicked(b) => AskedFor(s, t, 0.0, b, false)
            case PlayAgain => AskedFor(s, t, 0.0, s.batch, true)
            case _ => true
  {
    var s := Run(Mounted(m), events);
    RunKeepsInv(m, events);
    match e
    case Scrubbed(p) =>
      if s.media.Audio? {
        var position := RealMin(p, RealMax(0.0, s.media.duration - 0.01));
        assert ScrubbedTo(p, s.media.duration, position);
        LoadAsks(s, position, s.batch, s.playing || s.resume);
      }
    case BatchPicked(b) => LoadAsks(s.(batch := b), 0.0, b, false);
    case PlayAgain => LoadAsks(s, 0.0, s.batch, true);
    case _ =>
  }

  /** Other audio is asked for from its start and with its own first batch; a plain source is linked, with nothing asked for. */
  lemma OtherMediaStartOver(m: Media, events: seq<Event>, other: Media)
    requires Run(Mounted(m), events).mounted
    ensures var s := Run(Mounted(m), events);
            var t := Step(s, MediaChanged(other));
            if IdentityOf(other) == IdentityOf(s.media) then t == s.(media := other)
            else
              && t.media == other && t.loop == s.loop && !t.playing && !t.resume && t.time == 0.0 && t.nativeDuration == 0.0
              && t.shown.waveform == None && t.shown.start == 0.0 && t.shown.span == 0.0
              && if other.Audio? then AskedFor(s, t, 0.0, other.initialBatch, false)
                 else && t.env.sent == s.env.sent && t.batch == 0 && !t.busy && (forall r :: !Live(t, r))
                      && t.shown.src == if other.link == "" then None else Some(Link(other.link))
  {
    var s := Run(Mounted(m), events);
    RunKeepsInv(m, events);
    if IdentityOf(other) != IdentityOf(s.media) && other.Audio? {
      var r := Cleared(Released(AbortCurrent(s.(media := other))));
      LoadAsks(r, 0.0, r.batch, false);
    }
  }

  /** Where the window on show ends: it plays for its span, or for less when the element reports less. */
  ghost predicate EndsAt(s: Transport, next: real) {
    next == s.shown.start + if s.nativeDuration == 0.0 || s.shown.span < s.nativeDuration then s.shown.span else s.nativeDuration
  }

  /** At first nothing is shown but a plain source, and audio is asked for from its start with its own first batch. */
  lemma MountedStartsOver(m: Media)
    ensures var t := Mounted(m);
            && t.media == m && t.mounted && !t.playing && !t.loop && !t.resume && t.time == 0.0 && t.nativeDuration == 0.0
            && t.urls == [] && t.shown == Shown(0.0, 0.0, if m.Plain? && m.link != "" then Some(Link(m.link)) else None, None)
            && t.busy == m.Audio? && t.batch == (if m.Audio? then m.initialBatch else 0)
            && t.env.sent == if m.Audio? then [Request(m.identity, 0.0, m.initialBatch)] else []
  {
  }

  /** The end of a window asks for what follows it, from 0 again when looping, and otherwise for nothing. */
  lemma EndAsksForTheRest(s: Transport, next: real)
    requires Inv(s) && s.mounted && EndsAt(s, next)
    ensures var t := Step(s, EndReached);
            if s.media.Audio? && s.media.duration > next + 0.01 then AskedFor(s, t, next, s.batch, true) && !t.playing
            else if s.media.Audio? && s.loop then AskedFor(s, t, 0.0, s.batch, true) && !t.playing
            else t == s.(playing := false)
  {
    var stopped := s.(playing := false);
    assert NextStart(s) == next;
    if s.media.Audio? {
      LoadAsks(stopped, next, s.batch, true);
      LoadAsks(stopped, 0.0, s.batch, true);
    }
  }

  /** Each part that a window has is shown under a URL of its own that was never used before. */
  ghost predicate ShowsWindow(s: Transport, t: Transport, w: Window) {
    && t.shown.start == w.start && t.shown.span == w.duration && !t.busy
    && (w.audio <==> t.shown.src.Some?) && (w.waveform <==> t.shown.waveform.Some?)
    && (w.audio ==> t.shown.src.value.Blob? && s.env.made <= t.shown.src.value.url && t.shown.src.value.url in t.urls)
    && (w.waveform ==> s.env.made <= t.shown.waveform.value && t.shown.waveform.value in t.urls)
    && (w.audio && w.waveform ==> t.shown.src.value.url != t.shown.waveform.value)
    && (forall u :: u in s.urls ==> u in t.env.revoked)
  }

  /** A live reply is shown, and asks for nothing; a late one changes nothing. */
  lemma RepliesAreShown(s: Transport, r: nat, w: Window)
    requires Enabled(s, Replied(r, w))
    ensures var t := Step(s, Replied(r, w));
            && t.env.sent == s.env.sent
            && if Live(s, r) then ShowsWindow(s, t, w) && t == s.(shown := t.shown, urls := t.urls, busy := false, env := t.env)
               else t == s.(env := s.env.(unsettled := s.env.unsettled - {r}))
  {
  }

  /** A live failure and the deadline clear the source and end the waiting. */
  lemma FailuresAreShown(s: Transport, r: nat)
    requires Enabled(s, LoadFailed(r))
    ensures Step(s, LoadFailed(r)) ==
              s.(env := s.env.(unsettled := s.env.unsettled - {r}),
                 busy := if Live(s, r) then false else s.busy,
                 shown := if Live(s, r) then s.shown.(src := None) else s.shown)
    ensures Live(s, r) ==>
              Step(s, DeadlineFired(r)) ==
                s.(env := s.env.(aborted := s.env.aborted + {r}), busy := false, resume := false,
                   shown := s.shown.(src := None))
  {
  }

  /** The element's own events and the loop switch set what they report. */
  lemma ReportsAreKept(s: Transport, e: Event)
    requires s.mounted
    ensures match e
            case LoopToggled(loop) => Step(s, e) == s.(loop := loop)
            case PlayingChanged(playing) => Step(s, e) == s.(playing := playing)
            case MetadataLoaded(d) => Step(s, e) == s.(nativeDuration := d, resume := false)
            case TimeUpdated(at) => Step(s, e) == s.(time := if s.busy then s.time else s.shown.start + at)
            case _ => true
  {
  }

  // ---- Playing a long timeline window by window ----

  /** One window's reply, and the native duration the element then reports. */
  datatype Play = Play(window: Window, native: real)

  /** How much of the timeline a window plays. */
  function Length(p: Play): real {
    RealMin(p.window.duration, if p.native == 0.0 then p.window.duration else p.native)
  }

  /** Mounted on audio with looping off, waiting for the newest request. */
  ghost predicate Waiting(s: Transport) {
    s.mounted && s.media.Audio? && !s.loop && s.env.sent != [] && Live(s, |s.env.sent| - 1)
  }

  function Asked(s: Transport): real
    requires s.env.sent != []
  {
    s.env.sent[|s.env.sent| - 1].position
  }

  /** The reply arrives, the element reports its metadata and plays to the end. */
  function Cycle(s: Transport, p: Play): Transport
    requires s.env.sent != []
  {
    Step(Step(Step(s, Replied(|s.env.sent| - 1, p.window)), MetadataLoaded(p.native)), EndReached)
  }

  /** `n` windows played, each answered by `reply` at the position that was asked for. */
  ghost function Played(s: Transport, reply: real -> Play, n: nat): Transport {
    if n == 0 then s else
    var before := Played(s, reply, n - 1);
    if Waiting(before) then Cycle(before, reply(Asked(before))) else before
  }

  /** Every window starts where it was asked to and plays at least `least`. */
  ghost predicate Plays(reply: real -> Play, least: real) {
    least > 0.0 && forall at: real :: reply(at).window.start == at && Length(reply(at)) >= least
  }

  /** `t` is `s` one window later: it asked for the next window, or the timeline is over. */
  ghost predicate Advanced(s: Transport, p: Play, t: Transport)
    requires s.env.sent != [] && s.media.Audio?
  {
    var next := Asked(s) + Length(p);
    && Inv(t) && t.media == s.media
    && (if s.media.duration > next + 0.01
        then Waiting(t) && t.env.sent == s.env.sent + [Request(IdentityOf(s.media), next, s.batch)]
        else !Waiting(t) && !t.busy && t.env.sent == s.env.sent)
  }

  lemma CycleAdvances(s: Transport, p: Play)
    requires Waiting(s) && Inv(s) && p.window.start == Asked(s)
    ensures Advanced(s, p, Cycle(s, p))
  {
    var last := |s.env.sent| - 1;
    var t1 := Step(s, Replied(last, p.window));
    StepKeepsInv(s, Replied(last, p.window));
    assert t1 == Answered(s, last, p.window);
    var t2 := Step(t1, MetadataLoaded(p.native));
    StepKeepsInv(t1, MetadataLoaded(p.native));
    StepKeepsInv(t2, EndReached);
    assert NextStart(t2) == Asked(s) + Length(p);
  }

  /** The requests from the `first` on are contiguous: each starts where its predecessor's window ended. */
  ghost predicate Contiguous(sent: seq<Request>, first: nat, reply: real -> Play) {
    forall k :: first <= k < |sent| - 1 ==> sent[k + 1].position == sent[k].position + Length(reply(sent[k].position))
  }

  /** `t` is `s` after at most `n` windows of at least `least` seconds each. */
  ghost predicate PlayedOn(s: Transport, reply: real -> Play, least: real, n: nat, t: Transport)
    requires s.env.sent != [] && s.media.Audio?
  {
    && Inv(t) && t.media == s.media
    && |s.env.sent| <= |t.env.sent| <= |s.env.sent| + n
    && Contiguous(t.env.sent, |s.env.sent| - 1, reply)
    && (if Waiting(t)
        then Asked(t) >= Asked(s) + n as real * least && (n > 0 ==> s.media.duration > Asked(t) + 0.01)
        else s.media.duration <= Asked(t) + Length(reply(Asked(t))) + 0.01 && !t.busy)
  }

  lemma ContiguousExtends(sent: seq<Request>, first: nat, reply: real -> Play, r: Request)
    requires sent != [] && Contiguous(sent, first, reply)
    requires var last := sent[|sent| - 1].position; r.position == last + Length(reply(last))
    ensures Contiguous(sent + [r], first, reply)
  {
  }

  lemma Scaled(n: nat, least: real)
    ensures (n + 1) as real * least == n as real * least + least
  {
  }

  lemma PlayedOnFurther(s: Transport, reply: real -> Play, least: real, n: nat, before: Transport, t: Transport)
    requires Waiting(s) && Waiting(before) && Plays(reply, least) && PlayedOn(s, reply, least, n, before)
    requires Advanced(before, reply(Asked(before)), t)
    ensures PlayedOn(s, reply, least, n + 1, t)
  {
    var played, further := n as real * least, (n + 1) as real * least;
    Scaled(n, least);
    assert further == played + least;
    assert Length(reply(Asked(before))) >= least;
    if s.media.duration > Asked(before) + Length(reply(Asked(before))) + 0.01 {
      ContiguousExtends(before.env.sent, |s.env.sent| - 1, reply, t.env.sent[|before.env.sent|]);
      assert Asked(t) >= Asked(s) + further;
    }
  }

  lemma {:induction false} PlayedAdvances(s: Transport, reply: real -> Play, least: real, n: nat)
    requires Waiting(s) && Inv(s) && Plays(reply, least)
    ensures PlayedOn(s, reply, least, n, Played(s, reply, n))
  {
    if n > 0 {
      PlayedAdvances(s, reply, least, n - 1);
      var before := Played(s, reply, n - 1);
      if Waiting(before) {
        CycleAdvances(before, reply(Asked(before)));
        PlayedOnFurther(s, reply, least, n - 1, before, Cycle(before, reply(Asked(before))));
      }
    }
  }

  /**
   * With looping off, playback asks for contiguous windows and stops by itself: after at most
   * (duration - first position) / least windows nothing more is asked for, and what was played
   * reaches within 0.01 s of the end.
   */
  lemma {:induction false} AutoAdvanceFinishes(s: Transport, reply: real -> Play, least: real, n: nat)
    requires Waiting(s) && Inv(s) && Plays(reply, least)
    requires n > 0 && n as real * least >= s.media.duration - Asked(s)
    ensures var t := Played(s, reply, n);
            && !Waiting(t) && !t.busy && t.env.sent != []
            && |t.env.sent| <= |s.env.sent| + n
            && Contiguous(t.env.sent, |s.env.sent| - 1, reply)
            && s.media.duration - (Asked(t) + Length(reply(Asked(t)))) <= 0.01
  {
    PlayedAdvances(s, reply, least, n);
  }

  /** Contiguous windows of positive length move strictly forward. */
  lemma {:induction false} PositionsIncrease(sent: seq<Request>, first: nat, reply: real -> Play, least: real, j: nat, k: nat)
    requires Contiguous(sent, first, reply) && Plays(reply, least) && first <= j < k < |sent|
    ensures sent[j].position < sent[k].position
    decreases k - j
  {
    assert sent[j + 1].position == sent[j].position + Length(reply(sent[j].position));
    if j + 1 < k {
      PositionsIncrease(sent, first, reply, least, j + 1, k);
    }
  }

  // ---- The component, with its own variables ----

  class Player {
    var media: Media
    var abort: Option<nat>
    var shown: Shown
    var urls: seq<nat>
    var resume: bool
    var time: real
    var nativeDuration: real
    var playing: bool
    var busy: bool
    var batch: int
    var loop: bool
    ghost var mounted: bool
    ghost var env: Env

    ghost function View(): Transport
      reads this
    {
      Transport(media, abort, shown, urls, resume, time, nativeDuration, playing, busy,
                batch, loop, mounted, env)
    }

    /** The effect on the identity also runs once when the component is made. */
    constructor (m: Media)
      ensures View() == Mounted(m) && Inv(View())
    {
      media, abort, shown, urls := m, None, Shown(0.0, 0.0, None, None), [];
      resume, time, nativeDuration, playing, busy := false, 0.0, 0.0, false, false;
      batch, loop, mounted := 0, false, true;
      env := Env([], {}, {}, 0, {});
      new;
      RunKeepsInv(m, []);
      IdentityChanges(0);
    }

    method AbortLoad()
      modifies this`env
      ensures View() == AbortCurrent(old(View()))
    {
      env := env.(aborted := env.aborted + SetOf(abort));
    }

    /** Revokes the object URLs one by one. */
    method Release()
      modifies this
      ensures View() == Released(old(View()))
    {
      ghost var before := env;
      for i := 0 to |urls|
        invariant urls == old(urls) && env == before.(revoked := before.revoked + (set u | u in urls[..i]))
        invariant View() == old(View()).(env := env)
      {
        assert urls[..i + 1] == urls[..i] + [urls[i]];
        env := env.(revoked := env.revoked + {urls[i]});
      }
      assert urls[..|urls|] == urls;
      urls := [];
    }

    /** `request` is the new controller. */
    method Load(position: real, selectedBatch: int, autoplay: bool, request: nat)
      requires request == |env.sent|
      modifies this
      ensures View() == Loaded(old(View()), position, selectedBatch, autoplay)
    {
      if media.Plain? {
        return;
      }
      AbortLoad();
      abort := Some(request);
      resume := autoplay;
      busy := true;
      time := position;
      env := env.(sent := env.sent + [Request(IdentityOf(media), position, selectedBatch)],
                  unsettled := env.unsettled + {request});
    }

    /** `newUrl` is the next object URL the browser would make; `aborted` is the request's own signal. */
    method Reply(request: nat, aborted: bool, w: Window, newUrl: nat)
      requires aborted <==> request in env.aborted
      requires newUrl == env.made
      modifies this
      ensures View() == Answered(old(View()), request, w)
    {
      env := env.(unsettled := env.unsettled - {request});
      if aborted {
        return;
      }
      Release();
      Present(w, newUrl);
    }

    /** Shows a window, making one object URL for each part that it has. */
    method Present(w: Window, newUrl: nat)
      requires newUrl == env.made
      modifies this
      ensures View() == Presented(old(View()), w)
    {
      var src, waveform, next := None, None, newUrl;
      var held := [];
      if w.audio {
        src := Some(Blob(next));
        held := [next];
        next := next + 1;
      }
      if w.waveform {
        waveform := Some(next);
        held := held + [next];
        next := next + 1;
      }
      shown := Shown(w.start, w.duration, src, waveform);
      urls := held;
      busy := false;
      env := env.(made := next);
    }

    method LoadFails(request: nat, aborted: bool)
      requires aborted <==> request in env.aborted
      modifies this
      ensures View() == Failed(old(View()), request)
    {
      env := env.(unsettled := env.unsettled - {request});
      if !aborted {
        shown := shown.(src := None);
        busy := false;
      }
    }

    method DeadlineFires(request: nat)
      modifies this
      ensures View() == TimedOut(old(View()), request)
    {
      env := env.(aborted := env.aborted + {request});
      resume := false;
      shown := shown.(src := None);
      busy := false;
    }

    method Reset()
      modifies this
      ensures View() == Cleared(old(View()))
    {
      batch := if media.Audio? then media.initialBatch else 0;
      time := 0.0;
      nativeDuration := 0.0;
      playing := false;
      shown := Shown(0.0, 0.0, shown.src, None);
      resume := false;
    }

    /** The effect on the identity of the media. */
    method IdentityChanges(request: nat)
      requires request == |env.sent|
      modifies this
      ensures View() == Replaced(old(View()))
    {
      AbortLoad();
      Release();
      Reset();
      if media.Audio? {
        Load(0.0, batch, false, request);
      } else {
        shown := shown.(src := if media.link == "" then None else Some(Link(media.link)));
        busy := false;
      }
    }

    method ChangeMedia(m: Media, request: nat)
      requires request == |env.sent| && mounted
      modifies this
      ensures View() == Step(old(View()), MediaChanged(m))
    {
      var changed := IdentityOf(m) != IdentityOf(media);
      media := m;
      if changed {
        IdentityChanges(request);
      }
    }

    method Scrub(position: real, request: nat)
      requires request == |env.sent|
      modifies this
      ensures View() == Loaded(old(View()), RealMin(position, RealMax(0.0, Duration(old(View())) - 0.01)),
                               old(batch), old(playing || resume))
    {
      var duration := if media.Audio? then media.duration else nativeDuration;
      Load(RealMin(position, RealMax(0.0, duration - 0.01)), batch, playing || resume, request);
    }

    method PlaybackEnds(request: nat)
      requires request == |env.sent|
      modifies this
      ensures View() == Ended(old(View()))
    {
      playing := false;
      if media.Plain? {
        return;
      }
      var next := shown.start + RealMin(shown.span, if nativeDuration == 0.0 then shown.span else nativeDuration);
      if media.duration > next + 0.01 {
        Load(next, batch, true, request);
      } else if loop {
        Load(0.0, batch, true, request);
      }
    }

    method CleanUp()
      modifies this
      ensures View() == CleanedUp(old(View()))
    {
      AbortLoad();
      Release();
      mounted := false;
    }

    /**
     * Every event is one step of the protocol and keeps what is true of every reachable transport.
     * `request` is the next controller, `newUrl` the next object URL, and `aborted` the signal of the
     * request that comes back.
     */
    method Handle(e: Event, request: nat, newUrl: nat, aborted: bool)
      requires Inv(View()) && Enabled(View(), e)
      requires request == |env.sent| && newUrl == env.made
      requires e.Replied? || e.LoadFailed? ==> (aborted <==> e.request in env.aborted)
      modifies this
      ensures View() == Step(old(View()), e) && Inv(View())
    {
      StepKeepsInv(View(), e);
      match e
      case MediaChanged(m) => ChangeMedia(m, request);
      case Scrubbed(p) => Scrub(p, request);
      case BatchPicked(b) =>
        batch := b;
        Load(0.0, b, false, request);
      case PlayAgain => Load(0.0, batch, true, request);
      case LoopToggled(on) => loop := on;
      case PlayingChanged(on) => playing := on;
      case MetadataLoaded(d) => nativeDuration, resume := d, false;
      case TimeUpdated(t) =>
        if !busy {
          time := shown.start + t;
        }
      case EndReached => PlaybackEnds(request);
      case Replied(r, w) => Reply(r, aborted, w, newUrl);
      case LoadFailed(r) => LoadFails(r, aborted);
      case DeadlineFired(r) => DeadlineFires(r);
      case Unmounted => CleanUp();
    }
  }
}
