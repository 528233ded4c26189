/**
 * The options of remote choice rows in the App view (`remoteFor`, `loadRemoteOptions`,
 * packages/app/src/AppView.tsx): fetched on focus through the row's client, kept per row, shown only for
 * the row's present client, route and authority.
 */
module RemoteOptions {
  import opened Prelude

  datatype Key = Key(text: string)

  datatype Options = Options(labels: seq<string>)

  /** What a row would fetch from: a client and a route. An empty route fetches but never shows. */
  datatype Present = Present(client: nat, route: Id)

  datatype Source = Source(client: nat, route: Id, authority: nat)

  datatype RemoteState =
    | Loading(source: Source, kept: Option<Options>)
    | Ready(source: Source, options: Options)
    | Stale(source: Source, options: Options)
    | Unavailable(source: Source)

  /** The component's variables. `aborts` names each row's controller by the request it belongs to. */
  datatype Vars = Vars(combos: map<Key, RemoteState>, tokens: map<Key, nat>, aborts: map<Key, nat>, live: bool)

  /** A fetch: what it was started with, and what became of it. */
  datatype Request = Request(key: Key, token: nat, source: Source, previous: Option<Options>,
                             aborted: bool, settled: bool, reply: Option<Options>)

  /** Every request so far, the clients' authorities, and what each row would fetch from now. */
  datatype Env = Env(requests: seq<Request>, authority: map<nat, nat>, present: map<Key, Present>)

  datatype State = State(vars: Vars, env: Env)

  datatype Event =
    | Focus(key: Key)
    | Replied(request: nat, options: Options)
    | Failed(request: nat)
    | AuthorityMoved(client: nat)
    | RowChanged(key: Key, present: Present)
    | Unmounted

  // ---- Reading ----

  function AuthorityOf(env: Env, client: nat): nat {
    if client in env.authority then env.authority[client] else 0
  }

  function SourceOf(env: Env, present: Present): Source {
    Source(present.client, present.route, AuthorityOf(env, present.client))
  }

  /** The options a state carries. */
  function OptionsOf(state: RemoteState): Option<Options> {
    match state
    case Loading(_, kept) => kept
    case Ready(_, options) => Some(options)
    case Stale(_, options) => Some(options)
    case Unavailable(_) => None
  }

  function RemoteFor(s: State, key: Key): Option<RemoteState> {
    if key in s.env.present && s.env.present[key].route.text != "" && key in s.vars.combos
       && s.vars.combos[key].source == SourceOf(s.env, s.env.present[key])
    then Some(s.vars.combos[key]) else None
  }

  // ---- The component's functions, on values ----

  /** Options survive into a new fetch only from a settled success or a stale state that still shows. */
  function KeptOptions(previous: Option<RemoteState>): Option<Options> {
    if previous.Some? && (previous.value.Ready? || previous.value.Stale?) then Some(previous.value.options) else None
  }

  function Token(v: Vars, key: Key): nat {
    if key in v.tokens then v.tokens[key] else 0
  }

  function Aborted(requests: seq<Request>, i: nat): (r: seq<Request>)
    ensures |r| == |requests|
  {
    if i < |requests| then requests[i := requests[i].(aborted := true)] else requests
  }

  /** The requests after a new one: the row's one before is aborted. */
  function WithRequest(v: Vars, requests: seq<Request>, key: Key, source: Source, kept: Option<Options>): seq<Request> {
    (if key in v.aborts then Aborted(requests, v.aborts[key]) else requests)
    + [Request(key, Token(v, key) + 1, source, kept, false, false, None)]
  }

  function Waiting(v: Vars, key: Key, source: Source, kept: Option<Options>, request: nat): Vars {
    v.(combos := v.combos[key := Loading(source, kept)],
       tokens := v.tokens[key := Token(v, key) + 1],
       aborts := v.aborts[key := request])
  }

  function Loaded(s: State, key: Key): State
    requires key in s.env.present
  {
    if RemoteFor(s, key).Some? && RemoteFor(s, key).value.Loading? then s else
    var source := SourceOf(s.env, s.env.present[key]);
    var kept := KeptOptions(RemoteFor(s, key));
    State(Waiting(s.vars, key, source, kept, |s.env.requests|),
          s.env.(requests := WithRequest(s.vars, s.env.requests, key, source, kept)))
  }

  /** The reply's request is the row's newest, and the component is still there. */
  predicate Heard(v: Vars, r: Request) {
    v.live && r.key in v.tokens && v.tokens[r.key] == r.token
  }

  /** The request with its reply, if any. */
  function Settled(requests: seq<Request>, i: nat, reply: Option<Options>): (r: seq<Request>)
    requires i < |requests|
    ensures |r| == |requests|
    ensures forall k :: 0 <= k < |r| ==> r[k] == if k == i then requests[i].(settled := true, reply := reply) else requests[k]
  {
    requests[i := requests[i].(settled := true, reply := reply)]
  }

  function Succeeded(s: State, i: nat, options: Options): State
    requires i < |s.env.requests|
  {
    var r := s.env.requests[i];
    var t := s.(env := s.env.(requests := Settled(s.env.requests, i, Some(options))));
    if !Heard(s.vars, r) || AuthorityOf(s.env, r.source.client) != r.source.authority then t else
    t.(vars := s.vars.(combos := s.vars.combos[r.key := Ready(r.source, options)]))
  }

  function Refused(s: State, i: nat): State
    requires i < |s.env.requests|
  {
    var r := s.env.requests[i];
    var t := s.(env := s.env.(requests := Settled(s.env.requests, i, None)));
    if !Heard(s.vars, r) then t else
    var state := if r.previous.Some? then Stale(r.source, r.previous.value) else Unavailable(r.source);
    t.(vars := s.vars.(combos := s.vars.combos[r.key := state]))
  }

  function AllAborted(v: Vars, requests: seq<Request>): (r: seq<Request>)
    ensures |r| == |requests|
    ensures forall i :: 0 <= i < |r| ==>
              r[i] == if i in v.aborts.Values then requests[i].(aborted := true) else requests[i]
  {
    seq(|requests|, i requires 0 <= i < |requests| =>
      if i in v.aborts.Values then requests[i].(aborted := true) else requests[i])
  }

  function Gone(s: State): State {
    State(s.vars.(live := false), s.env.(requests := AllAborted(s.vars, s.env.requests)))
  }

  // ---- One atomic step ----

  predicate Enabled(s: State, e: Event) {
    match e
    case Focus(key) => s.vars.live && key in s.env.present
    case Replied(i, _) => i < |s.env.requests| && !s.env.requests[i].settled
    case Failed(i) => i < |s.env.requests| && !s.env.requests[i].settled
    case AuthorityMoved(_) => true
    case RowChanged(_, _) => true
    case Unmounted => s.vars.live
  }

  function Step(s: State, e: Event): State {
    if !Enabled(s, e) then s else
    match e
    case Focus(key) => Loaded(s, key)
    case Replied(i, options) => Succeeded(s, i, options)
    case Failed(i) => Refused(s, i)
    case AuthorityMoved(client) =>
      s.(env := s.env.(authority := s.env.authority[client := AuthorityOf(s.env, client) + 1]))
    case RowChanged(key, present) => s.(env := s.env.(present := s.env.present[key := present]))
    case Unmounted => Gone(s)
  }

  function Run(events: seq<Event>): State {
    if events == [] then State(Vars(map[], map[], map[], true), Env([], map[], map[]))
    else Step(Run(events[..|events| - 1]), events[|events| - 1])
  }

  // ---- What is true of every reachable state ----

  /** A row's controller belongs to its last request, which has the row's token. */
  ghost predicate Held(v: Vars, requests: seq<Request>, key: Key)
    requires key in v.aborts
  {
    v.aborts[key] < |requests| && requests[v.aborts[key]].key == key
  }

  /** Every other request of the row is older and aborted. */
  ghost predicate Filed(v: Vars, r: Request, i: nat) {
    && r.key in v.aborts && r.key in v.tokens
    && if v.aborts[r.key] == i then r.token == v.tokens[r.key] && (v.live ==> !r.aborted)
       else i < v.aborts[r.key] && r.token < v.tokens[r.key] && r.aborted
  }

  ghost predicate NewestInv(v: Vars, requests: seq<Request>) {
    && v.aborts.Keys == v.tokens.Keys == v.combos.Keys
    && (forall key :: key in v.aborts ==> Held(v, requests, key))
    && (forall i :: 0 <= i < |requests| ==> Filed(v, requests[i], i))
  }

  /** Every row's state is about its newest request's source. */
  ghost predicate ComboInv(v: Vars, requests: seq<Request>)
    requires NewestInv(v, requests)
  {
    forall key :: key in v.combos ==> Held(v, requests, key) && v.combos[key].source == requests[v.aborts[key]].source
  }

  /** The request is unanswered, or its source's authority has moved on. */
  ghost predicate Unresolved(env: Env, r: Request) {
    !r.settled || AuthorityOf(env, r.source.client) != r.source.authority
  }

  /** While the component is there, loading ends with its request. */
  ghost predicate LoadingInv(v: Vars, env: Env)
    requires NewestInv(v, env.requests)
  {
    v.live ==> forall key :: key in v.combos && v.combos[key].Loading? ==>
      Held(v, env.requests, key) && Unresolved(env, env.requests[v.aborts[key]])
  }

  ghost predicate AuthorityInv(env: Env) {
    forall i :: 0 <= i < |env.requests| ==> env.requests[i].source.authority <= AuthorityOf(env, env.requests[i].source.client)
  }

  /** A successful reply to a request of this row from this source. */
  ghost predicate Answered(requests: seq<Request>, key: Key, source: Source, options: Options) {
    exists i :: 0 <= i < |requests| && requests[i].key == key && requests[i].source == source
                && requests[i].reply == Some(options)
  }

  ghost predicate GenuineCombo(requests: seq<Request>, key: Key, state: RemoteState) {
    OptionsOf(state).Some? ==> Answered(requests, key, state.source, OptionsOf(state).value)
  }

  ghost predicate GenuineRequest(requests: seq<Request>, r: Request) {
    && (r.previous.Some? ==> Answered(requests, r.key, r.source, r.previous.value))
    && (r.reply.Some? ==> r.settled)
  }

  ghost predicate GenuineInv(v: Vars, requests: seq<Request>) {
    && (forall key :: key in v.combos ==> GenuineCombo(requests, key, v.combos[key]))
    && (forall i :: 0 <= i < |requests| ==> GenuineRequest(requests, requests[i]))
  }

  ghost predicate Inv(s: State) {
    && NewestInv(s.vars, s.env.requests) && ComboInv(s.vars, s.env.requests) && LoadingInv(s.vars, s.env)
    && AuthorityInv(s.env) && GenuineInv(s.vars, s.env.requests)
  }

  // ---- Starting a request ----

  lemma WithRequestAt(v: Vars, requests: seq<Request>, key: Key, source: Source, kept: Option<Options>, i: nat)
    requires i < |requests|
    ensures WithRequest(v, requests, key, source, kept)[i]
            == if key in v.aborts && v.aborts[key] == i then requests[i].(aborted := true) else requests[i]
  {
  }

  lemma RequestKeepsNewest(v: Vars, requests: seq<Request>, key: Key, source: Source, kept: Option<Options>)
    requires NewestInv(v, requests)
    ensures NewestInv(Waiting(v, key, source, kept, |requests|), WithRequest(v, requests, key, source, kept))
  {
    var v', after := Waiting(v, key, source, kept, |requests|), WithRequest(v, requests, key, source, kept);
    forall i | 0 <= i < |after|
      ensures Filed(v', after[i], i)
    {
      if i < |requests| {
        assert Filed(v, requests[i], i);
        WithRequestAt(v, requests, key, source, kept, i);
      }
    }
    forall k | k in v'.aborts
      ensures Held(v', after, k)
    {
      if k != key {
        assert Held(v, requests, k);
        WithRequestAt(v, requests, key, source, kept, v.aborts[k]);
      }
    }
  }

  lemma RequestKeepsCombos(v: Vars, env: Env, key: Key, source: Source, kept: Option<Options>)
    requires NewestInv(v, env.requests) && ComboInv(v, env.requests) && LoadingInv(v, env)
    requires NewestInv(Waiting(v, key, source, kept, |env.requests|), WithRequest(v, env.requests, key, source, kept))
    ensures var after := WithRequest(v, env.requests, key, source, kept);
            && ComboInv(Waiting(v, key, source, kept, |env.requests|), after)
            && LoadingInv(Waiting(v, key, source, kept, |env.requests|), env.(requests := after))
  {
    var v', after := Waiting(v, key, source, kept, |env.requests|), WithRequest(v, env.requests, key, source, kept);
    forall k | k in v'.combos
      ensures Held(v', after, k) && v'.combos[k].source == after[v'.aborts[k]].source
      ensures v.live && v'.combos[k].Loading? ==> Unresolved(env.(requests := after), after[v'.aborts[k]])
    {
      if k != key {
        assert Held(v, env.requests, k);
        WithRequestAt(v, env.requests, key, source, kept, v.aborts[k]);
      }
    }
  }

  lemma RequestKeepsAuthority(v: Vars, env: Env, key: Key, source: Source, kept: Option<Options>)
    requires AuthorityInv(env) && source.authority <= AuthorityOf(env, source.client)
    ensures AuthorityInv(env.(requests := WithRequest(v, env.requests, key, source, kept)))
  {
    var after := WithRequest(v, env.requests, key, source, kept);
    forall i | 0 <= i < |after|
      ensures after[i].source.authority <= AuthorityOf(env, after[i].source.client)
    {
      if i < |env.requests| {
        WithRequestAt(v, env.requests, key, source, kept, i);
      }
    }
  }

  /** Later requests agree with earlier ones on everything a reply was given for. */
  ghost predicate Extends(before: seq<Request>, after: seq<Request>) {
    && |before| <= |after|
    && (forall i :: 0 <= i < |before| ==>
          && after[i].key == before[i].key && after[i].source == before[i].source && after[i].previous == before[i].previous
          && (before[i].reply.Some? ==> after[i].reply == before[i].reply)
          && (before[i].settled ==> after[i].settled))
  }

  lemma StillAnswered(before: seq<Request>, after: seq<Request>, key: Key, source: Source, options: Options)
    requires Extends(before, after) && Answered(before, key, source, options)
    ensures Answered(after, key, source, options)
  {
    var i :| 0 <= i < |before| && before[i].key == key && before[i].source == source && before[i].reply == Some(options);
    assert after[i].reply == Some(options);
  }

  lemma StillGenuine(before: seq<Request>, after: seq<Request>, key: Key, state: RemoteState)
    requires Extends(before, after) && GenuineCombo(before, key, state)
    ensures GenuineCombo(after, key, state)
  {
    if OptionsOf(state).Some? {
      StillAnswered(before, after, key, state.source, OptionsOf(state).value);
    }
  }

  /** What was genuine stays so; a new state and new replies have to be. */
  lemma GenuineExtends(v: Vars, before: seq<Request>, v': Vars, after: seq<Request>, key: Key)
    requires GenuineInv(v, before) && Extends(before, after)
    requires forall k :: k in v'.combos && k != key ==> k in v.combos && v'.combos[k] == v.combos[k]
    requires key in v'.combos ==> GenuineCombo(after, key, v'.combos[key])
    requires forall i :: 0 <= i < |after| ==> after[i].reply.Some? ==> after[i].settled
    requires forall i :: |before| <= i < |after| ==> GenuineRequest(after, after[i])
    ensures GenuineInv(v', after)
  {
    forall k | k in v'.combos
      ensures GenuineCombo(after, k, v'.combos[k])
    {
      if k != key {
        StillGenuine(before, after, k, v.combos[k]);
      }
    }
    forall i | 0 <= i < |after|
      ensures GenuineRequest(after, after[i])
    {
      if i < |before| && before[i].previous.Some? {
        assert GenuineRequest(before, before[i]);
        StillAnswered(before, after, before[i].key, before[i].source, before[i].previous.value);
      }
    }
  }

  lemma RequestExtends(v: Vars, requests: seq<Request>, key: Key, source: Source, kept: Option<Options>)
    ensures Extends(requests, WithRequest(v, requests, key, source, kept))
  {
    forall i | 0 <= i < |requests|
      ensures var r := WithRequest(v, requests, key, source, kept)[i]; r == requests[i].(aborted := r.aborted)
    {
      WithRequestAt(v, requests, key, source, kept, i);
    }
  }

  lemma RequestKeepsGenuine(v: Vars, requests: seq<Request>, key: Key, source: Source, kept: Option<Options>)
    requires GenuineInv(v, requests)
    requires kept.Some? ==> Answered(requests, key, source, kept.value)
    ensures GenuineInv(Waiting(v, key, source, kept, |requests|), WithRequest(v, requests, key, source, kept))
  {
    var v', after := Waiting(v, key, source, kept, |requests|), WithRequest(v, requests, key, source, kept);
    RequestExtends(v, requests, key, source, kept);
    if kept.Some? {
      StillAnswered(requests, after, key, source, kept.value);
    }
    forall i | 0 <= i < |after|
      ensures after[i].reply.Some? ==> after[i].settled
    {
      if i < |requests| {
        assert GenuineRequest(requests, requests[i]);
        WithRequestAt(v, requests, key, source, kept, i);
      }
    }
    GenuineExtends(v, requests, v', after, key);
  }

  lemma LoadKeepsInv(s: State, key: Key)
    requires Inv(s) && key in s.env.present
    ensures Inv(Loaded(s, key))
  {
    var source, kept := SourceOf(s.env, s.env.present[key]), KeptOptions(RemoteFor(s, key));
    RequestKeepsNewest(s.vars, s.env.requests, key, source, kept);
    RequestKeepsCombos(s.vars, s.env, key, source, kept);
    RequestKeepsAuthority(s.vars, s.env, key, source, kept);
    assert kept.Some? ==> GenuineCombo(s.env.requests, key, s.vars.combos[key]);
    RequestKeepsGenuine(s.vars, s.env.requests, key, source, kept);
  }

  // ---- A reply ----

  lemma NewestIsHeard(v: Vars, requests: seq<Request>, i: nat)
    requires NewestInv(v, requests) && i < |requests|
    ensures Heard(v, requests[i]) <==> v.live && v.aborts[requests[i].key] == i
  {
    assert Filed(v, requests[i], i);
  }

  /** Replies change neither which request is a row's newest, nor the rows that have one. */
  ghost predicate SameFiling(v: Vars, before: seq<Request>, v': Vars, after: seq<Request>) {
    && v'.aborts == v.aborts && v'.tokens == v.tokens && v'.live == v.live && v'.combos.Keys == v.combos.Keys
    && |after| == |before|
    && (forall i :: 0 <= i < |before| ==>
          && after[i].key == before[i].key && after[i].token == before[i].token && after[i].source == before[i].source
          && after[i].aborted == before[i].aborted)
  }

  lemma SameFilingKeepsNewest(v: Vars, before: seq<Request>, v': Vars, after: seq<Request>)
    requires NewestInv(v, before) && SameFiling(v, before, v', after)
    ensures NewestInv(v', after)
  {
    forall i | 0 <= i < |after|
      ensures Filed(v', after[i], i)
    {
      assert Filed(v, before[i], i);
    }
    forall key | key in v'.aborts
      ensures Held(v', after, key)
    {
      assert Held(v, before, key);
    }
  }

  lemma ReplyKeepsCombos(v: Vars, env: Env, v': Vars, env': Env, key: Key)
    requires NewestInv(v, env.requests) && ComboInv(v, env.requests) && LoadingInv(v, env)
    requires SameFiling(v, env.requests, v', env'.requests) && NewestInv(v', env'.requests) && env'.authority == env.authority
    requires forall k :: k in v.combos && k != key ==> v'.combos[k] == v.combos[k]
    requires forall k :: k in v.combos && k != key && Held(v, env.requests, k) ==>
               env'.requests[v.aborts[k]] == env.requests[v.aborts[k]]
    requires key in v.combos ==>
               && v'.combos[key].source == v.combos[key].source
               && (v.live && v'.combos[key].Loading? ==>
                     Held(v, env.requests, key) && Unresolved(env, env'.requests[v.aborts[key]]))
    ensures ComboInv(v', env'.requests) && LoadingInv(v', env')
  {
    forall k | k in v'.combos
      ensures Held(v', env'.requests, k) && v'.combos[k].source == env'.requests[v'.aborts[k]].source
      ensures v'.live && v'.combos[k].Loading? ==> Unresolved(env', env'.requests[v'.aborts[k]])
    {
      assert k in v.combos && Held(v, env.requests, k);
    }
  }

  lemma SettledFiling(v: Vars, requests: seq<Request>, i: nat, reply: Option<Options>, v': Vars)
    requires NewestInv(v, requests) && i < |requests| && !requests[i].settled && GenuineInv(v, requests)
    requires v'.aborts == v.aborts && v'.tokens == v.tokens && v'.live == v.live && v'.combos.Keys == v.combos.Keys
    ensures SameFiling(v, requests, v', Settled(requests, i, reply))
    ensures NewestInv(v', Settled(requests, i, reply)) && Extends(requests, Settled(requests, i, reply))
    ensures forall k :: 0 <= k < |requests| ==> Settled(requests, i, reply)[k].reply.Some? ==> Settled(requests, i, reply)[k].settled
  {
    forall k | 0 <= k < |requests|
      ensures GenuineRequest(requests, requests[k])
    {
    }
    SameFilingKeepsNewest(v, requests, v', Settled(requests, i, reply));
  }

  lemma SettledAuthority(env: Env, i: nat, reply: Option<Options>)
    requires AuthorityInv(env) && i < |env.requests|
    ensures AuthorityInv(env.(requests := Settled(env.requests, i, reply)))
  {
    forall k | 0 <= k < |env.requests|
      ensures Settled(env.requests, i, reply)[k].source == env.requests[k].source
    {
    }
  }

  /** A reply that is not heard, or whose authority has moved, only settles its request. */
  lemma UnheardKeepsInv(s: State, i: nat, reply: Option<Options>)
    requires Inv(s) && i < |s.env.requests| && !s.env.requests[i].settled
    requires !Heard(s.vars, s.env.requests[i])
             || AuthorityOf(s.env, s.env.requests[i].source.client) != s.env.requests[i].source.authority
    ensures Inv(s.(env := s.env.(requests := Settled(s.env.requests, i, reply))))
  {
    var v, env', key := s.vars, s.env.(requests := Settled(s.env.requests, i, reply)), s.env.requests[i].key;
    NewestIsHeard(v, s.env.requests, i);
    SettledFiling(v, s.env.requests, i, reply, v);
    assert Filed(v, s.env.requests[i], i) && Held(v, s.env.requests, key);
    UnheardLoading(v, s.env, env', i, reply);
    ReplyKeepsCombos(v, s.env, v, env', key);
    SettledAuthority(s.env, i, reply);
    StillGenuine(s.env.requests, env'.requests, key, v.combos[key]);
    GenuineExtends(v, s.env.requests, v, env'.requests, key);
  }

  lemma UnheardLoading(v: Vars, env: Env, env': Env, i: nat, reply: Option<Options>)
    requires NewestInv(v, env.requests) && LoadingInv(v, env) && i < |env.requests|
    requires env' == env.(requests := Settled(env.requests, i, reply))
    requires v.aborts[env.requests[i].key] != i || !v.live
             || AuthorityOf(env, env.requests[i].source.client) != env.requests[i].source.authority
    ensures var key := env.requests[i].key;
            key in v.combos && v.live && v.combos[key].Loading? ==>
              Held(v, env.requests, key) && Unresolved(env, env'.requests[v.aborts[key]])
  {
  }

  /** A heard reply settles its request and replaces the row's state. */
  lemma HeardKeepsInv(s: State, i: nat, reply: Option<Options>, state: RemoteState)
    requires Inv(s) && i < |s.env.requests| && !s.env.requests[i].settled && Heard(s.vars, s.env.requests[i])
    requires !state.Loading? && state.source == s.env.requests[i].source
    requires GenuineCombo(Settled(s.env.requests, i, reply), s.env.requests[i].key, state)
    ensures Inv(State(s.vars.(combos := s.vars.combos[s.env.requests[i].key := state]),
                      s.env.(requests := Settled(s.env.requests, i, reply))))
  {
    var v, env', key := s.vars, s.env.(requests := Settled(s.env.requests, i, reply)), s.env.requests[i].key;
    var v' := v.(combos := v.combos[key := state]);
    NewestIsHeard(v, s.env.requests, i);
    assert Filed(v, s.env.requests[i], i) && Held(v, s.env.requests, key);
    SettledFiling(v, s.env.requests, i, reply, v');
    OthersUntouched(v, s.env.requests, i, reply);
    ReplyKeepsCombos(v, s.env, v', env', key);
    SettledAuthority(s.env, i, reply);
    GenuineExtends(v, s.env.requests, v', env'.requests, key);
  }

  lemma OthersUntouched(v: Vars, requests: seq<Request>, i: nat, reply: Option<Options>)
    requires NewestInv(v, requests) && i < |requests|
    ensures forall k :: k in v.combos && k != requests[i].key && Held(v, requests, k) ==>
              Settled(requests, i, reply)[v.aborts[k]] == requests[v.aborts[k]]
  {
  }

  lemma SuccessKeepsInv(s: State, i: nat, options: Options)
    requires Inv(s) && i < |s.env.requests| && !s.env.requests[i].settled
    ensures Inv(Succeeded(s, i, options))
  {
    var r, after := s.env.requests[i], Settled(s.env.requests, i, Some(options));
    if Heard(s.vars, r) && AuthorityOf(s.env, r.source.client) == r.source.authority {
      assert after[i].reply == Some(options);
      HeardKeepsInv(s, i, Some(options), Ready(r.source, options));
    } else {
      UnheardKeepsInv(s, i, Some(options));
    }
  }

  lemma FailureKeepsInv(s: State, i: nat)
    requires Inv(s) && i < |s.env.requests| && !s.env.requests[i].settled
    ensures Inv(Refused(s, i))
  {
    var r, after := s.env.requests[i], Settled(s.env.requests, i, None);
    if Heard(s.vars, r) {
      SettledFiling(s.vars, s.env.requests, i, None, s.vars);
      assert GenuineRequest(s.env.requests, r);
      if r.previous.Some? {
        StillAnswered(s.env.requests, after, r.key, r.source, r.previous.value);
      }
      HeardKeepsInv(s, i, None, if r.previous.Some? then Stale(r.source, r.previous.value) else Unavailable(r.source));
    } else {
      UnheardKeepsInv(s, i, None);
    }
  }

  // ---- Leaving, and changes around the view ----

  lemma GoneKeepsNewest(v: Vars, requests: seq<Request>)
    requires NewestInv(v, requests)
    ensures NewestInv(v.(live := false), AllAborted(v, requests))
  {
    var v', after := v.(live := false), AllAborted(v, requests);
    forall i | 0 <= i < |after|
      ensures Filed(v', after[i], i)
    {
      assert Filed(v, requests[i], i);
    }
    forall key | key in v'.aborts
      ensures Held(v', after, key)
    {
      assert Held(v, requests, key);
    }
  }

  lemma GoneExtends(v: Vars, requests: seq<Request>)
    requires GenuineInv(v, requests)
    ensures Extends(requests, AllAborted(v, requests))
    ensures forall i :: 0 <= i < |requests| ==> AllAborted(v, requests)[i].reply.Some? ==> AllAborted(v, requests)[i].settled
  {
    forall i | 0 <= i < |requests|
      ensures GenuineRequest(requests, requests[i])
    {
    }
  }

  lemma GoneKeepsGenuine(v: Vars, requests: seq<Request>)
    requires GenuineInv(v, requests)
    ensures GenuineInv(v.(live := false), AllAborted(v, requests))
  {
    var v', after := v.(live := false), AllAborted(v, requests);
    GoneExtends(v, requests);
    var key := Key("");
    if key in v.combos {
      StillGenuine(requests, after, key, v.combos[key]);
    }
    GenuineExtends(v, requests, v', after, key);
  }

  lemma GoneKeepsCombos(v: Vars, env: Env)
    requires NewestInv(v, env.requests) && ComboInv(v, env.requests) && AuthorityInv(env)
    requires NewestInv(v.(live := false), AllAborted(v, env.requests))
    ensures ComboInv(v.(live := false), AllAborted(v, env.requests))
    ensures AuthorityInv(env.(requests := AllAborted(v, env.requests)))
  {
    forall key | key in v.combos
      ensures Held(v.(live := false), AllAborted(v, env.requests), key)
      ensures v.combos[key].source == AllAborted(v, env.requests)[v.aborts[key]].source
    {
      assert Held(v, env.requests, key);
    }
  }

  lemma GoneKeepsInv(s: State)
    requires Inv(s)
    ensures Inv(Gone(s))
  {
    GoneKeepsNewest(s.vars, s.env.requests);
    GoneKeepsCombos(s.vars, s.env);
    GoneKeepsGenuine(s.vars, s.env.requests);
  }

  lemma AuthorityMoveKeepsInv(s: State, client: nat)
    requires Inv(s)
    ensures Inv(Step(s, AuthorityMoved(client)))
  {
    var env' := Step(s, AuthorityMoved(client)).env;
    forall key | key in s.vars.combos && s.vars.combos[key].Loading? && s.vars.live
      ensures Held(s.vars, s.env.requests, key) && Unresolved(env', s.env.requests[s.vars.aborts[key]])
    {
      assert Unresolved(s.env, s.env.requests[s.vars.aborts[key]]);
    }
  }

  lemma StepKeepsInv(s: State, e: Event)
    requires Inv(s)
    ensures Inv(Step(s, e))
  {
    if Enabled(s, e) {
      match e
      case Focus(key) => LoadKeepsInv(s, key);
      case Replied(i, options) => SuccessKeepsInv(s, i, options);
      case Failed(i) => FailureKeepsInv(s, i);
      case Unmounted => GoneKeepsInv(s);
      case AuthorityMoved(client) => AuthorityMoveKeepsInv(s, client);
      case RowChanged(_, _) =>
    }
  }

  // ---- Main results ----

  lemma {:induction false} RunKeepsInv(events: seq<Event>)
    ensures Inv(Run(events))
  {
    if events != [] {
      RunKeepsInv(events[..|events| - 1]);
      StepKeepsInv(Run(events[..|events| - 1]), events[|events| - 1]);
    }
  }

  /** Options on show came with a successful reply to this row, from its present client, route and authority. */
  lemma {:induction false} ShownOptionsAreGenuine(events: seq<Event>, key: Key)
    requires RemoteFor(Run(events), key).Some? && OptionsOf(RemoteFor(Run(events), key).value).Some?
    ensures var s := Run(events);
            Answered(s.env.requests, key, SourceOf(s.env, s.env.present[key]), OptionsOf(RemoteFor(s, key).value).value)
  {
    RunKeepsInv(events);
  }

  /** A row that shows loading is waiting for a request of its present source that nobody has aborted. */
  lemma {:induction false} ShownLoadingIsAlive(events: seq<Event>, key: Key)
    requires Run(events).vars.live
    requires RemoteFor(Run(events), key).Some? && RemoteFor(Run(events), key).value.Loading?
    ensures var s := Run(events);
            exists i :: 0 <= i < |s.env.requests| && s.env.requests[i].key == key && !s.env.requests[i].settled
                        && !s.env.requests[i].aborted && s.env.requests[i].source == SourceOf(s.env, s.env.present[key])
  {
    RunKeepsInv(events);
    var s := Run(events);
    assert s.env.requests[s.vars.aborts[key]].key == key;
  }

  /** A reply changes what a row holds only if it answers the newest request, and then only that row. */
  lemma {:induction false} OldRepliesChangeNothing(events: seq<Event>, i: nat, e: Event)
    requires i < |Run(events).env.requests| && (e == Failed(i) || (e.Replied? && e.request == i))
    requires exists j :: i < j < |Run(events).env.requests|
                         && Run(events).env.requests[j].key == Run(events).env.requests[i].key
    ensures Step(Run(events), e).vars == Run(events).vars
  {
    RunKeepsInv(events);
    NewestIsHeard(Run(events).vars, Run(events).env.requests, i);
  }

  lemma GoneStays(s: State, e: Event)
    requires !s.vars.live
    ensures Step(s, e).vars == s.vars && |Step(s, e).env.requests| == |s.env.requests|
    ensures forall i :: 0 <= i < |s.env.requests| && s.env.requests[i].aborted ==> Step(s, e).env.requests[i].aborted
  {
  }

  lemma OnlyUnmountingEnds(s: State, e: Event)
    requires s.vars.live && !Step(s, e).vars.live
    ensures e == Unmounted
  {
  }

  lemma GoingAbortsAll(s: State)
    requires Inv(s) && s.vars.live
    ensures forall i :: 0 <= i < |Gone(s).env.requests| ==> Gone(s).env.requests[i].aborted
  {
    forall i | 0 <= i < |s.env.requests|
      ensures Gone(s).env.requests[i].aborted
    {
      assert Filed(s.vars, s.env.requests[i], i);
      assert s.vars.aborts[s.env.requests[i].key] in s.vars.aborts.Values;
    }
  }

  lemma {:induction false} GoneFromThenOn(events: seq<Event>)
    requires Unmounted in events
    ensures !Run(events).vars.live
  {
    var before, e := events[..|events| - 1], events[|events| - 1];
    assert events == before + [e];
    if Unmounted in before {
      GoneFromThenOn(before);
      GoneStays(Run(before), e);
    }
  }

  /** Once the view is gone every request is aborted, and whatever is still answered changes no row. */
  lemma {:induction false} UnmountingAbortsAll(events: seq<Event>, e: Event)
    requires Unmounted in events
    ensures forall i :: 0 <= i < |Run(events).env.requests| ==> Run(events).env.requests[i].aborted
    ensures Step(Run(events), e).vars == Run(events).vars
  {
    GoneFromThenOn(events);
    var before, last := events[..|events| - 1], events[|events| - 1];
    assert events == before + [last];
    if Run(before).vars.live {
      RunKeepsInv(before);
      OnlyUnmountingEnds(Run(before), last);
      GoingAbortsAll(Run(before));
    } else {
      if Unmounted !in before {
        LiveUntilUnmounted(before);
      }
      UnmountingAbortsAll(before, e);
      GoneStays(Run(before), last);
    }
  }

  lemma {:induction false} LiveUntilUnmounted(events: seq<Event>)
    requires Unmounted !in events
    ensures Run(events).vars.live
  {
    if events != [] {
      var before, e := events[..|events| - 1], events[|events| - 1];
      assert events == before + [e];
      LiveUntilUnmounted(before);
      if !Step(Run(before), e).vars.live {
        OnlyUnmountingEnds(Run(before), e);
      }
    }
  }

  /** Of two requests of a row at least one is aborted. */
  lemma {:induction false} OneLiveRequestPerRow(events: seq<Event>, i: nat, j: nat)
    requires i < j < |Run(events).env.requests|
    requires Run(events).env.requests[i].key == Run(events).env.requests[j].key
    ensures Run(events).env.requests[i].aborted || Run(events).env.requests[j].aborted
  {
    RunKeepsInv(events);
  }

  /** A new request for a row that shows options, before it is answered. */
  lemma AskedAgain(s: State, key: Key)
    requires s.vars.live && RemoteFor(s, key).Some? && (RemoteFor(s, key).value.Ready? || RemoteFor(s, key).value.Stale?)
    ensures var source, shown := SourceOf(s.env, s.env.present[key]), RemoteFor(s, key).value.options;
            var asked, i := Step(s, Focus(key)), |s.env.requests|;
            && asked.env == s.env.(requests := asked.env.requests) && |asked.env.requests| == i + 1
            && asked.env.requests[i] == Request(key, Token(s.vars, key) + 1, source, Some(shown), false, false, None)
            && Heard(asked.vars, asked.env.requests[i])
            && RemoteFor(asked, key) == Some(Loading(source, Some(shown)))
  {
  }

  /** What a heard answer shows. */
  lemma AnswerShows(t: State, i: nat, key: Key, newer: Options)
    requires i < |t.env.requests| && !t.env.requests[i].settled && Heard(t.vars, t.env.requests[i])
    requires key in t.env.present && t.env.present[key].route.text != ""
    requires t.env.requests[i].key == key && t.env.requests[i].source == SourceOf(t.env, t.env.present[key])
    ensures var r := t.env.requests[i];
            && RemoteFor(Step(t, Replied(i, newer)), key) == Some(Ready(r.source, newer))
            && RemoteFor(Step(t, Failed(i)), key)
               == Some(if r.previous.Some? then Stale(r.source, r.previous.value) else Unavailable(r.source))
  {
  }

  /**
   * Looking again at a row that shows options keeps them while the new request runs and when it fails;
   * when it succeeds under the same authority the new ones are shown.
   */
  lemma RefreshNeverLosesOptions(s: State, key: Key, newer: Options)
    requires s.vars.live && RemoteFor(s, key).Some? && (RemoteFor(s, key).value.Ready? || RemoteFor(s, key).value.Stale?)
    ensures var source, shown := SourceOf(s.env, s.env.present[key]), RemoteFor(s, key).value.options;
            var asked, request := Step(s, Focus(key)), |s.env.requests|;
            && RemoteFor(asked, key) == Some(Loading(source, Some(shown)))
            && RemoteFor(Step(asked, Failed(request)), key) == Some(Stale(source, shown))
            && RemoteFor(Step(asked, Replied(request, newer)), key) == Some(Ready(source, newer))
  {
    AskedAgain(s, key);
    AnswerShows(Step(s, Focus(key)), |s.env.requests|, key, newer);
  }

  /** `t` asked once more for the row, from where it stands now, and gave up its older requests. */
  ghost predicate AskedOnceMore(s: State, key: Key, t: State)
    requires key in s.env.present
  {
    var n, shown := |s.env.requests|, RemoteFor(s, key);
    && |t.env.requests| == n + 1 && t.env.requests[n].key == key
    && t.env.requests[n].source == Source(s.env.present[key].client, s.env.present[key].route,
                                          AuthorityOf(s.env, s.env.present[key].client))
    && t.env.requests[n].previous == (if shown.Some? && !shown.value.Unavailable? then OptionsOf(shown.value) else None)
    && !t.env.requests[n].aborted && !t.env.requests[n].settled && Heard(t.vars, t.env.requests[n])
    && (forall i :: 0 <= i < n && s.env.requests[i].key == key ==> t.env.requests[i].aborted)
    && (forall i :: 0 <= i < n && s.env.requests[i].key != key ==> t.env.requests[i] == s.env.requests[i])
    && (forall other :: other != key && other in s.vars.combos ==>
          other in t.vars.combos && t.vars.combos[other] == s.vars.combos[other])
    && t.env == s.env.(requests := t.env.requests)
  }

  /** Looking at a row asks for its options exactly when it does not show loading. */
  lemma FocusAsksIff(events: seq<Event>, key: Key)
    requires Enabled(Run(events), Focus(key))
    ensures var s, t := Run(events), Step(Run(events), Focus(key));
            if RemoteFor(s, key).Some? && RemoteFor(s, key).value.Loading? then t == s
            else AskedOnceMore(s, key, t)
  {
    RunKeepsInv(events);
    var s, t := Run(events), Step(Run(events), Focus(key));
    if !(RemoteFor(s, key).Some? && RemoteFor(s, key).value.Loading?) {
      forall i | 0 <= i < |s.env.requests|
        ensures s.env.requests[i].key == key ==> t.env.requests[i].aborted
        ensures s.env.requests[i].key != key ==> t.env.requests[i] == s.env.requests[i]
      {
        assert Filed(s.vars, s.env.requests[i], i);
        if key in s.vars.aborts {
          assert Held(s.vars, s.env.requests, key);
        }
      }
    }
  }

  /** A row without options shows the first that arrive, and is unavailable when they fail to. */
  lemma FirstOptionsAreShown(s: State, key: Key, options: Options)
    requires s.vars.live && key in s.env.present && s.env.present[key].route.text != ""
    requires RemoteFor(s, key).None? || RemoteFor(s, key).value.Unavailable?
    ensures var source, asked, request := SourceOf(s.env, s.env.present[key]), Step(s, Focus(key)), |s.env.requests|;
            && RemoteFor(asked, key) == Some(Loading(source, None))
            && RemoteFor(Step(asked, Replied(request, options)), key) == Some(Ready(source, options))
            && RemoteFor(Step(asked, Failed(request)), key) == Some(Unavailable(source))
  {
    var asked, request := Step(s, Focus(key)), |s.env.requests|;
    assert asked.env.requests[request].previous == None && Heard(asked.vars, asked.env.requests[request]);
    AnswerShows(asked, request, key, options);
  }

  /** An authority counts its changes, and a row is wherever it was last put; neither touches anything else. */
  lemma SurroundingsChange(s: State, client: nat, key: Key, present: Present)
    ensures var t := Step(s, AuthorityMoved(client));
            && t.vars == s.vars && t.env.requests == s.env.requests && t.env.present == s.env.present
            && forall c :: AuthorityOf(t.env, c) == if c == client then AuthorityOf(s.env, c) + 1 else AuthorityOf(s.env, c)
    ensures var t := Step(s, RowChanged(key, present));
            t == s.(env := s.env.(present := s.env.present[key := present]))
  {
  }

  // ---- The component ----

  class RemoteChoices {
    /** `remoteCombos`, `remoteTokens`, `remoteAborts` and `live`. */
    var vars: Vars
    ghost var env: Env

    ghost function View(): State
      reads this
    {
      State(vars, env)
    }

    constructor ()
      ensures View() == Run([])
    {
      vars := Vars(map[], map[], map[], true);
      env := Env([], map[], map[]);
    }

    /** `shown` is what `remoteFor` gives for the row, `source` its present source, `request` the new request's number. */
    method LoadRemoteOptions(key: Key, shown: Option<RemoteState>, source: Source, request: nat)
      requires key in env.present && shown == RemoteFor(View(), key) && source == SourceOf(env, env.present[key])
      requires request == |env.requests|
      modifies this
      ensures View() == Loaded(old(View()), key)
    {
      if shown.Some? && shown.value.Loading? {
        return;
      }
      var token := Token(vars, key) + 1;
      vars := vars.(tokens := vars.tokens[key := token]);
      if key in vars.aborts {
        env := env.(requests := Aborted(env.requests, vars.aborts[key]));
      }
      vars := vars.(aborts := vars.aborts[key := request]);
      var kept := None;
      if shown.Some? && (shown.value.Ready? || shown.value.Stale?) {
        kept := Some(shown.value.options);
      }
      vars := vars.(combos := vars.combos[key := Loading(source, kept)]);
      env := env.(requests := env.requests + [Request(key, token, source, kept, false, false, None)]);
    }

    /** The fetch started with `key`, `token` and `source` came back; `authority` is the client's now. */
    method OnOptions(i: nat, key: Key, token: nat, source: Source, options: Options, authority: nat)
      requires i < |env.requests| && env.requests[i].key == key && env.requests[i].token == token
      requires env.requests[i].source == source && authority == AuthorityOf(env, source.client)
      modifies this
      ensures View() == Succeeded(old(View()), i, options)
    {
      env := env.(requests := Settled(env.requests, i, Some(options)));
      if !vars.live || !(key in vars.tokens && vars.tokens[key] == token) {
        return;
      }
      if authority != source.authority {
        return;
      }
      vars := vars.(combos := vars.combos[key := Ready(source, options)]);
    }

    method OnError(i: nat, key: Key, token: nat, source: Source, previous: Option<Options>)
      requires i < |env.requests| && env.requests[i].key == key && env.requests[i].token == token
      requires env.requests[i].source == source && env.requests[i].previous == previous
      modifies this
      ensures View() == Refused(old(View()), i)
    {
      env := env.(requests := Settled(env.requests, i, None));
      if !vars.live || !(key in vars.tokens && vars.tokens[key] == token) {
        return;
      }
      var state := if previous.Some? then Stale(source, previous.value) else Unavailable(source);
      vars := vars.(combos := vars.combos[key := state]);
    }

    method CleanUp()
      modifies this
      ensures View() == Gone(old(View()))
    {
      env := env.(requests := AllAborted(vars, env.requests));
      vars := vars.(live := false);
    }

    /**
     * Every event is one step of the protocol and keeps what is true of every reachable state. For a focus,
     * `shown`, `source` and `request` are the row's state, its present source and the new request's number;
     * for a reply, `started` is what its closure captured and `authority` the client's now.
     */
    method Handle(e: Event, shown: Option<RemoteState>, source: Source, request: nat, started: Request, authority: nat)
      requires Inv(View()) && Enabled(View(), e) && request == |env.requests|
      requires e.Focus? ==> shown == RemoteFor(View(), e.key) && source == SourceOf(env, env.present[e.key])
      requires e.Replied? || e.Failed? ==>
                 started == env.requests[e.request] && authority == AuthorityOf(env, started.source.client)
      modifies this
      ensures View() == Step(old(View()), e) && Inv(View())
    {
      StepKeepsInv(View(), e);
      match e
      case Focus(key) => LoadRemoteOptions(key, shown, source, request);
      case Replied(i, options) => OnOptions(i, started.key, started.token, started.source, options, authority);
      case Failed(i) => OnError(i, started.key, started.token, started.source, started.previous);
      case AuthorityMoved(client) =>
        env := env.(authority := env.authority[client := AuthorityOf(env, client) + 1]);
      case RowChanged(key, present) => env := env.(present := env.present[key := present]);
      case Unmounted => CleanUp();
    }
  }
}
