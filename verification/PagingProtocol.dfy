/**
 * The paging protocol of the collection browser (packages/app/src/CollectionPanel.tsx).
 *
 * Query, source, folder, filter and refresh events race with one debounce timer, with
 * cancellable page requests and with their late replies. `Panel` is the component's state
 * together with a log of the environment: every request that was sent, which of them are
 * still unsettled, which were aborted, and the pages that were committed to the screen.
 * `Step` is one atomic event; an event whose control is disabled or absent changes nothing.
 */
module PagingProtocol {
  import opened Prelude

  datatype Entry = Entry(id: string, ref: int)

  datatype Page = Page(items: seq<Entry>, cursor: Option<string>, total: Option<nat>, owner: Option<string>)

  /** The signals that the first-page effect tracks. */
  datatype Signals = Signals(source: string, query: string, folder: string, filters: map<string, string>)

  /** The query and source that the first-page effect saw last. */
  datatype Seen = Seen(query: string, source: string)

  /** What a page is a page of. */
  datatype Key = Key(source: string, query: string, filters: map<string, string>, folder: Option<string>)

  datatype Request = Request(key: Key, append: bool, cursor: Option<string>)

  /** A page that was put on screen, with the generation of the request it answers. */
  datatype Commit = Commit(gen: nat, page: Page)

  /** Source id to whether that source supports folders. */
  type Sources = map<string, bool>

  /** The environment's side: requests sent, not yet settled, aborted; and the pages on screen. */
  datatype Log = Log(
    sent: map<nat, Request>,
    unsettled: set<nat>,
    aborted: set<nat>,
    chain: seq<Commit>,
    mounted: bool)

  datatype Panel = Panel(
    signals: Signals,
    last: Seen,
    items: seq<Entry>,
    cursor: Option<string>,
    total: Option<nat>,
    loading: bool,
    error: Option<string>,
    pageOwner: Option<string>,
    generation: nat,
    controller: Option<nat>,
    debounce: bool,
    log: Log)

  datatype Event =
    | Typed(query: string)
    | SourceSelected(id: string)
    | FolderEntered(path: string)
    | FilterSet(id: string, value: string)
    | Refreshed
    | DebounceFired
    | LoadMoreClicked
    | RetryClicked
    | PageArrived(gen: nat, page: Page)
    | PageFailed(gen: nat, message: string)
    | Unmounted

  /** JavaScript's white space, the characters that `trim` removes. */
  predicate IsSpace(c: char) {
    var code := c as int;
    0x09 <= code <= 0x0D || code == 0x20 || code == 0xA0 || code == 0x1680 || 0x2000 <= code <= 0x200A ||
    code == 0x2028 || code == 0x2029 || code == 0x202F || code == 0x205F || code == 0x3000 || code == 0xFEFF
  }

  function Trim(s: string): string {
    if s == [] then []
    else if IsSpace(s[0]) then Trim(s[1..])
    else if IsSpace(s[|s| - 1]) then Trim(s[..|s| - 1])
    else s
  }

  /** Trimming removes white space at the ends, all of it, and nothing else. */
  lemma {:induction false} TrimmedOfSpaceOnly(s: string) returns (left: nat, right: nat)
    ensures left <= right <= |s| && Trim(s) == s[left..right]
    ensures forall i :: 0 <= i < |s| && (i < left || right <= i) ==> IsSpace(s[i])
    ensures left < right ==> !IsSpace(s[left]) && !IsSpace(s[right - 1])
  {
    if s == [] {
      left, right := 0, 0;
    } else if IsSpace(s[0]) {
      var l, r := TrimmedOfSpaceOnly(s[1..]);
      left, right := l + 1, r + 1;
      assert s[1..][l..r] == s[left..right];
      assert forall i :: 0 < i < |s| ==> s[i] == s[1..][i - 1];
    } else if IsSpace(s[|s| - 1]) {
      left, right := TrimmedOfSpaceOnly(s[..|s| - 1]);
      assert s[..|s| - 1][left..right] == s[left..right];
    } else {
      left, right := 0, |s|;
    }
  }

  /** The (source, trimmed query, filters, folder) that a request sent now would ask for. */
  function CurrentKey(sources: Sources, g: Signals): Key {
    Key(g.source, Trim(g.query), g.filters,
        if g.source in sources && sources[g.source] && g.folder != "" then Some(g.folder) else None)
  }

  /** `t` is `s` without the white space at its ends. */
  ghost predicate IsTrimmed(s: string, t: string) {
    exists left, right ::
      && 0 <= left <= right <= |s| && t == s[left..right]
      && (forall i :: 0 <= i < |s| && (i < left || right <= i) ==> IsSpace(s[i]))
      && (left < right ==> !IsSpace(s[left]) && !IsSpace(s[right - 1]))
  }

  /** A request for `key` asks for what the controls show. */
  ghost predicate Asks(sources: Sources, g: Signals, key: Key) {
    && key.source == g.source
    && key.filters == g.filters
    && IsTrimmed(g.query, key.query)
    && (key.folder.Some? <==> g.source in sources && sources[g.source] && g.folder != "")
    && (key.folder.Some? ==> key.folder.value == g.folder)
  }

  lemma CurrentKeyAsks(sources: Sources, g: Signals)
    ensures Asks(sources, g, CurrentKey(sources, g))
  {
    var left, right := TrimmedOfSpaceOnly(g.query);
  }

  // ---- The component's own functions, on values ----

  function Superseded(s: Panel): Panel {
    s.(generation := s.generation + 1,
       log := s.log.(aborted := s.log.aborted + SetOf(s.controller)),
       controller := None,
       loading := true,
       error := None,
       cursor := None,
       pageOwner := None)
  }

  function PageRequested(sources: Sources, s: Panel, append: bool): Panel {
    if s.signals.source !in sources then s else
    var gen := s.generation + 1;
    var cursor := if append then s.cursor else None;
    s.(generation := gen,
       controller := Some(gen),
       loading := true,
       error := None,
       pageOwner := if append then s.pageOwner else None,
       log := s.log.(
         sent := s.log.sent[gen := Request(CurrentKey(sources, s.signals), append, cursor)],
         unsettled := s.log.unsettled + {gen},
         aborted := s.log.aborted + SetOf(s.controller)))
  }

  /** The first-page effect: debounced after typing, immediate otherwise. */
  function FirstPage(sources: Sources, s: Panel): Panel {
    var typed := s.signals.query != s.last.query && s.signals.source == s.last.source;
    var s' := s.(last := Seen(s.signals.query, s.signals.source), debounce := false);
    if typed then Superseded(s').(debounce := true) else PageRequested(sources, s', false)
  }

  function Arrived(s: Panel, gen: nat, page: Page): Panel
    requires gen in s.log.sent
  {
    var settled := s.log.(unsettled := s.log.unsettled - {gen});
    if gen != s.generation then s.(log := settled) else
    var append := s.log.sent[gen].append;
    s.(items := if append then s.items + page.items else page.items,
       cursor := page.cursor,
       total := page.total,
       pageOwner := page.owner,
       loading := false,
       log := settled.(chain := (if append then s.log.chain else []) + [Commit(gen, page)]))
  }

  function Failed(s: Panel, gen: nat, message: string): Panel
    requires gen in s.log.sent
  {
    var settled := s.log.(unsettled := s.log.unsettled - {gen});
    if gen != s.generation then s.(log := settled) else
    var append := s.log.sent[gen].append;
    s.(items := if append then s.items else [],
       pageOwner := if append then s.pageOwner else None,
       cursor := None,
       loading := false,
       error := Some(message),
       log := settled.(chain := if append then s.log.chain else []))
  }

  function CleanedUp(s: Panel): Panel {
    s.(debounce := false,
       generation := s.generation + 1,
       log := s.log.(aborted := s.log.aborted + SetOf(s.controller), mounted := false))
  }

  // ---- One atomic step ----

  /** Whether the control or callback behind an event exists and is enabled. */
  predicate Enabled(sources: Sources, s: Panel, e: Event) {
    match e
    case Typed(_) => s.log.mounted
    case SourceSelected(id) => s.log.mounted && id in sources
    case FolderEntered(_) => s.log.mounted
    case FilterSet(_, _) => s.log.mounted
    case Refreshed => s.log.mounted
    case DebounceFired => s.debounce
    case LoadMoreClicked => s.log.mounted && s.cursor.Some? && !s.loading
    case RetryClicked => s.log.mounted && s.error.Some? && !s.loading
    case PageArrived(gen, _) => gen in s.log.unsettled && gen in s.log.sent
    case PageFailed(gen, _) => gen in s.log.unsettled && gen in s.log.sent
    case Unmounted => s.log.mounted
  }

  /** Signals that keep their value do not run the effect; a filter write always makes a new object. */
  function Resignalled(sources: Sources, s: Panel, g: Signals): Panel {
    if g == s.signals then s else FirstPage(sources, s.(signals := g))
  }

  function Step(sources: Sources, s: Panel, e: Event): Panel {
    if !Enabled(sources, s, e) then s else
    match e
    case Typed(q) => Resignalled(sources, s, s.signals.(query := q))
    case SourceSelected(id) => Resignalled(sources, s, s.signals.(source := id, folder := ""))
    case FolderEntered(path) => Resignalled(sources, s, s.signals.(folder := path))
    case FilterSet(id, value) =>
      FirstPage(sources, s.(signals := s.signals.(filters := s.signals.filters[id := value])))
    case Refreshed => FirstPage(sources, s)
    case DebounceFired => PageRequested(sources, s.(debounce := false), false)
    case LoadMoreClicked => PageRequested(sources, s, true)
    case RetryClicked => PageRequested(sources, s, false)
    case PageArrived(gen, page) => Arrived(s, gen, page)
    case PageFailed(gen, message) => Failed(s, gen, message)
    case Unmounted => CleanedUp(s)
  }

  function Blank(source: string, filters: map<string, string>): Panel {
    Panel(Signals(source, "", "", filters), Seen("", ""), [], None, None, false, None, None,
          0, None, false, Log(map[], {}, {}, [], true))
  }

  /** The panel just after mounting: the effect has run once. */
  function Mounted(sources: Sources, source: string, filters: map<string, string>): Panel {
    FirstPage(sources, Blank(source, filters))
  }

  /** The panel after a whole history of events. */
  function Run(sources: Sources, s: Panel, events: seq<Event>): Panel {
    if events == [] then s
    else Step(sources, Run(sources, s, events[..|events| - 1]), events[|events| - 1])
  }

  // ---- What is true of every reachable panel ----

  function ItemsOf(chain: seq<Commit>): seq<Entry> {
    if chain == [] then [] else ItemsOf(chain[..|chain| - 1]) + chain[|chain| - 1].page.items
  }

  /** Pages of one key: the first asked for without a cursor, each later one with its predecessor's. */
  ghost predicate IsChain(sent: map<nat, Request>, chain: seq<Commit>) {
    && (forall i :: 0 <= i < |chain| ==> chain[i].gen in sent)
    && (forall i :: 0 < i < |chain| ==>
          && sent[chain[i].gen].key == sent[chain[0].gen].key
          && sent[chain[i].gen].append
          && sent[chain[i].gen].cursor.Some?
          && sent[chain[i].gen].cursor == chain[i - 1].page.cursor
          && chain[i - 1].gen < chain[i].gen)
    && (chain != [] ==> !sent[chain[0].gen].append && sent[chain[0].gen].cursor == None)
  }

  /** Every page on screen is a page of `key`. */
  ghost predicate ChainOf(sent: map<nat, Request>, chain: seq<Commit>, key: Key) {
    chain != [] ==> chain[0].gen in sent && sent[chain[0].gen].key == key
  }

  ghost predicate Live(s: Panel, gen: nat) {
    gen in s.log.unsettled && gen !in s.log.aborted
  }

  /** A request of the current generation has not been answered yet. */
  ghost predicate InFlight(s: Panel) {
    s.generation in s.log.unsettled
  }

  /** Requests: numbered by generation, and only the newest one can be live. */
  ghost predicate LogInv(s: Panel) {
    && (forall g | g in s.log.sent :: 0 < g <= s.generation)
    && s.log.unsettled <= s.log.sent.Keys
    && s.log.aborted <= s.log.sent.Keys
    && (forall g | g in s.log.unsettled && g !in s.log.aborted :: s.log.mounted && g == s.generation && s.controller == Some(g))
    && (s.controller.Some? ==> s.controller.value in s.log.sent)
    && (s.log.mounted && InFlight(s) ==> Live(s, s.generation))
    && (!s.log.mounted ==> !s.debounce && s.generation !in s.log.sent)
  }

  /** The items are those of the committed pages, all of them answered. */
  ghost predicate Committed(sent: map<nat, Request>, chain: seq<Commit>, unsettled: set<nat>, generation: nat,
                            items: seq<Entry>, total: Option<nat>) {
    && IsChain(sent, chain)
    && (forall i :: 0 <= i < |chain| ==> chain[i].gen !in unsettled && chain[i].gen <= generation)
    && items == ItemsOf(chain)
    && (chain != [] ==> total == chain[|chain| - 1].page.total)
  }

  ghost predicate ChainInv(s: Panel) {
    Committed(s.log.sent, s.log.chain, s.log.unsettled, s.generation, s.items, s.total)
  }

  ghost predicate ScreenInv(sources: Sources, s: Panel) {
    var key := CurrentKey(sources, s.signals);
    && s.signals.source in sources
    && s.last == Seen(s.signals.query, s.signals.source)
    && (s.loading <==> s.debounce || InFlight(s))
    && !(s.debounce && InFlight(s))
    && (s.error.Some? ==> !s.loading)
    && (s.debounce ==> s.cursor == None && s.pageOwner == None)
    && (InFlight(s) ==>
          && s.generation in s.log.sent
          && s.log.sent[s.generation].key == key
          && (!s.log.sent[s.generation].append ==> s.log.sent[s.generation].cursor == None && s.pageOwner == None)
          && (s.log.sent[s.generation].append ==>
                && s.log.chain != [] && ChainOf(s.log.sent, s.log.chain, key)
                && s.log.sent[s.generation].cursor.Some?
                && s.log.sent[s.generation].cursor == s.log.chain[|s.log.chain| - 1].page.cursor))
    && (!s.loading ==> ChainOf(s.log.sent, s.log.chain, key) && (s.log.chain == [] ==> s.error.Some?))
    && (!s.loading && s.cursor.Some? ==> s.log.chain != [] && s.cursor == s.log.chain[|s.log.chain| - 1].page.cursor)
    && (s.pageOwner.Some? ==>
          && s.log.chain != [] && ChainOf(s.log.sent, s.log.chain, key)
          && s.pageOwner == s.log.chain[|s.log.chain| - 1].page.owner)
  }

  ghost predicate Inv(sources: Sources, s: Panel) {
    LogInv(s) && ChainInv(s) && (s.log.mounted ==> ScreenInv(sources, s))
  }

  lemma RequestKeepsInv(sources: Sources, s: Panel, append: bool)
    requires LogInv(s) && ChainInv(s) && s.log.mounted && !s.debounce && s.signals.source in sources
    requires s.last == Seen(s.signals.query, s.signals.source)
    requires append ==> !s.loading && s.cursor.Some? && ScreenInv(sources, s)
    ensures Inv(sources, PageRequested(sources, s, append))
  {
    var s' := PageRequested(sources, s, append);
    assert LogInv(s');
    assert ChainInv(s');
  }

  lemma FirstPageKeepsInv(sources: Sources, s: Panel)
    requires LogInv(s) && ChainInv(s) && s.log.mounted && s.signals.source in sources
    ensures Inv(sources, FirstPage(sources, s))
  {
    var s' := s.(last := Seen(s.signals.query, s.signals.source), debounce := false);
    assert LogInv(s') && ChainInv(s');
    if !(s.signals.query != s.last.query && s.signals.source == s.last.source) {
      RequestKeepsInv(sources, s', false);
    }
  }

  lemma ChainGrows(sent: map<nat, Request>, chain: seq<Commit>, gen: nat, page: Page)
    requires IsChain(sent, chain) && gen in sent
    requires sent[gen].append ==> chain != [] && sent[gen].key == sent[chain[0].gen].key
    requires sent[gen].append ==> sent[gen].cursor.Some? && sent[gen].cursor == chain[|chain| - 1].page.cursor
    requires sent[gen].append ==> chain[|chain| - 1].gen < gen
    requires !sent[gen].append ==> sent[gen].cursor == None
    ensures var kept := if sent[gen].append then chain else [];
            IsChain(sent, kept + [Commit(gen, page)]) &&
            ItemsOf(kept + [Commit(gen, page)]) == ItemsOf(kept) + page.items
  {
    var kept := if sent[gen].append then chain else [];
    assert (kept + [Commit(gen, page)])[..|kept|] == kept;
  }

  lemma OneMoreCommitted(sent: map<nat, Request>, chain: seq<Commit>, unsettled: set<nat>, gen: nat,
                                            items: seq<Entry>, total: Option<nat>, page: Page)
    requires Committed(sent, chain, unsettled, gen, items, total) && gen in sent && gen in unsettled
    requires sent[gen].append ==>
               chain != [] && sent[gen].key == sent[chain[0].gen].key &&
               sent[gen].cursor.Some? && sent[gen].cursor == chain[|chain| - 1].page.cursor
    requires !sent[gen].append ==> sent[gen].cursor == None
    ensures Committed(sent, (if sent[gen].append then chain else []) + [Commit(gen, page)], unsettled - {gen}, gen,
                      if sent[gen].append then items + page.items else page.items, page.total)
  {
    ChainGrows(sent, chain, gen, page);
  }

  lemma FewerUnsettled(sent: map<nat, Request>, chain: seq<Commit>, unsettled: set<nat>, generation: nat,
                                          items: seq<Entry>, total: Option<nat>, gen: nat)
    requires Committed(sent, chain, unsettled, generation, items, total)
    ensures Committed(sent, chain, unsettled - {gen}, generation, items, total)
    ensures Committed(sent, [], unsettled - {gen}, generation, [], total)
  {
  }

  lemma ArrivedKeepsChain(s: Panel, gen: nat, page: Page)
    requires ChainInv(s) && LogInv(s) && gen in s.log.unsettled
    requires gen == s.generation && s.log.sent[gen].append ==>
               s.log.chain != [] && s.log.sent[gen].key == s.log.sent[s.log.chain[0].gen].key &&
               s.log.sent[gen].cursor.Some? && s.log.sent[gen].cursor == s.log.chain[|s.log.chain| - 1].page.cursor
    requires gen == s.generation && !s.log.sent[gen].append ==> s.log.sent[gen].cursor == None
    ensures ChainInv(Arrived(s, gen, page))
  {
    if gen == s.generation {
      OneMoreCommitted(s.log.sent, s.log.chain, s.log.unsettled, gen, s.items, s.total, page);
    } else {
      FewerUnsettled(s.log.sent, s.log.chain, s.log.unsettled, s.generation, s.items, s.total, gen);
    }
  }

  lemma ReplyKeepsLog(s: Panel, gen: nat, page: Page, message: string)
    requires LogInv(s) && gen in s.log.unsettled
    ensures LogInv(Arrived(s, gen, page)) && LogInv(Failed(s, gen, message))
  {
  }

  lemma ArrivedKeepsScreen(sources: Sources, s: Panel, gen: nat, page: Page)
    requires ScreenInv(sources, s) && gen in s.log.unsettled && gen in s.log.sent
    ensures ScreenInv(sources, Arrived(s, gen, page))
  {
    var s' := Arrived(s, gen, page);
    if gen == s.generation && s.log.sent[gen].append {
      assert s'.log.chain[0] == s.log.chain[0];
    }
  }

  lemma ArrivedKeepsInv(sources: Sources, s: Panel, gen: nat, page: Page)
    requires Inv(sources, s) && gen in s.log.unsettled
    ensures Inv(sources, Arrived(s, gen, page))
  {
    ReplyKeepsLog(s, gen, page, "");
    ArrivedKeepsChain(s, gen, page);
    if s.log.mounted {
      ArrivedKeepsScreen(sources, s, gen, page);
    }
  }

  lemma FailedKeepsScreen(sources: Sources, s: Panel, gen: nat, message: string)
    requires ScreenInv(sources, s) && gen in s.log.unsettled && gen in s.log.sent
    ensures ScreenInv(sources, Failed(s, gen, message))
  {
  }

  lemma FailedKeepsChain(s: Panel, gen: nat, message: string)
    requires ChainInv(s) && gen in s.log.sent
    ensures ChainInv(Failed(s, gen, message))
  {
    FewerUnsettled(s.log.sent, s.log.chain, s.log.unsettled, s.generation, s.items, s.total, gen);
  }

  lemma FailedKeepsInv(sources: Sources, s: Panel, gen: nat, message: string)
    requires Inv(sources, s) && gen in s.log.unsettled
    ensures Inv(sources, Failed(s, gen, message))
  {
    ReplyKeepsLog(s, gen, Page([], None, None, None), message);
    FailedKeepsChain(s, gen, message);
    if s.log.mounted {
      FailedKeepsScreen(sources, s, gen, message);
    }
  }

  lemma ResignalKeepsInv(sources: Sources, s: Panel, g: Signals)
    requires Inv(sources, s) && s.log.mounted && g.source in sources
    ensures Inv(sources, Resignalled(sources, s, g))
  {
    if g != s.signals {
      FirstPageKeepsInv(sources, s.(signals := g));
    }
  }

  lemma SignalKeepsInv(sources: Sources, s: Panel, e: Event)
    requires Inv(sources, s) && Enabled(sources, s, e)
    requires e.Typed? || e.SourceSelected? || e.FolderEntered? || e.FilterSet? || e.Refreshed?
    ensures Inv(sources, Step(sources, s, e))
  {
    match e
    case Typed(q) => ResignalKeepsInv(sources, s, s.signals.(query := q));
    case SourceSelected(id) => ResignalKeepsInv(sources, s, s.signals.(source := id, folder := ""));
    case FolderEntered(path) => ResignalKeepsInv(sources, s, s.signals.(folder := path));
    case FilterSet(id, value) =>
      FirstPageKeepsInv(sources, s.(signals := s.signals.(filters := s.signals.filters[id := value])));
    case Refreshed => FirstPageKeepsInv(sources, s);
  }

  lemma UnmountKeepsInv(sources: Sources, s: Panel)
    requires Inv(sources, s) && s.log.mounted
    ensures Inv(sources, CleanedUp(s))
  {
    assert LogInv(CleanedUp(s)) && ChainInv(CleanedUp(s));
  }

  lemma StepKeepsInv(sources: Sources, s: Panel, e: Event)
    requires Inv(sources, s)
    ensures Inv(sources, Step(sources, s, e))
  {
    if Enabled(sources, s, e) {
      match e
      case DebounceFired => RequestKeepsInv(sources, s.(debounce := false), false);
      case LoadMoreClicked => RequestKeepsInv(sources, s, true);
      case RetryClicked => RequestKeepsInv(sources, s, false);
      case PageArrived(gen, page) => ArrivedKeepsInv(sources, s, gen, page);
      case PageFailed(gen, message) => FailedKeepsInv(sources, s, gen, message);
      case Unmounted => UnmountKeepsInv(sources, s);
      case _ => SignalKeepsInv(sources, s, e);
    }
  }

  lemma {:induction false} RunKeepsInv(sources: Sources, source: string, filters: map<string, string>, events: seq<Event>)
    requires source in sources
    ensures Inv(sources, Run(sources, Mounted(sources, source, filters), events))
  {
    if events == [] {
      FirstPageKeepsInv(sources, Blank(source, filters));
    } else {
      RunKeepsInv(sources, source, filters, events[..|events| - 1]);
      StepKeepsInv(sources, Run(sources, Mounted(sources, source, filters), events[..|events| - 1]), events[|events| - 1]);
    }
  }
}
