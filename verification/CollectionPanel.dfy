/**
 * What holds over every history of the collection browser (packages/app/src/CollectionPanel.tsx), and
 * the component itself, whose methods are the steps of the paging protocol.
 */
module CollectionPanel {
  import opened Prelude
  import opened PagingProtocol

  // ---- Main results, over every history of events ----

  /**
   * The rows on screen are the pages of one key, end to end, each asked for with its
   * predecessor's cursor; once nothing is loading that key is the one the controls show,
   * or the first page failed and there are no rows.
   */
  lemma {:induction false} RowsArePagesOfOneQuery(sources: Sources, source: string, filters: map<string, string>, events: seq<Event>)
    requires source in sources
    ensures var s := Run(sources, Mounted(sources, source, filters), events);
            && s.items == ItemsOf(s.log.chain)
            && IsChain(s.log.sent, s.log.chain)
            && (s.log.chain != [] ==> s.total == s.log.chain[|s.log.chain| - 1].page.total)
            && (s.log.mounted && !s.loading ==>
                  && (s.log.chain != [] ==> Asks(sources, s.signals, s.log.sent[s.log.chain[0].gen].key))
                  && (s.log.chain == [] ==> s.items == [] && s.error.Some?))
  {
    RunKeepsInv(sources, source, filters, events);
    CurrentKeyAsks(sources, Run(sources, Mounted(sources, source, filters), events).signals);
  }

  lemma OnlyRepliesCommit(sources: Sources, s: Panel, e: Event)
    ensures forall c | c in Step(sources, s, e).log.chain :: c in s.log.chain || e == PageArrived(c.gen, c.page)
  {
  }

  /** Every page on screen was delivered as the reply to its own request. */
  lemma {:induction false} RowsCameFromReplies(sources: Sources, s: Panel, events: seq<Event>)
    requires s.log.chain == []
    ensures forall c | c in Run(sources, s, events).log.chain :: PageArrived(c.gen, c.page) in events
  {
    if events != [] {
      var before, e := events[..|events| - 1], events[|events| - 1];
      RowsCameFromReplies(sources, s, before);
      OnlyRepliesCommit(sources, Run(sources, s, before), e);
      assert events == before + [e];
    }
  }

  /** `loading` is set for a reason that will end: a debounce timer or an unanswered request. */
  ghost predicate LoadingHasCause(s: Panel) {
    s.log.mounted ==> (s.loading <==> s.debounce || InFlight(s))
  }

  /** The pending work: one cause of loading at a time, and one live request at most. */
  lemma {:induction false} OneThingPending(sources: Sources, source: string, filters: map<string, string>, events: seq<Event>)
    requires source in sources
    ensures var s := Run(sources, Mounted(sources, source, filters), events);
            && LoadingHasCause(s)
            && (s.log.mounted ==> !(s.debounce && InFlight(s)))
            && (forall g, h | Live(s, g) && Live(s, h) :: g == h)
            && (!s.log.mounted ==> !s.debounce && forall g :: !Live(s, g))
  {
    RunKeepsInv(sources, source, filters, events);
  }

  /** A page owner is only offered while its page is current and no first page is on its way. */
  lemma {:induction false} OwnerIsOnScreen(sources: Sources, source: string, filters: map<string, string>, events: seq<Event>)
    requires source in sources
    ensures var s := Run(sources, Mounted(sources, source, filters), events);
            s.log.mounted && s.pageOwner.Some? ==>
              && s.log.chain != []
              && s.pageOwner == s.log.chain[|s.log.chain| - 1].page.owner
              && s.log.chain[0].gen in s.log.sent && Asks(sources, s.signals, s.log.sent[s.log.chain[0].gen].key)
              && !s.debounce
              && (InFlight(s) ==> s.generation in s.log.sent && s.log.sent[s.generation].append)
  {
    RunKeepsInv(sources, source, filters, events);
    CurrentKeyAsks(sources, Run(sources, Mounted(sources, source, filters), events).signals);
  }

  /** The request on its way asks for what the controls show. */
  lemma RequestAsksForTheControls(sources: Sources, source: string, filters: map<string, string>, events: seq<Event>)
    requires source in sources
    ensures var s := Run(sources, Mounted(sources, source, filters), events);
            s.log.mounted && InFlight(s) ==>
              s.generation in s.log.sent && Asks(sources, s.signals, s.log.sent[s.generation].key)
  {
    RunKeepsInv(sources, source, filters, events);
    CurrentKeyAsks(sources, Run(sources, Mounted(sources, source, filters), events).signals);
  }

  // ---- What the controls show, and what each event does ----

  datatype Control = Query | Source | Folder | Filter(id: string)

  /** Which input sets a control: switching the source also leaves the folder. */
  predicate Sets(sources: Sources, c: Control, e: Event) {
    match c
    case Query => e.Typed?
    case Source => e.SourceSelected? && e.id in sources
    case Folder => e.FolderEntered? || (e.SourceSelected? && e.id in sources)
    case Filter(id) => e.FilterSet? && e.id == id
  }

  function InputTo(c: Control, e: Event): string {
    match e
    case Typed(q) => q
    case SourceSelected(id) => if c.Source? then id else ""
    case FolderEntered(path) => path
    case FilterSet(_, value) => value
    case _ => ""
  }

  function Shown(g: Signals, c: Control): Option<string> {
    match c
    case Query => Some(g.query)
    case Source => Some(g.source)
    case Folder => Some(g.folder)
    case Filter(id) => if id in g.filters then Some(g.filters[id]) else None
  }

  /** Event `k` is the last one that sets the control. */
  ghost predicate LastInput(sources: Sources, c: Control, events: seq<Event>, k: nat) {
    k < |events| && Sets(sources, c, events[k]) && forall j :: k < j < |events| ==> !Sets(sources, c, events[j])
  }

  /** The signals after an event, however the panel then asks for pages. */
  lemma StepSignals(sources: Sources, s: Panel, e: Event)
    requires s.log.mounted && e != Unmounted
    ensures Step(sources, s, e).log.mounted
    ensures Step(sources, s, e).signals
            == match e
               case Typed(q) => s.signals.(query := q)
               case SourceSelected(id) => if id in sources then s.signals.(source := id, folder := "") else s.signals
               case FolderEntered(path) => s.signals.(folder := path)
               case FilterSet(id, value) => s.signals.(filters := s.signals.filters[id := value])
               case _ => s.signals
  {
    AskingKeepsSignals(sources, s.(debounce := false));
    AskingKeepsSignals(sources, s);
    match e
    case Typed(q) => AskingKeepsSignals(sources, s.(signals := s.signals.(query := q)));
    case SourceSelected(id) => AskingKeepsSignals(sources, s.(signals := s.signals.(source := id, folder := "")));
    case FolderEntered(path) => AskingKeepsSignals(sources, s.(signals := s.signals.(folder := path)));
    case FilterSet(id, value) =>
      AskingKeepsSignals(sources, s.(signals := s.signals.(filters := s.signals.filters[id := value])));
    case _ =>
  }

  lemma AskingKeepsSignals(sources: Sources, s: Panel)
    ensures FirstPage(sources, s).signals == s.signals && FirstPage(sources, s).log.mounted == s.log.mounted
    ensures forall append ::
              PageRequested(sources, s, append).signals == s.signals
              && PageRequested(sources, s, append).log.mounted == s.log.mounted
  {
  }

  lemma LastInputExtends(sources: Sources, c: Control, events: seq<Event>, k: nat)
    requires events != []
    ensures var n := |events| - 1;
            LastInput(sources, c, events, k) <==>
              if Sets(sources, c, events[n]) then k == n else LastInput(sources, c, events[..n], k)
  {
  }

  /** While mounted, every control shows its last input, and what it showed at first when there was none. */
  lemma {:induction false} ControlsShowTheLastInput(sources: Sources, s: Panel, events: seq<Event>, c: Control)
    requires s.log.mounted && Unmounted !in events
    ensures var t := Run(sources, s, events);
            && t.log.mounted
            && (forall k: nat | LastInput(sources, c, events, k) :: Shown(t.signals, c) == Some(InputTo(c, events[k])))
            && ((forall k: nat :: !LastInput(sources, c, events, k)) ==> Shown(t.signals, c) == Shown(s.signals, c))
  {
    if events != [] {
      var n := |events| - 1;
      var before, e := events[..n], events[n];
      ControlsShowTheLastInput(sources, s, before, c);
      assert e in events;
      StepSignals(sources, Run(sources, s, before), e);
      forall k: nat
        ensures LastInput(sources, c, events, k) <==>
                  if Sets(sources, c, e) then k == n else LastInput(sources, c, before, k)
      {
        LastInputExtends(sources, c, events, k);
      }
      if Sets(sources, c, e) {
        assert LastInput(sources, c, events, n);
      }
    }
  }

  /** Inputs that change what is shown, or repeat the question, ask at once. */
  predicate AsksAtOnce(s: Panel, e: Event) {
    match e
    case SourceSelected(id) => id != s.signals.source || s.signals.folder != ""
    case FolderEntered(path) => path != s.signals.folder
    case FilterSet(_, _) => true
    case Refreshed => true
    case DebounceFired => true
    case RetryClicked => true
    case _ => false
  }

  predicate ChangesNothing(s: Panel, e: Event) {
    match e
    case Typed(q) => q == s.signals.query
    case SourceSelected(id) => id == s.signals.source && s.signals.folder == ""
    case FolderEntered(path) => path == s.signals.folder
    case _ => false
  }

  /** One request more, live, for what the controls show now; the rows stay until it is answered. */
  ghost predicate SentOneMore(sources: Sources, s: Panel, t: Panel, append: bool, cursor: Option<string>) {
    && t.generation !in s.log.sent && t.generation in t.log.sent
    && t.log.sent == s.log.sent[t.generation := t.log.sent[t.generation]]
    && Asks(sources, t.signals, t.log.sent[t.generation].key)
    && t.log.sent[t.generation].append == append && t.log.sent[t.generation].cursor == cursor
    && Live(t, t.generation) && t.loading && t.error == None && t.items == s.items
  }

  lemma RequestSends(sources: Sources, s: Panel, append: bool)
    requires LogInv(s) && s.signals.source in sources
    ensures SentOneMore(sources, s, PageRequested(sources, s, append), append, if append then s.cursor else None)
    ensures PageRequested(sources, s, append).debounce == s.debounce
  {
    CurrentKeyAsks(sources, s.signals);
  }

  /** Unless it is debounced after typing, the first-page effect asks at once. */
  lemma FirstPageSends(sources: Sources, s: Panel, g: Signals)
    requires LogInv(s) && s.log.mounted && g.source in sources && !(g.query != s.last.query && g.source == s.last.source)
    ensures SentOneMore(sources, s, FirstPage(sources, s.(signals := g)), false, None)
    ensures !FirstPage(sources, s.(signals := g)).debounce
  {
    RequestSends(sources, s.(signals := g, last := Seen(g.query, g.source), debounce := false), false);
  }

  /**
   * From every reachable panel, changes other than typing, a refresh, a retry and the due timer ask for a
   * first page at once, and the button for more asks from the cursor on.
   */
  lemma EventsAsk(sources: Sources, source: string, filters: map<string, string>, events: seq<Event>, e: Event)
    requires source in sources && Enabled(sources, Run(sources, Mounted(sources, source, filters), events), e)
    ensures var s := Run(sources, Mounted(sources, source, filters), events);
            var t := Step(sources, s, e);
            && (AsksAtOnce(s, e) ==> SentOneMore(sources, s, t, false, None) && !t.debounce)
            && (e == LoadMoreClicked ==> SentOneMore(sources, s, t, true, s.cursor) && s.cursor.Some?)
  {
    var s := Run(sources, Mounted(sources, source, filters), events);
    RunKeepsInv(sources, source, filters, events);
    if AsksAtOnce(s, e) {
      match e
      case SourceSelected(id) => FirstPageSends(sources, s, s.signals.(source := id, folder := ""));
      case FolderEntered(path) => FirstPageSends(sources, s, s.signals.(folder := path));
      case FilterSet(id, value) => FirstPageSends(sources, s, s.signals.(filters := s.signals.filters[id := value]));
      case Refreshed => FirstPageSends(sources, s, s.signals);
      case DebounceFired => RequestSends(sources, s.(debounce := false), false);
      case RetryClicked => RequestSends(sources, s, false);
    }
    if e == LoadMoreClicked {
      RequestSends(sources, s, true);
    }
  }

  /** A changed query gives up what is on its way and waits for the timer; inputs that change nothing do nothing. */
  lemma TypingWaits(sources: Sources, source: string, filters: map<string, string>, events: seq<Event>, e: Event)
    requires source in sources && Enabled(sources, Run(sources, Mounted(sources, source, filters), events), e)
    ensures var s := Run(sources, Mounted(sources, source, filters), events);
            var t := Step(sources, s, e);
            && (e.Typed? && e.query != s.signals.query ==>
                  && t.debounce && t.loading && t.items == s.items && t.cursor == None && t.pageOwner == None
                  && t.log.sent == s.log.sent && forall g :: !Live(t, g))
            && (ChangesNothing(s, e) ==> t == s)
  {
    var s := Run(sources, Mounted(sources, source, filters), events);
    RunKeepsInv(sources, source, filters, events);
    StepKeepsInv(sources, s, e);
  }

  /** A reply to the newest request is shown, after the rows there are when it was asked for more; others are not. */
  lemma RepliesAreShown(sources: Sources, s: Panel, gen: nat, page: Page, message: string)
    requires Enabled(sources, s, PageArrived(gen, page)) && Enabled(sources, s, PageFailed(gen, message))
    ensures var t, append := Step(sources, s, PageArrived(gen, page)), s.log.sent[gen].append;
            if gen == s.generation then
              && t.items == (if append then s.items + page.items else page.items)
              && t.cursor == page.cursor && t.total == page.total && t.pageOwner == page.owner && !t.loading
              && t.signals == s.signals && t.error == s.error
            else t == s.(log := t.log) && t.log.chain == s.log.chain
    ensures var t, append := Step(sources, s, PageFailed(gen, message)), s.log.sent[gen].append;
            if gen == s.generation then
              && t.items == (if append then s.items else [])
              && t.cursor == None && t.error == Some(message) && !t.loading && t.signals == s.signals
              && t.pageOwner == (if append then s.pageOwner else None)
            else t == s.(log := t.log) && t.log.chain == s.log.chain
  {
  }

  /** With no source to resolve, one keystroke leaves the panel loading with nothing on its way. */
  lemma {:induction false} UnresolvedSourceLoadsForever(sources: Sources, source: string, filters: map<string, string>)
    requires source !in sources
    ensures !LoadingHasCause(Run(sources, Mounted(sources, source, filters), [Typed("a"), DebounceFired]))
  {
    var s := Mounted(sources, source, filters);
    var events := [Typed("a"), DebounceFired];
    assert events[..1] == [Typed("a")];
    assert Run(sources, s, []) == s;
    assert Run(sources, s, [Typed("a")]) == Step(sources, s, Typed("a")) by {
      assert [Typed("a")][..0] == [];
    }
    var typed := Step(sources, s, Typed("a"));
    assert typed.debounce && typed.loading && typed.log.unsettled == {};
    assert Run(sources, s, events) == Step(sources, typed, DebounceFired);
  }

  /** Loading always has a cause exactly when the panel's source is one of the host's sources. */
  lemma {:induction false} LoadingHasCauseIff(sources: Sources, source: string, filters: map<string, string>)
    ensures (forall events :: LoadingHasCause(Run(sources, Mounted(sources, source, filters), events)))
            <==> source in sources
  {
    if source in sources {
      forall events
        ensures LoadingHasCause(Run(sources, Mounted(sources, source, filters), events))
      {
        OneThingPending(sources, source, filters, events);
      }
    } else {
      UnresolvedSourceLoadsForever(sources, source, filters);
    }
  }

  // ---- The component, with its own variables ----

  class CollectionBrowser {
    const sources: Sources
    var signals: Signals
    var last: Seen
    var items: seq<Entry>
    var cursor: Option<string>
    var total: Option<nat>
    var loading: bool
    var error: Option<string>
    var pageOwner: Option<string>
    var generation: nat
    var controller: Option<nat>
    var debounceTimer: bool
    ghost var log: Log

    ghost function View(): Panel
      reads this
    {
      Panel(signals, last, items, cursor, total, loading, error,
            pageOwner, generation, controller, debounceTimer, log)
    }

    ghost predicate Valid()
      reads this
    {
      Inv(sources, View())
    }

    constructor (sources: Sources, first: string, initialFilters: map<string, string>)
      requires first in sources
      ensures Valid() && this.sources == sources
      ensures View() == Mounted(sources, first, initialFilters)
    {
      this.sources := sources;
      signals, last := Signals(first, "", "", initialFilters), Seen("", "");
      items, cursor, total, loading, error, pageOwner := [], None, None, false, None, None;
      generation, controller, debounceTimer := 0, None, false;
      log := Log(map[], {}, {}, [], true);
      new;
      assert View() == Blank(first, initialFilters);
      FirstPageKeepsInv(sources, View());
      FirstPageEffect();
    }

    method Supersede()
      modifies this
      ensures View() == Superseded(old(View()))
    {
      generation := generation + 1;
      log := log.(aborted := log.aborted + SetOf(controller));
      controller := None;
      loading := true;
      error := None;
      cursor := None;
      pageOwner := None;
    }

    method RunPage(append: bool)
      modifies this
      ensures View() == PageRequested(sources, old(View()), append)
    {
      if signals.source !in sources {
        return;
      }
      generation := generation + 1;
      var at := if append then cursor else None;
      var inFolder := if sources[signals.source] && signals.folder != "" then Some(signals.folder) else None;
      var key := Key(signals.source, Trim(signals.query), signals.filters, inFolder);
      log := log.(aborted := log.aborted + SetOf(controller),
                  sent := log.sent[generation := Request(key, append, at)],
                  unsettled := log.unsettled + {generation});
      controller := Some(generation);
      loading := true;
      error := None;
      if !append {
        pageOwner := None;
      }
    }

    method FirstPageEffect()
      modifies this
      ensures View() == FirstPage(sources, old(View()))
    {
      var typed := signals.query != last.query && signals.source == last.source;
      last := Seen(signals.query, signals.source);
      debounceTimer := false;
      if typed {
        Supersede();
        debounceTimer := true;
      } else {
        RunPage(false);
      }
    }

    method TypeQuery(q: string)
      requires log.mounted
      modifies this
      ensures View() == Step(sources, old(View()), Typed(q))
    {
      if q != signals.query {
        signals := signals.(query := q);
        FirstPageEffect();
      }
    }

    method SwitchSource(id: string)
      requires log.mounted && id in sources
      modifies this
      ensures View() == Step(sources, old(View()), SourceSelected(id))
    {
      if id != signals.source || signals.folder != "" {
        signals := signals.(source := id, folder := "");
        FirstPageEffect();
      }
    }

    method NavigateFolder(path: string)
      requires log.mounted
      modifies this
      ensures View() == Step(sources, old(View()), FolderEntered(path))
    {
      if path != signals.folder {
        signals := signals.(folder := path);
        FirstPageEffect();
      }
    }

    method SetFilter(id: string, value: string)
      requires log.mounted
      modifies this
      ensures View() == Step(sources, old(View()), FilterSet(id, value))
    {
      signals := signals.(filters := signals.filters[id := value]);
      FirstPageEffect();
    }

    method Refresh()
      requires log.mounted
      modifies this
      ensures View() == Step(sources, old(View()), Refreshed)
    {
      FirstPageEffect();
    }

    method DebounceFires()
      requires debounceTimer
      modifies this
      ensures View() == Step(sources, old(View()), DebounceFired)
    {
      debounceTimer := false;
      RunPage(false);
    }

    /** The button is rendered while there is a cursor and disabled while loading. */
    method LoadMore()
      requires log.mounted && cursor.Some? && !loading
      modifies this
      ensures View() == Step(sources, old(View()), LoadMoreClicked)
    {
      RunPage(true);
    }

    /** The button is rendered with an error and disabled while loading. */
    method Retry()
      requires log.mounted && error.Some? && !loading
      modifies this
      ensures View() == Step(sources, old(View()), RetryClicked)
    {
      RunPage(false);
    }

    /** `append` is the value the request's closure captured. */
    method PageArrives(gen: nat, append: bool, page: Page)
      requires gen in log.unsettled && gen in log.sent && log.sent[gen].append == append
      modifies this
      ensures View() == Step(sources, old(View()), PageArrived(gen, page))
    {
      if gen != generation {
        log := log.(unsettled := log.unsettled - {gen});
        return;
      }
      items := if append then items + page.items else page.items;
      cursor := page.cursor;
      total := page.total;
      pageOwner := page.owner;
      loading := false;
      log := log.(unsettled := log.unsettled - {gen}, chain := (if append then log.chain else []) + [Commit(gen, page)]);
    }

    method PageFails(gen: nat, append: bool, message: string)
      requires gen in log.unsettled && gen in log.sent && log.sent[gen].append == append
      modifies this
      ensures View() == Step(sources, old(View()), PageFailed(gen, message))
    {
      if gen != generation {
        log := log.(unsettled := log.unsettled - {gen});
        return;
      }
      if !append {
        items := [];
        pageOwner := None;
      }
      log := log.(unsettled := log.unsettled - {gen}, chain := if append then log.chain else []);
      cursor := None;
      loading := false;
      error := Some(message);
    }

    method CleanUp()
      requires log.mounted
      modifies this
      ensures View() == Step(sources, old(View()), Unmounted)
    {
      debounceTimer := false;
      generation := generation + 1;
      log := log.(aborted := log.aborted + SetOf(controller), mounted := false);
    }

    /** Any enabled event keeps the object valid. `append` is what a reply's closure captured. */
    method Handle(e: Event, append: bool)
      requires Valid() && Enabled(sources, View(), e)
      requires e.PageArrived? || e.PageFailed? ==> append == log.sent[e.gen].append
      modifies this
      ensures Valid() && View() == Step(sources, old(View()), e)
    {
      StepKeepsInv(sources, View(), e);
      match e
      case Typed(q) => TypeQuery(q);
      case SourceSelected(id) => SwitchSource(id);
      case FolderEntered(path) => NavigateFolder(path);
      case FilterSet(id, value) => SetFilter(id, value);
      case Refreshed => Refresh();
      case DebounceFired => DebounceFires();
      case LoadMoreClicked => LoadMore();
      case RetryClicked => Retry();
      case PageArrived(gen, page) => PageArrives(gen, append, page);
      case PageFailed(gen, message) => PageFails(gen, append, message);
      case Unmounted => CleanUp();
    }
  }
}
