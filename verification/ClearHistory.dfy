/**
 * The two-click "clear run history" (packages/app/src/App.tsx) composed with the collection
 * panel that hands it the owner of the page on screen. The library panel in between passes
 * the click through unchanged.
 *
 * A timer never fires early; `late` bounds how long after its due time it may still fire.
 */
module ClearHistory {
  import opened Prelude
  import CP = PagingProtocol

  const ARM_MS: nat := 4000

  /** The button's variables: armed, the owner it was armed for, and when the timer is due. */
  datatype Arm = Arm(armed: bool, owner: Option<string>, due: Option<nat>)

  /** A click on the enabled source action, with the panel it was made on. */
  datatype Click = Click(time: nat, panel: CP.Panel)

  /** A run history that was cleared, and the clicks that armed and confirmed it. */
  datatype Clear = Clear(owner: string, arming: nat, confirming: nat)

  datatype World = World(
    panel: CP.Panel,
    arm: Arm,
    now: nat,
    clicks: seq<Click>,
    clears: seq<Clear>,
    armedBy: nat)

  datatype Event =
    | PanelEvent(e: CP.Event)
    | PanelReopened(source: string, filters: map<string, string>)
    | ActionClicked
    | ArmTimerFired
    | TimePassed(ms: nat)

  datatype Outcome = Outcome(arm: Arm, cleared: Option<string>)

  /** `librarySourceAction`: what one click does to the button, and whose history it clears. */
  function SourceAction(arm: Arm, sourceId: string, actionId: string, owner: Option<string>, now: nat): Outcome {
    if sourceId != "runs" || actionId != "clear" || owner == None then Outcome(arm, None)
    else if !arm.armed || arm.owner != owner then Outcome(Arm(true, owner, Some(now + ARM_MS)), None)
    else Outcome(Arm(false, arm.owner, None), owner)
  }

  /** The action is rendered for the runs source only and is disabled while the panel loads. */
  predicate ActionEnabled(p: CP.Panel) {
    p.log.mounted && !p.loading && p.signals.source == "runs"
  }

  predicate Enabled(sources: CP.Sources, late: nat, w: World, e: Event) {
    match e
    case PanelEvent(_) => true
    case PanelReopened(source, _) => !w.panel.log.mounted && source in sources
    case ActionClicked => ActionEnabled(w.panel)
    case ArmTimerFired => w.arm.due.Some? && w.arm.due.value <= w.now
    case TimePassed(ms) => w.arm.due.Some? ==> w.now + ms <= w.arm.due.value + late
  }

  function Clicked(w: World): World {
    var out := SourceAction(w.arm, w.panel.signals.source, "clear", w.panel.pageOwner, w.now);
    var at := |w.clicks|;
    w.(arm := out.arm,
       clicks := w.clicks + [Click(w.now, w.panel)],
       clears := if out.cleared.Some? then w.clears + [Clear(out.cleared.value, w.armedBy, at)] else w.clears,
       armedBy := if out.arm.armed && out.arm != w.arm then at else w.armedBy)
  }

  function Step(sources: CP.Sources, late: nat, w: World, e: Event): World {
    if !Enabled(sources, late, w, e) then w else
    match e
    case PanelEvent(pe) => w.(panel := CP.Step(sources, w.panel, pe))
    case PanelReopened(source, filters) => w.(panel := CP.Mounted(sources, source, filters))
    case ActionClicked => Clicked(w)
    case ArmTimerFired => w.(arm := Arm(false, w.arm.owner, None))
    case TimePassed(ms) => w.(now := w.now + ms)
  }

  function Start(sources: CP.Sources, source: string, filters: map<string, string>): World {
    World(CP.Mounted(sources, source, filters), Arm(false, None, None), 0, [], [], 0)
  }

  function Run(sources: CP.Sources, late: nat, w: World, events: seq<Event>): World {
    if events == [] then w
    else Step(sources, late, Run(sources, late, w, events[..|events| - 1]), events[|events| - 1])
  }

  // ---- Safety ----

  /** `o` owned the last committed page when this click was made, and nothing was loading. */
  ghost predicate ClickShows(c: Click, o: string) {
    var chain := c.panel.log.chain;
    && c.panel.pageOwner == Some(o)
    && c.panel.signals.source == "runs"
    && !c.panel.loading
    && chain != []
    && chain[|chain| - 1].page.owner == Some(o)
  }

  ghost predicate Justified(late: nat, clicks: seq<Click>, c: Clear) {
    && c.arming < c.confirming < |clicks|
    && ClickShows(clicks[c.arming], c.owner)
    && ClickShows(clicks[c.confirming], c.owner)
    && clicks[c.confirming].time - clicks[c.arming].time <= ARM_MS + late
    && forall k :: c.arming < k < c.confirming ==> clicks[k].panel.pageOwner == None
  }

  /** Two clears never share a click. */
  ghost predicate Disjoint(clears: seq<Clear>) {
    forall i, j :: 0 <= i < j < |clears| ==> clears[i].confirming < clears[j].arming
  }

  ghost predicate ClicksInv(sources: CP.Sources, w: World) {
    forall k :: 0 <= k < |w.clicks| ==>
      && w.clicks[k].time <= w.now
      && ActionEnabled(w.clicks[k].panel)
      && (w.clicks[k].panel.pageOwner.Some? ==> ClickShows(w.clicks[k], w.clicks[k].panel.pageOwner.value))
  }

  ghost predicate ArmInv(late: nat, w: World) {
    && (w.arm.due.Some? <==> w.arm.armed)
    && (w.arm.armed ==>
          && w.armedBy < |w.clicks|
          && w.arm.owner.Some?
          && w.clicks[w.armedBy].panel.pageOwner == w.arm.owner
          && w.arm.due == Some(w.clicks[w.armedBy].time + ARM_MS)
          && w.now <= w.arm.due.value + late
          && (forall k :: w.armedBy < k < |w.clicks| ==> w.clicks[k].panel.pageOwner == None)
          && (forall i :: 0 <= i < |w.clears| ==> w.clears[i].confirming < w.armedBy))
  }

  ghost predicate Inv(sources: CP.Sources, late: nat, w: World) {
    && CP.Inv(sources, w.panel)
    && ClicksInv(sources, w)
    && ArmInv(late, w)
    && (forall i :: 0 <= i < |w.clears| ==> Justified(late, w.clicks, w.clears[i]))
    && Disjoint(w.clears)
  }

  lemma JustifiedStays(late: nat, clicks: seq<Click>, more: Click, c: Clear)
    requires Justified(late, clicks, c)
    ensures Justified(late, clicks + [more], c)
  {
  }

  lemma EnabledClickShows(sources: CP.Sources, w: World)
    requires CP.Inv(sources, w.panel) && ActionEnabled(w.panel) && w.panel.pageOwner.Some?
    ensures ClickShows(Click(w.now, w.panel), w.panel.pageOwner.value)
  {
  }

  lemma ClickKeepsClicks(sources: CP.Sources, w: World)
    requires ClicksInv(sources, w) && ActionEnabled(w.panel)
    requires w.panel.pageOwner.Some? ==> ClickShows(Click(w.now, w.panel), w.panel.pageOwner.value)
    ensures ClicksInv(sources, Clicked(w))
  {
  }

  lemma ClickKeepsArm(late: nat, w: World)
    requires ArmInv(late, w) && ActionEnabled(w.panel)
    requires w.panel.pageOwner.Some? ==> w.panel.signals.source == "runs"
    requires forall i :: 0 <= i < |w.clears| ==> w.clears[i].confirming < |w.clicks|
    ensures ArmInv(late, Clicked(w))
  {
  }

  lemma NewClearIsJustified(late: nat, w: World)
    requires ArmInv(late, w) && |Clicked(w).clears| > |w.clears|
    requires w.panel.pageOwner.Some? ==> ClickShows(Click(w.now, w.panel), w.panel.pageOwner.value)
    requires w.arm.armed ==> w.arm.owner.Some? && ClickShows(w.clicks[w.armedBy], w.arm.owner.value)
    ensures Clicked(w).clears == w.clears + [Clicked(w).clears[|w.clears|]]
    ensures Justified(late, Clicked(w).clicks, Clicked(w).clears[|w.clears|])
    ensures w.arm.armed && Clicked(w).clears[|w.clears|].arming == w.armedBy
  {
  }

  lemma ClickKeepsClears(late: nat, w: World)
    requires ArmInv(late, w) && Disjoint(w.clears)
    requires forall i :: 0 <= i < |w.clears| ==> Justified(late, w.clicks, w.clears[i])
    requires w.panel.pageOwner.Some? ==> ClickShows(Click(w.now, w.panel), w.panel.pageOwner.value)
    requires w.arm.armed ==> w.arm.owner.Some? && ClickShows(w.clicks[w.armedBy], w.arm.owner.value)
    ensures Disjoint(Clicked(w).clears)
    ensures forall i :: 0 <= i < |Clicked(w).clears| ==> Justified(late, Clicked(w).clicks, Clicked(w).clears[i])
  {
    forall i | 0 <= i < |w.clears|
      ensures Justified(late, w.clicks + [Click(w.now, w.panel)], w.clears[i])
    {
      JustifiedStays(late, w.clicks, Click(w.now, w.panel), w.clears[i]);
    }
    if |Clicked(w).clears| > |w.clears| {
      NewClearIsJustified(late, w);
    }
  }

  lemma ClickKeepsInv(sources: CP.Sources, late: nat, w: World)
    requires Inv(sources, late, w) && ActionEnabled(w.panel)
    ensures Inv(sources, late, Clicked(w))
  {
    if w.panel.pageOwner.Some? {
      EnabledClickShows(sources, w);
    }
    ClickKeepsClicks(sources, w);
    ClickKeepsArm(late, w);
    ClickKeepsClears(late, w);
  }

  lemma {:induction false} StepKeepsInv(sources: CP.Sources, late: nat, w: World, e: Event)
    requires Inv(sources, late, w)
    ensures Inv(sources, late, Step(sources, late, w, e))
  {
    if Enabled(sources, late, w, e) {
      match e
      case PanelEvent(pe) => CP.StepKeepsInv(sources, w.panel, pe);
      case PanelReopened(source, filters) => CP.RunKeepsInv(sources, source, filters, []);
      case ActionClicked => ClickKeepsInv(sources, late, w);
      case ArmTimerFired =>
      case TimePassed(ms) =>
    }
  }

  /**
   * Every cleared history follows two clicks on the enabled action, at most 4000 ms (plus the
   * timer's lateness) apart, both made while that owner's page was the last committed one and
   * nothing was loading, with no click for another owner between them; and no click is used twice.
   */
  lemma {:induction false} EveryClearIsConfirmed(sources: CP.Sources, late: nat, source: string,
                                                 filters: map<string, string>, events: seq<Event>)
    requires source in sources
    ensures var w := Run(sources, late, Start(sources, source, filters), events);
            && Inv(sources, late, w)
            && (forall i :: 0 <= i < |w.clears| ==> Justified(late, w.clicks, w.clears[i]))
            && Disjoint(w.clears)
  {
    if events == [] {
      CP.RunKeepsInv(sources, source, filters, []);
    } else {
      var before := events[..|events| - 1];
      EveryClearIsConfirmed(sources, late, source, filters, before);
      StepKeepsInv(sources, late, Run(sources, late, Start(sources, source, filters), before), events[|events| - 1]);
    }
  }

  /** A punctual timer gives the window the button promises. */
  lemma {:induction false} PunctualWindow(sources: CP.Sources, source: string, filters: map<string, string>, events: seq<Event>, c: Clear)
    requires source in sources
    requires c in Run(sources, 0, Start(sources, source, filters), events).clears
    ensures var clicks := Run(sources, 0, Start(sources, source, filters), events).clicks;
            && c.arming < c.confirming < |clicks|
            && clicks[c.confirming].time - clicks[c.arming].time <= ARM_MS
            && clicks[c.arming].panel.pageOwner == clicks[c.confirming].panel.pageOwner == Some(c.owner)
  {
    EveryClearIsConfirmed(sources, 0, source, filters, events);
  }

  /** And the button does work: a second click inside the window clears what the first one armed. */
  lemma {:induction false} SecondClickClears(sources: CP.Sources, late: nat, w: World, ms: nat, o: string)
    requires ActionEnabled(w.panel) && w.panel.pageOwner == Some(o)
    requires !(w.arm.armed && w.arm.owner == Some(o)) && ms <= ARM_MS
    ensures var n := |w.clicks|;
            Run(sources, late, w, [ActionClicked, TimePassed(ms), ActionClicked]).clears
            == w.clears + [Clear(o, n, n + 1)]
  {
    var events := [ActionClicked, TimePassed(ms), ActionClicked];
    assert events[..2] == [ActionClicked, TimePassed(ms)] && events[..2][..1] == [ActionClicked];
    assert events[..2][..1][..0] == [];
    assert Run(sources, late, w, events[..2][..1]) == Clicked(w);
    assert Run(sources, late, w, events[..2]) == Clicked(w).(now := w.now + ms);
  }

  class ClearButton {
    var clearArmed: bool
    var armTimerDue: Option<nat>
    var armOwner: Option<string>

    ghost function View(): Arm
      reads this
    {
      Arm(clearArmed, armOwner, armTimerDue)
    }

    constructor ()
      ensures View() == Arm(false, None, None)
    {
      clearArmed, armTimerDue, armOwner := false, None, None;
    }

    /** Returns the owner whose history is to be cleared, if this click confirmed one. */
    method LibrarySourceAction(sourceId: string, actionId: string, owner: Option<string>, now: nat)
      returns (cleared: Option<string>)
      modifies this
      ensures Outcome(View(), cleared) == SourceAction(old(View()), sourceId, actionId, owner, now)
    {
      if sourceId != "runs" || actionId != "clear" {
        return None;
      }
      if owner == None {
        return None;
      }
      if !clearArmed || armOwner != owner {
        armOwner := owner;
        clearArmed := true;
        armTimerDue := Some(now + ARM_MS);
        return None;
      }
      armTimerDue := None;
      clearArmed := false;
      return owner;
    }

    method ArmTimerFires()
      requires armTimerDue.Some?
      modifies this
      ensures View() == Arm(false, old(armOwner), None)
    {
      armTimerDue := None;
      clearArmed := false;
    }
  }
}
