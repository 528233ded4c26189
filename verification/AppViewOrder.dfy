/**
 * Which items the App view lays out on its grid, which flow below it, and in what order a phone shows
 * them (`gridItems`, `fallbackItems`, `mobileItems`, `placeInGrid`, packages/app/src/AppView.tsx).
 */
module AppViewOrder {
  import opened Prelude
  import opened AppLayoutGrid
  import opened AppViewFlow

  /** Placements whose entry is gone are shown only while the view is being arranged. */
  predicate Visible(item: FlowItem, arrange: bool) {
    arrange || !item.MissingFlow?
  }

  function VisibleItems(items: seq<FlowItem>, arrange: bool, n: nat): seq<FlowItem>
    requires n <= |items|
  {
    if n == 0 then [] else
    var before := VisibleItems(items, arrange, n - 1);
    if Visible(items[n - 1], arrange) then before + [items[n - 1]] else before
  }

  // ---- The split ----

  function GridSlots(items: seq<FlowItem>, arrange: bool, n: nat): (slots: seq<Slot>)
    requires n <= |items|
    ensures forall s :: s in slots ==> s.index < n && items[s.index].grid == Some(s.grid)
                                       && Visible(items[s.index], arrange) && s.rank == 0
    ensures forall i, j :: 0 <= i < j < |slots| ==> slots[i].index != slots[j].index
  {
    if n == 0 then [] else
    var before := GridSlots(items, arrange, n - 1);
    if items[n - 1].grid.Some? && Visible(items[n - 1], arrange)
    then before + [Slot(0, items[n - 1].grid.value, n - 1)] else before
  }

  function ItemsAt(items: seq<FlowItem>, slots: seq<Slot>): (r: seq<FlowItem>)
    requires forall s :: s in slots ==> s.index < |items|
    ensures |r| == |slots| && forall i :: 0 <= i < |r| ==> r[i] == items[slots[i].index]
  {
    seq(|slots|, i requires 0 <= i < |slots| => assert slots[i] in slots; items[slots[i].index])
  }

  function GridItems(items: seq<FlowItem>, arrange: bool): seq<FlowItem> {
    SortedSame(GridSlots(items, arrange, |items|));
    ItemsAt(items, Sorted(GridSlots(items, arrange, |items|)))
  }

  function FallbackItems(items: seq<FlowItem>, arrange: bool, n: nat): seq<FlowItem>
    requires n <= |items|
  {
    if n == 0 then [] else
    var before := FallbackItems(items, arrange, n - 1);
    if items[n - 1].grid.None? && Visible(items[n - 1], arrange) then before + [items[n - 1]] else before
  }

  /** The order a phone shows by itself: the grid in reading order, then the rest. */
  function AutomaticOrder(items: seq<FlowItem>, arrange: bool): seq<FlowItem> {
    GridItems(items, arrange) + FallbackItems(items, arrange, |items|)
  }

  lemma {:induction false} SortedSame(slots: seq<Slot>)
    ensures multiset(Sorted(slots)) == multiset(slots)
    ensures forall s :: s in Sorted(slots) <==> s in slots
  {
    if slots != [] {
      var init, s := slots[..|slots| - 1], slots[|slots| - 1];
      assert slots == init + [s];
      SortedSame(init);
      InsertedHolds(Sorted(init), s);
    }
    forall s
      ensures s in Sorted(slots) <==> s in slots
    {
      assert s in multiset(Sorted(slots)) <==> s in multiset(slots);
    }
  }

  lemma {:induction false} InsertedItems(items: seq<FlowItem>, slots: seq<Slot>, s: Slot)
    requires (forall t :: t in slots ==> t.index < |items|) && s.index < |items|
    requires forall t :: t in Inserted(slots, s) ==> t.index < |items|
    ensures multiset(ItemsAt(items, Inserted(slots, s))) == multiset(ItemsAt(items, slots)) + multiset{items[s.index]}
  {
    if slots == [] || Before(slots[|slots| - 1], s) {
      assert ItemsAt(items, slots + [s]) == ItemsAt(items, slots) + [items[s.index]];
    } else {
      var init, last := slots[..|slots| - 1], slots[|slots| - 1];
      assert slots == init + [last];
      assert forall t :: t in Inserted(init, s) ==> t in Inserted(slots, s);
      InsertedItems(items, init, s);
      assert ItemsAt(items, Inserted(slots, s)) == ItemsAt(items, Inserted(init, s)) + [items[last.index]];
      assert ItemsAt(items, slots) == ItemsAt(items, init) + [items[last.index]];
    }
  }

  /** Sorting the slots loses and duplicates no item. */
  lemma {:induction false} SortedItems(items: seq<FlowItem>, slots: seq<Slot>)
    requires forall s :: s in slots ==> s.index < |items|
    requires forall s :: s in Sorted(slots) ==> s.index < |items|
    ensures multiset(ItemsAt(items, Sorted(slots))) == multiset(ItemsAt(items, slots))
  {
    if slots != [] {
      var init, s := slots[..|slots| - 1], slots[|slots| - 1];
      assert slots == init + [s];
      SortedSame(init);
      SortedItems(items, init);
      InsertedItems(items, Sorted(init), s);
      assert ItemsAt(items, slots) == ItemsAt(items, init) + [items[s.index]];
    }
  }

  /** The items with a rectangle, before sorting. */
  function GridUnsorted(items: seq<FlowItem>, arrange: bool, n: nat): seq<FlowItem>
    requires n <= |items|
  {
    if n == 0 then [] else
    var before := GridUnsorted(items, arrange, n - 1);
    if items[n - 1].grid.Some? && Visible(items[n - 1], arrange) then before + [items[n - 1]] else before
  }

  lemma {:induction false} SlotsHoldItems(items: seq<FlowItem>, arrange: bool, n: nat)
    requires n <= |items|
    ensures ItemsAt(items, GridSlots(items, arrange, n)) == GridUnsorted(items, arrange, n)
  {
    if n > 0 {
      SlotsHoldItems(items, arrange, n - 1);
    }
  }

  lemma {:induction false} SplitCount(items: seq<FlowItem>, arrange: bool, n: nat, f: FlowItem)
    requires n <= |items|
    ensures multiset(GridUnsorted(items, arrange, n))[f] + multiset(FallbackItems(items, arrange, n))[f]
            == multiset(VisibleItems(items, arrange, n))[f]
  {
    if n > 0 {
      SplitCount(items, arrange, n - 1, f);
    }
  }

  /** Every visible item is on the grid or below it, once. */
  lemma {:induction false} SplitKeepsAll(items: seq<FlowItem>, arrange: bool)
    ensures multiset(AutomaticOrder(items, arrange)) == multiset(VisibleItems(items, arrange, |items|))
  {
    SortedSame(GridSlots(items, arrange, |items|));
    SortedItems(items, GridSlots(items, arrange, |items|));
    SlotsHoldItems(items, arrange, |items|);
    forall f
      ensures multiset(AutomaticOrder(items, arrange))[f] == multiset(VisibleItems(items, arrange, |items|))[f]
    {
      SplitCount(items, arrange, |items|, f);
    }
  }

  /** Grid items come row by row, each row from the left; ties keep the flow's order. */
  lemma GridIsInReadingOrder(items: seq<FlowItem>, arrange: bool, i: nat, j: nat)
    requires i < j < |GridItems(items, arrange)|
    ensures var a, b := GridItems(items, arrange)[i], GridItems(items, arrange)[j];
            && a.grid.Some? && b.grid.Some?
            && (a.grid.value.y < b.grid.value.y
                || (a.grid.value.y == b.grid.value.y && a.grid.value.x < b.grid.value.x)
                || (a.grid.value.y == b.grid.value.y && a.grid.value.x == b.grid.value.x
                    && exists k, m :: 0 <= k < m < |items| && items[k] == a && items[m] == b))
  {
    var slots := GridSlots(items, arrange, |items|);
    SortedSame(slots);
    SortedIs(slots);
    var s, t := Sorted(slots)[i], Sorted(slots)[j];
    assert s in Sorted(slots) && t in Sorted(slots);
    assert Before(s, t);
    assert items[s.index] == GridItems(items, arrange)[i] && items[t.index] == GridItems(items, arrange)[j];
  }

  /** What flows below the grid has no rectangle and keeps the order of the flow. */
  lemma {:induction false} FallbackKeepsFlowOrder(items: seq<FlowItem>, arrange: bool, n: nat, i: nat, j: nat)
    returns (k: nat, m: nat)
    requires n <= |items| && i <= j < |FallbackItems(items, arrange, n)|
    ensures k <= m < n && (i < j ==> k < m)
    ensures items[k] == FallbackItems(items, arrange, n)[i] && items[m] == FallbackItems(items, arrange, n)[j]
    ensures items[k].grid.None? && items[m].grid.None?
  {
    var before := FallbackItems(items, arrange, n - 1);
    if j < |before| {
      k, m := FallbackKeepsFlowOrder(items, arrange, n - 1, i, j);
    } else if i < |before| {
      k, m := FallbackKeepsFlowOrder(items, arrange, n - 1, i, i);
      m := n - 1;
    } else {
      k, m := n - 1, n - 1;
    }
  }

  /** While arranging every item is visible, otherwise all but those whose entry is gone. */
  lemma {:induction false} VisibleItemsAre(items: seq<FlowItem>, arrange: bool, n: nat, f: FlowItem)
    requires n <= |items|
    ensures multiset(VisibleItems(items, arrange, n))[f]
            == if f.MissingFlow? && !arrange then 0 else multiset(items[..n])[f]
  {
    if n > 0 {
      VisibleItemsAre(items, arrange, n - 1, f);
      assert items[..n] == items[..n - 1] + [items[n - 1]];
    }
  }

  // ---- The phone's order ----

  /** Placements are distinct: an id belongs to one item, which occurs once. */
  ghost predicate UniquePlacements(items: seq<FlowItem>) {
    && (forall f, g :: f in items && g in items && LayoutIdOf(f).Some? && LayoutIdOf(f) == LayoutIdOf(g) ==> f == g)
    && (forall f :: f in items && LayoutIdOf(f).Some? ==> multiset(items)[f] == 1)
  }

  function ByLayoutId(items: seq<FlowItem>, id: Id): (found: Option<FlowItem>)
    ensures found.Some? ==> found.value in items && LayoutIdOf(found.value) == Some(id)
    ensures found.None? ==> forall f :: f in items ==> LayoutIdOf(f) != Some(id)
  {
    if items == [] then None else
    var init, last := items[..|items| - 1], items[|items| - 1];
    assert items == init + [last];
    if LayoutIdOf(last) == Some(id) then Some(last) else ByLayoutId(init, id)
  }

  /** The items a customized order names, each at its first occurrence. */
  function Customized(items: seq<FlowItem>, order: seq<Id>): seq<FlowItem> {
    if order == [] then [] else
    var init, id := order[..|order| - 1], order[|order| - 1];
    var found := ByLayoutId(items, id);
    if found.None? || id in init then Customized(items, init) else Customized(items, init) + [found.value]
  }

  /** The other items, in the order they have. */
  function NotNamed(items: seq<FlowItem>, order: seq<Id>): seq<FlowItem> {
    if items == [] then [] else
    var init, last := items[..|items| - 1], items[|items| - 1];
    var id := LayoutIdOf(last);
    if id.Some? && id.value in order then NotNamed(init, order) else NotNamed(init, order) + [last]
  }

  function MobileItems(automatic: seq<FlowItem>, customized: Option<seq<Id>>): seq<FlowItem> {
    if customized.None? then automatic else
    Customized(automatic, customized.value) + NotNamed(automatic, customized.value)
  }

  method OrderForMobile(automatic: seq<FlowItem>, customized: Option<seq<Id>>) returns (result: seq<FlowItem>)
    ensures result == MobileItems(automatic, customized)
  {
    if customized.None? {
      return automatic;
    }
    var order := customized.value;
    var seen: set<Id> := {};
    result := [];
    for i := 0 to |order|
      invariant result == Customized(automatic, order[..i])
      invariant seen == set id | id in order[..i] && ByLayoutId(automatic, id).Some?
    {
      assert order[..i + 1][..i] == order[..i];
      assert order[..i + 1] == order[..i] + [order[i]];
      var found := ByLayoutId(automatic, order[i]);
      if found.Some? && order[i] !in seen {
        seen := seen + {order[i]};
        result := result + [found.value];
      }
    }
    assert order[..|order|] == order;
    for i := 0 to |automatic|
      invariant result == Customized(automatic, order) + NotNamed(automatic[..i], order)
    {
      assert automatic[..i + 1][..i] == automatic[..i];
      assert automatic[i] in automatic;
      var id := LayoutIdOf(automatic[i]);
      if id.None? || id.value !in seen {
        result := result + [automatic[i]];
      }
    }
    assert automatic[..|automatic|] == automatic;
  }

  lemma {:induction false} CustomizedAre(items: seq<FlowItem>, order: seq<Id>)
    requires UniquePlacements(items)
    ensures NoDuplicates(Customized(items, order))
    ensures forall f :: f in Customized(items, order)
                        <==> f in items && LayoutIdOf(f).Some? && LayoutIdOf(f).value in order
  {
    if order != [] {
      var init, id := order[..|order| - 1], order[|order| - 1];
      assert order == init + [id];
      CustomizedAre(items, init);
    }
  }

  lemma {:induction false} NotNamedCount(items: seq<FlowItem>, order: seq<Id>, f: FlowItem)
    ensures multiset(NotNamed(items, order))[f]
            == if LayoutIdOf(f).Some? && LayoutIdOf(f).value in order then 0 else multiset(items)[f]
  {
    if items != [] {
      assert items == items[..|items| - 1] + [items[|items| - 1]];
      NotNamedCount(items[..|items| - 1], order, f);
    }
  }

  /** A phone shows the same items in whatever order. */
  lemma MobileKeepsAll(automatic: seq<FlowItem>, customized: Option<seq<Id>>)
    requires UniquePlacements(automatic)
    ensures multiset(MobileItems(automatic, customized)) == multiset(automatic)
  {
    if customized.Some? {
      var order := customized.value;
      CustomizedAre(automatic, order);
      forall f
        ensures multiset(MobileItems(automatic, customized))[f] == multiset(automatic)[f]
      {
        NotNamedCount(automatic, order, f);
        NoDuplicatesMultiplicity(Customized(automatic, order), f);
      }
    }
  }

  /** Named items lead; of two, the one whose first mention is earlier comes first. */
  lemma {:induction false} NamedComeInOrder(items: seq<FlowItem>, order: seq<Id>, i: nat, j: nat)
    requires UniquePlacements(items) && i < j < |Customized(items, order)|
    ensures var a, b := LayoutIdOf(Customized(items, order)[i]), LayoutIdOf(Customized(items, order)[j]);
            a.Some? && b.Some? && exists k :: 0 <= k < |order| && order[k] == a.value && b.value !in order[..k + 1]
  {
    var init, id := order[..|order| - 1], order[|order| - 1];
    assert order == init + [id];
    var before := Customized(items, init);
    if j < |before| {
      NamedComeInOrder(items, init, i, j);
      var a, b := LayoutIdOf(before[i]), LayoutIdOf(before[j]);
      var k :| 0 <= k < |init| && init[k] == a.value && b.value !in init[..k + 1];
      assert init[..k + 1] == order[..k + 1] && order[k] == a.value;
    } else {
      CustomizedAre(items, init);
      assert before[i] in before;
      var a := LayoutIdOf(before[i]).value;
      var k :| 0 <= k < |init| && init[k] == a;
      assert order[k] == a && order[..k + 1] == init[..k + 1];
    }
  }

  /** The other items keep their relative order. */
  lemma {:induction false} OthersKeepOrder(items: seq<FlowItem>, order: seq<Id>, i: nat, j: nat)
    returns (k: nat, m: nat)
    requires i < j < |NotNamed(items, order)|
    ensures k < m < |items| && items[k] == NotNamed(items, order)[i] && items[m] == NotNamed(items, order)[j]
  {
    var init := items[..|items| - 1];
    if j < |NotNamed(init, order)| {
      k, m := OthersKeepOrder(init, order, i, j);
    } else {
      m := |items| - 1;
      k := PlaceInItems(init, order, i);
    }
  }

  lemma {:induction false} PlaceInItems(items: seq<FlowItem>, order: seq<Id>, i: nat) returns (k: nat)
    requires i < |NotNamed(items, order)|
    ensures k < |items| && items[k] == NotNamed(items, order)[i]
  {
    var init := items[..|items| - 1];
    if i < |NotNamed(init, order)| {
      k := PlaceInItems(init, order, i);
    } else {
      k := |items| - 1;
    }
  }

  // ---- Placing an item on the grid ----

  /** The first row below everything on the grid. */
  function Bottom(placed: seq<FlowItem>): (y: int)
    ensures y >= 0
    ensures forall f :: f in placed && f.grid.Some? ==> f.grid.value.y + f.grid.value.h <= y
    ensures y == 0 || exists f :: f in placed && f.grid.Some? && f.grid.value.y + f.grid.value.h == y
  {
    if placed == [] then 0 else
    var init, last := placed[..|placed| - 1], placed[|placed| - 1];
    assert placed == init + [last];
    if last.grid.Some? then Max(Bottom(init), last.grid.value.y + last.grid.value.h) else Bottom(init)
  }

  /** The height that an item's rectangle starts with; a group has two rows for each child and one of its own. */
  function StartHeight(item: FlowItem): int {
    if item.PreviewFlow? then 4 else if item.GroupFlow? then Max(3, |item.children| * 2 + 1) else 2
  }

  function DefaultGridFor(item: FlowItem, placed: seq<FlowItem>): (g: Grid)
    ensures IsCell(g) && forall f :: f in placed && f.grid.Some? ==> !Overlap(g, f.grid.value)
    ensures g.y == 0 || exists f :: f in placed && f.grid.Some? && f.grid.value.y + f.grid.value.h == g.y
    ensures g.x == 0 && g.h == StartHeight(item)
    ensures g.w == 12 <==> item.PreviewFlow? || item.GroupFlow? || (item.LeafFlow? && item.kind == Text)
    ensures g.w == 12 || g.w == 6
  {
    var y := Bottom(placed);
    match item
    case PreviewFlow(_, _, _, _, _) => Grid(0, y, 12, 4)
    case LeafFlow(_, Text, _, _) => Grid(0, y, 12, 2)
    case GroupFlow(_, children, _) => Grid(0, y, 12, Max(3, |children| * 2 + 1))
    case _ => Grid(0, y, 6, 2)
  }

  /** The rectangle avoids every placed item, hidden ones included. */
  ghost predicate AvoidsAll(items: seq<FlowItem>, arrange: bool, item: FlowItem) {
    var g := DefaultGridFor(item, GridItems(items, arrange));
    forall f :: f in items && f.grid.Some? ==> !Overlap(g, f.grid.value)
  }

  /** Placing is safe for every view exactly while arranging, which is when the view offers it. */
  lemma PlacingIsSafeIff(arrange: bool, item: FlowItem)
    ensures (forall items :: AvoidsAll(items, arrange, item)) <==> arrange
  {
    if arrange {
      forall items
        ensures AvoidsAll(items, arrange, item)
      {
        EveryGridItemIsThere(items);
      }
    } else {
      var hidden := MissingFlow(Id("gone"), None, Some(Grid(0, 0, 12, 1)));
      assert GridSlots([hidden], false, 1) == [];
      assert GridItems([hidden], false) == [];
      assert hidden in [hidden];
      assert !AvoidsAll([hidden], false, item);
    }
  }

  lemma EveryGridItemIsThere(items: seq<FlowItem>)
    ensures forall f :: f in items && f.grid.Some? ==> f in GridItems(items, true)
  {
    forall f | f in items && f.grid.Some?
      ensures f in GridItems(items, true)
    {
      var k :| 0 <= k < |items| && items[k] == f;
      SlotIsThere(items, k, |items|);
      SortedSame(GridSlots(items, true, |items|));
      var m :| 0 <= m < |Sorted(GridSlots(items, true, |items|))|
               && Sorted(GridSlots(items, true, |items|))[m] == Slot(0, f.grid.value, k);
      assert GridItems(items, true)[m] == f;
    }
  }

  lemma {:induction false} SlotIsThere(items: seq<FlowItem>, k: nat, n: nat)
    requires k < n <= |items| && items[k].grid.Some?
    ensures Slot(0, items[k].grid.value, k) in GridSlots(items, true, n)
  {
    if k < n - 1 {
      SlotIsThere(items, k, n - 1);
    }
  }

  // ---- The view of a document ----

  lemma SameItemsUnique(a: seq<FlowItem>, b: seq<FlowItem>)
    requires UniquePlacements(a) && multiset(b) <= multiset(a)
    ensures UniquePlacements(b)
  {
    forall f | f in b
      ensures f in a && multiset(b)[f] <= multiset(a)[f] && multiset(b)[f] >= 1
    {
      assert f in multiset(b);
    }
  }

  lemma {:induction false} VisibleAreItems(items: seq<FlowItem>, arrange: bool, n: nat)
    requires n <= |items|
    ensures multiset(VisibleItems(items, arrange, n)) <= multiset(items[..n])
  {
    if n > 0 {
      VisibleAreItems(items, arrange, n - 1);
      assert items[..n] == items[..n - 1] + [items[n - 1]];
    }
  }

  lemma {:induction false} TopLevelWithinAll(items: seq<FlowItem>)
    ensures multiset(items) <= multiset(AllItems(items))
  {
    if items != [] {
      var init, last := items[..|items| - 1], items[|items| - 1];
      assert items == init + [last];
      TopLevelWithinAll(init);
      assert multiset(Shown(last)) == multiset{last} + multiset(if last.GroupFlow? then last.children else []);
    }
  }

  lemma DistinctPlacementsUnique(items: seq<FlowItem>)
    requires forall i, j :: 0 <= i < j < |items| && LayoutIdOf(items[i]).Some? ==> LayoutIdOf(items[i]) != LayoutIdOf(items[j])
    ensures UniquePlacements(items)
  {
    forall f | f in items && LayoutIdOf(f).Some?
      ensures multiset(items)[f] == 1
    {
      var k :| 0 <= k < |items| && items[k] == f;
      assert items == items[..k] + [f] + items[k + 1..];
      assert f !in items[..k] && f !in items[k + 1..];
    }
  }

  /** Whatever the layout, the exposed entries and the customized order, a phone shows exactly the visible items. */
  lemma {:induction false} PhoneShowsTheVisibleItems(doc: Doc, arrange: bool, customized: Option<seq<Id>>)
    requires UniqueIds(doc.layout)
    ensures multiset(MobileItems(AutomaticOrder(Flow(doc), arrange), customized))
            == multiset(VisibleItems(Flow(doc), arrange, |Flow(doc)|))
  {
    var flow := Flow(doc);
    EveryPlacementOnce(doc);
    DistinctPlacementsUnique(AllItems(flow));
    TopLevelWithinAll(flow);
    VisibleAreItems(flow, arrange, |flow|);
    assert flow[..|flow|] == flow;
    SplitKeepsAll(flow, arrange);
    SameItemsUnique(AllItems(flow), AutomaticOrder(flow, arrange));
    MobileKeepsAll(AutomaticOrder(flow, arrange), customized);
  }
}
