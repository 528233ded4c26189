/**
 * Resolving overlaps on the App view's grid (`resolveAppLayoutGrid`, packages/core/src/format/app-layout.ts):
 * placements are pushed down past each other, the edited one stays, and whatever was not pushed moves up
 * where there is room.
 */
module AppLayoutResolve {
  import opened Prelude
  import opened AppLayoutGrid

  const MAX_SAFE: int := 9007199254740991

  datatype PlacementGrid = PlacementGrid(id: Id, grid: Grid)

  /** A rectangle somewhere on or below the first row. */
  predicate IsBox(g: Grid) {
    0 <= g.y && 1 <= g.w && 1 <= g.h
  }

  ghost predicate Boxes(grids: seq<Grid>) {
    forall i :: 0 <= i < |grids| ==> IsBox(grids[i])
  }

  ghost predicate Disjoint(grids: seq<Grid>) {
    forall i, j :: 0 <= i < j < |grids| ==> !Overlap(grids[i], grids[j])
  }

  /** Room for a rectangle, moved to row `y`, beside all the others. */
  predicate Free(g: Grid, y: int, others: seq<Grid>) {
    forall k :: 0 <= k < |others| ==> !Overlap(g.(y := y), others[k])
  }

  // ---- Pushing down ----

  /** A row that a rectangle may be pushed to: its own, or one that keeps it within the safe integers. */
  predicate Allowed(g: Grid, y: int) {
    y == g.y || (y > g.y && y + g.h <= MAX_SAFE)
  }

  /** The first row with room at or below the rectangle's own. */
  ghost predicate LandsOn(g: Grid, y: int, others: seq<Grid>) {
    Allowed(g, y) && Free(g, y, others) && forall z :: g.y <= z < y ==> !Free(g, z, others)
  }

  /** The rectangle on that row, if there is one. */
  ghost function Landed(g: Grid, others: seq<Grid>): (r: Option<Grid>)
    ensures r.Some? ==> r.value == g.(y := r.value.y) && LandsOn(g, r.value.y, others)
    ensures r.None? ==> forall y :: !LandsOn(g, y, others)
  {
    if exists y :: LandsOn(g, y, others) then
      var y :| LandsOn(g, y, others);
      Some(g.(y := y))
    else None
  }

  lemma LandsOnce(g: Grid, y: int, others: seq<Grid>)
    requires LandsOn(g, y, others)
    ensures Landed(g, others) == Some(g.(y := y))
  {
    var r := Landed(g, others);
    assert LandsOn(g, r.value.y, others);
  }

  function LowestEnd(others: seq<Grid>): (end: int)
    ensures forall k :: 0 <= k < |others| ==> others[k].y + others[k].h <= end
    ensures end >= 0
  {
    if others == [] then 0 else
    Max(LowestEnd(others[..|others| - 1]), others[|others| - 1].y + others[|others| - 1].h)
  }

  /** The lowest end among the others that a rectangle overlaps, or its own row. */
  method PastOverlapped(current: Grid, settled: seq<Grid>) returns (y: int)
    ensures y >= current.y
    ensures y == current.y ==> IsBox(current) ==> Free(current, current.y, settled)
    ensures y > current.y ==> exists k :: 0 <= k < |settled| && Overlap(current, settled[k]) && y == settled[k].y + settled[k].h
  {
    y := current.y;
    for i := 0 to |settled|
      invariant y >= current.y
      invariant forall k :: 0 <= k < i && Overlap(current, settled[k]) ==> settled[k].y + settled[k].h <= y
      invariant y > current.y ==>
                  exists k :: 0 <= k < i && Overlap(current, settled[k]) && y == settled[k].y + settled[k].h
    {
      if Overlap(current, settled[i]) {
        y := Max(y, settled[i].y + settled[i].h);
      }
    }
    assert current.(y := current.y) == current;
  }

  /** Between a rectangle and the end of one that it overlaps there is no room. */
  lemma NoRoomBefore(g: Grid, others: seq<Grid>, k: nat, y: int)
    requires k < |others| && Overlap(g, others[k]) && g.y <= y < others[k].y + others[k].h
    ensures !Free(g, y, others)
  {
    assert Overlap(g.(y := y), others[k]);
  }

  /** The first row at or below its own with room, unless that leaves the safe integers. */
  method PushedDown(g: Grid, settled: seq<Grid>) returns (r: Option<Grid>)
    requires IsBox(g)
    ensures r == Landed(g, settled)
    ensures r.Some? ==> r.value == g.(y := r.value.y) && r.value.y >= g.y && Free(g, r.value.y, settled)
    ensures r.Some? ==> forall y :: g.y <= y < r.value.y ==> !Free(g, y, settled)
    ensures r.None? <==> forall y :: Allowed(g, y) ==> !Free(g, y, settled)
  {
    var current := g;
    while true
      invariant current == g.(y := current.y) && Allowed(g, current.y)
      invariant forall y :: g.y <= y < current.y ==> !Free(g, y, settled)
      decreases Max(LowestEnd(settled), g.y) - current.y
    {
      var y := PastOverlapped(current, settled);
      if y == current.y {
        LandsOnce(g, y, settled);
        return Some(current);
      }
      var k :| 0 <= k < |settled| && Overlap(current, settled[k]) && y == settled[k].y + settled[k].h;
      forall z | current.y <= z < y
        ensures !Free(g, z, settled)
      {
        NoRoomBefore(current, settled, k, z);
        assert current.(y := z) == g.(y := z);
      }
      if y > MAX_SAFE || y + current.h > MAX_SAFE {
        return None;
      }
      current := current.(y := y);
    }
  }

  // ---- The order of settling ----

  function Slots(placements: seq<PlacementGrid>, priority: Option<Id>, n: nat): (slots: seq<Slot>)
    requires n <= |placements|
    ensures |slots| == n
    ensures forall i :: 0 <= i < n ==>
              slots[i] == Slot(if Some(placements[i].id) == priority then -1 else 0, placements[i].grid, i)
  {
    if n == 0 then [] else
    Slots(placements, priority, n - 1) +
    [Slot(if Some(placements[n - 1].id) == priority then -1 else 0, placements[n - 1].grid, n - 1)]
  }

  /** Every index once. */
  ghost predicate Covers(order: seq<nat>, n: nat) {
    && (forall k :: 0 <= k < |order| ==> order[k] < n)
    && (forall j, k :: 0 <= j < k < |order| ==> order[j] != order[k])
    && (forall i :: 0 <= i < n ==> i in order)
  }

  function Indices(slots: seq<Slot>): (r: seq<nat>)
    ensures |r| == |slots| && forall k :: 0 <= k < |r| ==> r[k] == slots[k].index
  {
    seq(|slots|, k requires 0 <= k < |slots| => slots[k].index)
  }

  /** The edited placement first, then in reading order. */
  function Order(placements: seq<PlacementGrid>, priority: Option<Id>): seq<nat> {
    Indices(Sorted(Slots(placements, priority, |placements|)))
  }

  lemma {:induction false} SortedSlot(placements: seq<PlacementGrid>, priority: Option<Id>, k: nat)
    requires k < |Sorted(Slots(placements, priority, |placements|))|
    ensures var sorted, slots := Sorted(Slots(placements, priority, |placements|)), Slots(placements, priority, |placements|);
            sorted[k].index < |placements| && sorted[k] == slots[sorted[k].index]
  {
    var sorted, slots := Sorted(Slots(placements, priority, |placements|)), Slots(placements, priority, |placements|);
    SortedIs(slots);
    assert sorted[k] in multiset(sorted);
    var i :| 0 <= i < |slots| && slots[i] == sorted[k];
  }

  lemma SlotSorted(placements: seq<PlacementGrid>, priority: Option<Id>, i: nat) returns (k: nat)
    requires i < |placements|
    ensures var sorted, slots := Sorted(Slots(placements, priority, |placements|)), Slots(placements, priority, |placements|);
            k < |sorted| && sorted[k] == slots[i]
  {
    var sorted, slots := Sorted(Slots(placements, priority, |placements|)), Slots(placements, priority, |placements|);
    SortedIs(slots);
    assert slots[i] in multiset(slots);
    k :| 0 <= k < |sorted| && sorted[k] == slots[i];
  }

  lemma OrderCovers(placements: seq<PlacementGrid>, priority: Option<Id>)
    ensures Covers(Order(placements, priority), |placements|)
  {
    var order := Order(placements, priority);
    var sorted := Sorted(Slots(placements, priority, |placements|));
    forall k | 0 <= k < |order|
      ensures order[k] < |placements|
    {
      SortedSlot(placements, priority, k);
    }
    forall i | 0 <= i < |placements|
      ensures i in order
    {
      var k := SlotSorted(placements, priority, i);
      assert order[k] == i;
    }
    forall j, k | 0 <= j < k < |order|
      ensures order[j] != order[k]
    {
      SortedIs(Slots(placements, priority, |placements|));
      SortedSlot(placements, priority, j);
      SortedSlot(placements, priority, k);
      assert Before(sorted[j], sorted[k]);
    }
  }

  /** The placement's id is the edited one's, and no other placement's. */
  ghost predicate Edited(placements: seq<PlacementGrid>, priority: Option<Id>, i: nat) {
    && i < |placements| && priority == Some(placements[i].id)
    && forall j :: 0 <= j < |placements| && j != i ==> placements[j].id != placements[i].id
  }

  lemma EditedIsFirst(placements: seq<PlacementGrid>, priority: Option<Id>, i: nat)
    requires Edited(placements, priority, i)
    ensures |Order(placements, priority)| > 0 && Order(placements, priority)[0] == i
  {
    var sorted := Sorted(Slots(placements, priority, |placements|));
    var k := SlotSorted(placements, priority, i);
    SortedSlot(placements, priority, 0);
    SortedIs(Slots(placements, priority, |placements|));
    assert k > 0 ==> Before(sorted[0], sorted[k]);
  }

  /** `j` is settled before `i`: the edited placement first, then from the top, the left and the start of the list. */
  predicate Precedes(placements: seq<PlacementGrid>, priority: Option<Id>, j: nat, i: nat)
    requires j < |placements| && i < |placements|
  {
    var rankJ := if Some(placements[j].id) == priority then 0 else 1;
    var rankI := if Some(placements[i].id) == priority then 0 else 1;
    var a, b := placements[j].grid, placements[i].grid;
    if rankJ != rankI then rankJ < rankI else
    a.y < b.y || (a.y == b.y && (a.x < b.x || (a.x == b.x && j < i)))
  }

  lemma PrecedesIsBefore(placements: seq<PlacementGrid>, priority: Option<Id>, j: nat, i: nat)
    requires j < |placements| && i < |placements|
    ensures var slots := Slots(placements, priority, |placements|);
            Precedes(placements, priority, j, i) <==> Before(slots[j], slots[i])
  {
  }

  lemma OrderPrecedes(placements: seq<PlacementGrid>, priority: Option<Id>, order: seq<nat>, a: nat, b: nat)
    requires order == Order(placements, priority) && a < |order| && b < |order|
    ensures order[a] < |placements| && order[b] < |placements|
    ensures a < b <==> Precedes(placements, priority, order[a], order[b])
  {
    var sorted := Sorted(Slots(placements, priority, |placements|));
    SortedIs(Slots(placements, priority, |placements|));
    SortedSlot(placements, priority, a);
    SortedSlot(placements, priority, b);
    PrecedesIsBefore(placements, priority, order[a], order[b]);
    assert a < b ==> Before(sorted[a], sorted[b]);
    assert b < a ==> Before(sorted[b], sorted[a]);
  }

  // ---- Settling ----

  /** The rectangles at some indices. */
  function At(grids: seq<Grid>, indices: seq<nat>): (r: seq<Grid>)
    requires forall k :: 0 <= k < |indices| ==> indices[k] < |grids|
    ensures |r| == |indices| && forall k :: 0 <= k < |r| ==> r[k] == grids[indices[k]]
  {
    seq(|indices|, k requires 0 <= k < |indices| => grids[indices[k]])
  }

  /** Nothing but rows changes. */
  ghost predicate SameShapes(before: seq<Grid>, after: seq<Grid>) {
    && |after| == |before|
    && forall i :: 0 <= i < |before| ==> after[i] == before[i].(y := after[i].y) && after[i].y >= 0
  }

  ghost predicate SettledApart(grids: seq<Grid>, order: seq<nat>, n: nat)
    requires n <= |order| && forall k :: 0 <= k < |order| ==> order[k] < |grids|
  {
    forall j, k :: 0 <= j < k < n ==> !Overlap(grids[order[j]], grids[order[k]])
  }

  lemma SettleOne(grids: seq<Grid>, order: seq<nat>, n: nat, g: Grid)
    requires n < |order| && Covers(order, |grids|) && SettledApart(grids, order, n)
    requires g == grids[order[n]].(y := g.y) && Free(grids[order[n]], g.y, At(grids, order[..n]))
    ensures SettledApart(grids[order[n] := g], order, n + 1)
  {
    var after := grids[order[n] := g];
    forall j, k | 0 <= j < k < n + 1
      ensures !Overlap(after[order[j]], after[order[k]])
    {
      assert order[j] != order[n];
      if k == n {
        assert At(grids, order[..n])[j] == grids[order[j]];
        assert !Overlap(g, grids[order[j]]);
      } else {
        assert order[k] != order[n];
      }
    }
  }

  /** The first `n` rectangles in turn, each on the first row with room beside those before it. */
  ghost function Settling(grids: seq<Grid>, order: seq<nat>, n: nat): (r: Option<seq<Grid>>)
    requires n <= |order| && forall k :: 0 <= k < |order| ==> order[k] < |grids|
    ensures r.Some? ==> |r.value| == |grids|
  {
    if n == 0 then Some(grids) else
    var before := Settling(grids, order, n - 1);
    if before.None? then None else
    var g := Landed(before.value[order[n - 1]], At(before.value, order[..n - 1]));
    if g.None? then None else Some(before.value[order[n - 1] := g.value])
  }

  lemma {:induction false} SettlingStops(grids: seq<Grid>, order: seq<nat>, n: nat, m: nat)
    requires n <= m <= |order| && forall k :: 0 <= k < |order| ==> order[k] < |grids|
    requires Settling(grids, order, n).None?
    ensures Settling(grids, order, m).None?
  {
    if n < m {
      SettlingStops(grids, order, n, m - 1);
    }
  }

  /** The `k`th rectangle in turn is where settling puts it beside those before it. */
  ghost predicate LandsInTurn(grids: seq<Grid>, order: seq<nat>, s: seq<Grid>, k: nat)
    requires |s| == |grids| && k < |order| && forall j :: 0 <= j < |order| ==> order[j] < |grids|
  {
    Landed(grids[order[k]], At(s, order[..k])) == Some(s[order[k]])
  }

  ghost predicate Agrees(r: Option<seq<Grid>>, s: seq<Grid>, order: seq<nat>, n: nat)
    requires Covers(order, |s|) && n <= |order| && (r.Some? ==> |r.value| == |s|)
  {
    r.Some? && forall k :: 0 <= k < n ==> r.value[order[k]] == s[order[k]]
  }

  /** Settling the first `n` succeeds with given places exactly when each of them lands there. */
  lemma {:induction false} SettlingIff(grids: seq<Grid>, order: seq<nat>, n: nat, s: seq<Grid>)
    requires Covers(order, |grids|) && |s| == |grids| && n <= |order|
    ensures var r := Settling(grids, order, n);
            Agrees(r, s, order, n) <==> forall k :: 0 <= k < n ==> LandsInTurn(grids, order, s, k)
    ensures Settling(grids, order, n).Some? ==>
              forall k :: n <= k < |order| ==> Settling(grids, order, n).value[order[k]] == grids[order[k]]
  {
    if n > 0 {
      SettlingIff(grids, order, n - 1, s);
      var before, r := Settling(grids, order, n - 1), Settling(grids, order, n);
      if Agrees(before, s, order, n - 1) {
        assert At(before.value, order[..n - 1]) == At(s, order[..n - 1]);
        assert LandsInTurn(grids, order, s, n - 1) <==> r.Some? && r.value[order[n - 1]] == s[order[n - 1]];
      }
      assert r.Some? ==> forall k :: 0 <= k < n - 1 ==> r.value[order[k]] == before.value[order[k]];
    }
  }

  /** Which rectangles are elsewhere. */
  function Moved(before: seq<Grid>, after: seq<Grid>): (r: set<nat>)
    requires |before| == |after|
    ensures forall i: nat :: i in r <==> i < |before| && after[i] != before[i]
  {
    set i: nat | i < |before| && after[i] != before[i]
  }

  method Settle(grids: seq<Grid>, order: seq<nat>) returns (result: Option<seq<Grid>>, pushed: set<nat>)
    requires Boxes(grids) && Covers(order, |grids|)
    ensures result == Settling(grids, order, |order|)
    ensures result.Some? ==> SameShapes(grids, result.value) && SettledApart(result.value, order, |order|)
    ensures result.Some? && |order| > 0 ==> result.value[order[0]] == grids[order[0]]
    ensures result.Some? ==> pushed == Moved(grids, result.value)
  {
    var states := grids;
    pushed := {};
    for n := 0 to |order|
      invariant Settling(grids, order, n) == Some(states)
      invariant SameShapes(grids, states) && SettledApart(states, order, n)
      invariant forall k :: n <= k < |order| ==> states[order[k]] == grids[order[k]]
      invariant n > 0 ==> states[order[0]] == grids[order[0]]
      invariant pushed == Moved(grids, states)
    {
      var index := order[n];
      assert IsBox(states[index]);
      var settled := At(states, order[..n]);
      var moved := PushedDown(states[index], settled);
      if moved.None? {
        SettlingStops(grids, order, n + 1, |order|);
        return None, pushed;
      }
      SettleOne(states, order, n, moved.value);
      if n == 0 {
        assert settled == [];
        assert Free(states[index], states[index].y, settled);
      }
      if moved.value != states[index] {
        pushed := pushed + {index};
      }
      states := states[index := moved.value];
    }
    return Some(states), pushed;
  }

  // ---- Settling within the safe integers ----

  /** Every row and every height is bounded, so that a stack of all rectangles ends within the safe integers. */
  ghost predicate Stackable(grids: seq<Grid>, count: nat) {
    exists low, tall: nat :: low + count * tall <= MAX_SAFE && Bounded(grids, low, tall)
  }

  ghost predicate Bounded(grids: seq<Grid>, low: int, tall: nat) {
    forall i :: 0 <= i < |grids| ==> grids[i].y <= low && grids[i].h <= tall
  }

  /** With room at some allowed row there is a first one. */
  lemma {:induction false} FirstRowExists(g: Grid, others: seq<Grid>, y: int)
    requires Allowed(g, y) && Free(g, y, others)
    ensures Landed(g, others).Some? && Landed(g, others).value.y <= y
    decreases y - g.y
  {
    if z :| g.y <= z < y && Free(g, z, others) {
      FirstRowExists(g, others, z);
    } else {
      LandsOnce(g, y, others);
    }
  }

  /** The `n` settled rectangles reach no lower than a stack of `n` of the tallest below the lowest row. */
  ghost predicate Stacked(grids: seq<Grid>, order: seq<nat>, n: nat, low: int, tall: nat)
    requires n <= |order| && forall k :: 0 <= k < |order| ==> order[k] < |grids|
  {
    forall k :: 0 <= k < n ==> grids[order[k]].y + grids[order[k]].h <= low + n * tall
  }

  lemma PastAllIsFree(g: Grid, others: seq<Grid>, y: int)
    requires forall k :: 0 <= k < |others| ==> others[k].y + others[k].h <= y
    ensures Free(g, y, others)
  {
  }

  lemma StackOne(states: seq<Grid>, order: seq<nat>, n: nat, low: int, tall: nat)
    requires n < |order| && Covers(order, |states|) && low + (n + 1) * tall <= MAX_SAFE
    requires Stacked(states, order, n, low, tall) && (forall k :: 0 <= k < n ==> IsBox(states[order[k]]))
    requires IsBox(states[order[n]]) && states[order[n]].y <= low && states[order[n]].h <= tall
    ensures var r := Landed(states[order[n]], At(states, order[..n]));
            r.Some? && r.value.y + r.value.h <= low + (n + 1) * tall
  {
    var g, settled := states[order[n]], At(states, order[..n]);
    assert (n + 1) * tall == n * tall + tall;
    var y := low + n * tall;
    PastAllIsFree(g, settled, y);
    FirstRowExists(g, settled, y);
  }

  lemma StackedOn(states: seq<Grid>, order: seq<nat>, n: nat, g: Grid, low: int, tall: nat)
    requires n < |order| && Covers(order, |states|) && Stacked(states, order, n, low, tall)
    requires g.y + g.h <= low + (n + 1) * tall
    ensures Stacked(states[order[n] := g], order, n + 1, low, tall)
  {
    assert (n + 1) * tall == n * tall + tall;
  }

  lemma {:induction false} SettlingFits(grids: seq<Grid>, order: seq<nat>, n: nat, low: int, tall: nat)
    requires Boxes(grids) && Covers(order, |grids|) && n <= |order|
    requires Bounded(grids, low, tall) && low + |order| * tall <= MAX_SAFE
    ensures Settling(grids, order, n).Some? && Stacked(Settling(grids, order, n).value, order, n, low, tall)
    ensures forall k :: n <= k < |order| ==> Settling(grids, order, n).value[order[k]] == grids[order[k]]
    ensures Boxes(Settling(grids, order, n).value)
  {
    if n > 0 {
      SettlingFits(grids, order, n - 1, low, tall);
      var before, index := Settling(grids, order, n - 1).value, order[n - 1];
      assert n * tall <= |order| * tall;
      assert IsBox(grids[index]) && before[index] == grids[index];
      StackOne(before, order, n - 1, low, tall);
      StackedOn(before, order, n - 1, Landed(before[index], At(before, order[..n - 1])).value, low, tall);
    }
  }

  // ---- Moving up ----

  function InsertedInt(s: seq<int>, x: int): seq<int> {
    if s == [] || s[|s| - 1] <= x then s + [x] else InsertedInt(s[..|s| - 1], x) + [s[|s| - 1]]
  }

  function SortedInts(s: seq<int>): seq<int> {
    if s == [] then [] else InsertedInt(SortedInts(s[..|s| - 1]), s[|s| - 1])
  }

  ghost predicate Ascending(s: seq<int>) {
    forall i, j :: 0 <= i < j < |s| ==> s[i] <= s[j]
  }

  lemma {:induction false} InsertedIntIs(s: seq<int>, x: int)
    requires Ascending(s)
    ensures Ascending(InsertedInt(s, x)) && forall y :: y in InsertedInt(s, x) <==> y in s || y == x
  {
    if s != [] && s[|s| - 1] > x {
      InsertedIntIs(s[..|s| - 1], x);
      assert s == s[..|s| - 1] + [s[|s| - 1]];
      var init := InsertedInt(s[..|s| - 1], x);
      forall k | 0 <= k < |init|
        ensures init[k] <= s[|s| - 1]
      {
        assert init[k] in init;
      }
    }
  }

  lemma {:induction false} SortedIntsIs(s: seq<int>)
    ensures Ascending(SortedInts(s)) && forall y :: y in SortedInts(s) <==> y in s
  {
    if s != [] {
      SortedIntsIs(s[..|s| - 1]);
      InsertedIntIs(SortedInts(s[..|s| - 1]), s[|s| - 1]);
      assert s == s[..|s| - 1] + [s[|s| - 1]];
    }
  }

  /** The others share no column with the rectangle. */
  predicate Beside(g: Grid, other: Grid) {
    other.x >= g.x + g.w || other.x + other.w <= g.x
  }

  /** Rows worth trying: the first, and just below each other rectangle in the same columns. */
  function Candidates(g: Grid, others: seq<Grid>): (rows: seq<int>)
    ensures 0 in rows
    ensures forall k :: 0 <= k < |others| && !Beside(g, others[k]) ==> others[k].y + others[k].h in rows
    ensures forall y :: y in rows ==> y == 0 || exists k :: 0 <= k < |others| && y == others[k].y + others[k].h
  {
    if others == [] then [0] else
    var init, last := others[..|others| - 1], others[|others| - 1];
    Candidates(g, init) + if Beside(g, last) then [] else [last.y + last.h]
  }

  function NotBelow(rows: seq<int>, y: int): (r: seq<int>)
    ensures forall row :: row in r <==> row in rows && row <= y
  {
    if rows == [] then [] else
    assert rows == rows[..|rows| - 1] + [rows[|rows| - 1]];
    NotBelow(rows[..|rows| - 1], y) + if rows[|rows| - 1] <= y then [rows[|rows| - 1]] else []
  }

  /** Where there is room at all, there is room at a candidate no lower. */
  lemma SomeCandidateIsFree(g: Grid, others: seq<Grid>, y: int) returns (row: int)
    requires IsBox(g) && y >= 0 && Free(g, y, others)
    ensures row in Candidates(g, others) && row <= y && Free(g, row, others)
  {
    row := BestCandidate(Candidates(g, others), y);
    forall k | 0 <= k < |others|
      ensures !Overlap(g.(y := row), others[k])
    {
      assert !Overlap(g.(y := y), others[k]);
      if !Beside(g, others[k]) {
        assert others[k].y + others[k].h in Candidates(g, others);
      }
    }
  }

  /** The largest row that is not below `y`. */
  lemma BestCandidate(rows: seq<int>, y: int) returns (row: int)
    requires 0 in rows && y >= 0
    ensures row in rows && row <= y && forall r :: r in rows && r <= y ==> r <= row
  {
    row := 0;
    var i := 0;
    while i < |rows|
      invariant 0 <= i <= |rows| && row in rows && row <= y
      invariant forall k :: 0 <= k < i && rows[k] <= y ==> rows[k] <= row
    {
      if row < rows[i] <= y {
        row := rows[i];
      }
      i := i + 1;
    }
  }

  /** The candidates no lower than the rectangle, from the top. */
  function Rows(g: Grid, others: seq<Grid>): seq<int> {
    SortedInts(NotBelow(Candidates(g, others), g.y))
  }

  lemma {:induction false} RowsAre(g: Grid, others: seq<Grid>)
    ensures Ascending(Rows(g, others))
    ensures forall y :: y in Rows(g, others) <==> y in Candidates(g, others) && y <= g.y
  {
    SortedIntsIs(NotBelow(Candidates(g, others), g.y));
  }

  lemma RowWithRoom(g: Grid, others: seq<Grid>, y: int) returns (k: nat)
    requires IsBox(g) && 0 <= y <= g.y && Free(g, y, others)
    ensures k < |Rows(g, others)| && Rows(g, others)[k] <= y && Free(g, Rows(g, others)[k], others)
    ensures forall j :: 0 <= j <= k ==> Rows(g, others)[j] <= Rows(g, others)[k]
  {
    var row := SomeCandidateIsFree(g, others, y);
    RowsAre(g, others);
    k :| 0 <= k < |Rows(g, others)| && Rows(g, others)[k] == row;
  }

  /** Above the first candidate with room there is none, and there is such a candidate. */
  lemma NoRoomAbove(g: Grid, others: seq<Grid>, i: nat, y: int)
    requires IsBox(g) && i <= |Rows(g, others)| && forall k :: 0 <= k < i ==> !Free(g, Rows(g, others)[k], others)
    requires 0 <= y <= g.y && (i < |Rows(g, others)| ==> y < Rows(g, others)[i])
    ensures !Free(g, y, others)
  {
    if Free(g, y, others) {
      var k := RowWithRoom(g, others, y);
    }
  }

  lemma NoRoomAboveRow(g: Grid, others: seq<Grid>, i: nat)
    requires IsBox(g) && Boxes(others) && i < |Rows(g, others)|
    requires forall k :: 0 <= k < i ==> !Free(g, Rows(g, others)[k], others)
    ensures 0 <= Rows(g, others)[i] <= g.y
    ensures forall y :: 0 <= y < Rows(g, others)[i] ==> !Free(g, y, others)
  {
    RowIsOnGrid(g, others, Rows(g, others)[i]);
    forall y | 0 <= y < Rows(g, others)[i]
      ensures !Free(g, y, others)
    {
      NoRoomAbove(g, others, i, y);
    }
  }

  method FirstWithRoom(g: Grid, others: seq<Grid>, rows: seq<int>) returns (i: nat)
    ensures i <= |rows| && (forall k :: 0 <= k < i ==> !Free(g, rows[k], others))
    ensures i < |rows| ==> Free(g, rows[i], others)
  {
    i := 0;
    while i < |rows|
      invariant i <= |rows| && forall k :: 0 <= k < i ==> !Free(g, rows[k], others)
    {
      if Free(g, rows[i], others) {
        return;
      }
      i := i + 1;
    }
  }

  /** The topmost row with room at or above the rectangle's own. */
  ghost predicate Tops(g: Grid, y: int, others: seq<Grid>) {
    0 <= y <= g.y && Free(g, y, others) && forall z :: 0 <= z < y ==> !Free(g, z, others)
  }

  /** The rectangle on that row. */
  ghost function Raised(g: Grid, others: seq<Grid>): (r: Grid)
    ensures r == g.(y := r.y)
  {
    if exists y :: Tops(g, y, others) then
      var y :| Tops(g, y, others);
      g.(y := y)
    else g
  }

  lemma TopsOnce(g: Grid, y: int, others: seq<Grid>)
    requires Tops(g, y, others)
    ensures Raised(g, others) == g.(y := y)
  {
    var r := Raised(g, others);
    assert Tops(g, r.y, others);
  }

  method MovedUp(g: Grid, others: seq<Grid>) returns (r: Grid)
    requires IsBox(g) && Boxes(others) && Free(g, g.y, others)
    ensures r == Raised(g, others)
    ensures r == g.(y := r.y) && 0 <= r.y <= g.y && Free(g, r.y, others)
    ensures forall y :: 0 <= y < r.y ==> !Free(g, y, others)
  {
    var i := FirstWithRoom(g, others, Rows(g, others));
    if i == |Rows(g, others)| {
      NoRoomAbove(g, others, i, g.y);
      assert false;
    }
    NoRoomAboveRow(g, others, i);
    r := g.(y := Rows(g, others)[i]);
    TopsOnce(g, r.y, others);
  }

  lemma RowIsOnGrid(g: Grid, others: seq<Grid>, row: int)
    requires Boxes(others) && row in Rows(g, others)
    ensures 0 <= row <= g.y
  {
    RowsAre(g, others);
    if row != 0 {
      var k :| 0 <= k < |others| && row == others[k].y + others[k].h;
      assert IsBox(others[k]);
    }
  }

  /** All rectangles but one. */
  function Others(grids: seq<Grid>, index: nat): (r: seq<Grid>)
    requires index < |grids|
    ensures |r| == |grids| - 1
    ensures forall k :: 0 <= k < |r| ==> r[k] == grids[if k < index then k else k + 1]
  {
    grids[..index] + grids[index + 1..]
  }

  lemma MovingOneKeepsDisjoint(grids: seq<Grid>, index: nat, g: Grid)
    requires index < |grids| && Disjoint(grids) && g == grids[index].(y := g.y)
    requires Free(grids[index], g.y, Others(grids, index))
    ensures Disjoint(grids[index := g])
  {
    var after := grids[index := g];
    forall i, j | 0 <= i < j < |after|
      ensures !Overlap(after[i], after[j])
    {
      if i == index {
        assert Others(grids, index)[j - 1] == grids[j];
      } else if j == index {
        assert Others(grids, index)[i] == grids[i];
      }
    }
  }

  lemma DisjointIsFree(grids: seq<Grid>, index: nat)
    requires index < |grids| && Disjoint(grids)
    ensures Free(grids[index], grids[index].y, Others(grids, index))
  {
    assert grids[index].(y := grids[index].y) == grids[index];
    forall k | 0 <= k < |grids| - 1
      ensures !Overlap(grids[index], Others(grids, index)[k])
    {
      assert k < index ==> !Overlap(grids[k], grids[index]);
      assert k >= index ==> !Overlap(grids[index], grids[k + 1]);
    }
  }

  /** The first `n` rectangles in turn, each but the fixed ones on the topmost row with room beside all others. */
  ghost function Compacting(grids: seq<Grid>, order: seq<nat>, fixed: set<nat>, n: nat): (r: seq<Grid>)
    requires n <= |order| && forall k :: 0 <= k < |order| ==> order[k] < |grids|
    ensures |r| == |grids|
  {
    if n == 0 then grids else
    var before, index := Compacting(grids, order, fixed, n - 1), order[n - 1];
    if index in fixed then before else before[index := Raised(before[index], Others(before, index))]
  }

  /** Nothing overlaps, nothing moved down, and the fixed rectangles are where they were. */
  ghost predicate Compacted(grids: seq<Grid>, fixed: set<nat>, result: seq<Grid>) {
    && SameShapes(grids, result) && Disjoint(result)
    && forall i :: 0 <= i < |grids| ==> result[i].y <= grids[i].y && (i in fixed ==> result[i] == grids[i])
  }

  lemma RaisingOne(grids: seq<Grid>, fixed: set<nat>, result: seq<Grid>, index: nat, g: Grid)
    requires Compacted(grids, fixed, result) && index < |result| && index !in fixed
    requires g == result[index].(y := g.y) && 0 <= g.y <= result[index].y
    requires Free(result[index], g.y, Others(result, index))
    ensures Compacted(grids, fixed, result[index := g])
  {
    MovingOneKeepsDisjoint(result, index, g);
  }

  /** In row `z` another rectangle is in the way. */
  ghost predicate InTheWay(grids: seq<Grid>, i: nat, z: int)
    requires i < |grids|
  {
    exists j :: 0 <= j < |grids| && j != i && Overlap(grids[i].(y := z), grids[j])
  }

  /** In every row above there is another rectangle in the way. */
  ghost predicate CannotRise(grids: seq<Grid>, i: nat)
    requires i < |grids|
  {
    forall z :: 0 <= z < grids[i].y ==> InTheWay(grids, i, z)
  }

  lemma TopmostCannotRise(grids: seq<Grid>, index: nat, g: Grid)
    requires index < |grids| && g == grids[index].(y := g.y)
    requires forall z :: 0 <= z < g.y ==> !Free(grids[index], z, Others(grids, index))
    ensures CannotRise(grids[index := g], index)
  {
    var after := grids[index := g];
    forall z | 0 <= z < after[index].y
      ensures InTheWay(after, index, z)
    {
      assert !Free(grids[index], z, Others(grids, index));
      assert after[index].(y := z) == grids[index].(y := z);
      var k :| 0 <= k < |grids| - 1 && Overlap(grids[index].(y := z), Others(grids, index)[k]);
      assert after[if k < index then k else k + 1] == Others(grids, index)[k];
    }
  }

  /** Raising a rectangle that is no higher makes no room above another. */
  lemma RaisingFreesNothingAbove(grids: seq<Grid>, i: nat, index: nat, g: Grid)
    requires i < |grids| && index < |grids| && i != index && Disjoint(grids) && CannotRise(grids, i)
    requires IsBox(grids[index]) && grids[i].y <= grids[index].y
    ensures CannotRise(grids[index := g], i)
  {
    var after := grids[index := g];
    assert after[i] == grids[i];
    forall z | 0 <= z < after[i].y
      ensures InTheWay(after, i, z)
    {
      assert InTheWay(grids, i, z);
      var j :| 0 <= j < |grids| && j != i && Overlap(grids[i].(y := z), grids[j]);
      assert if i < index then !Overlap(grids[i], grids[index]) else !Overlap(grids[index], grids[i]);
      assert after[j] == grids[j];
    }
  }

  /** The rectangles that may rise come from the top. */
  ghost predicate FromTheTop(grids: seq<Grid>, order: seq<nat>, fixed: set<nat>)
    requires Covers(order, |grids|)
  {
    forall j, k :: 0 <= j < k < |order| && order[j] !in fixed && order[k] !in fixed ==> grids[order[j]].y <= grids[order[k]].y
  }

  /** Of the first `n` rectangles those that may rise cannot rise further. */
  ghost predicate Risen(grids: seq<Grid>, order: seq<nat>, fixed: set<nat>, n: nat)
    requires Covers(order, |grids|) && n <= |order|
  {
    forall k :: 0 <= k < n && order[k] !in fixed ==> CannotRise(grids, order[k])
  }

  lemma OneMoreRisen(grids: seq<Grid>, order: seq<nat>, fixed: set<nat>, n: nat, result: seq<Grid>, g: Grid)
    requires Covers(order, |grids|) && FromTheTop(grids, order, fixed) && n < |order| && order[n] !in fixed
    requires Compacted(grids, fixed, result) && Boxes(result) && Risen(result, order, fixed, n)
    requires result[order[n]] == grids[order[n]]
    requires CannotRise(result[order[n] := g], order[n])
    ensures Risen(result[order[n] := g], order, fixed, n + 1)
  {
    forall k | 0 <= k < n && order[k] !in fixed
      ensures CannotRise(result[order[n] := g], order[k])
    {
      assert order[k] != order[n] && IsBox(result[order[n]]);
      RaisingFreesNothingAbove(result, order[k], order[n], g);
    }
  }

  method RaiseOne(grids: seq<Grid>, fixed: set<nat>, before: seq<Grid>, index: nat) returns (result: seq<Grid>)
    requires Boxes(grids) && Compacted(grids, fixed, before) && index < |before| && index !in fixed
    ensures result == before[index := Raised(before[index], Others(before, index))]
    ensures Boxes(before) && Compacted(grids, fixed, result) && CannotRise(result, index)
  {
    DisjointIsFree(before, index);
    BoxesStay(grids, before);
    var moved := MovedUp(before[index], Others(before, index));
    RaisingOne(grids, fixed, before, index, moved);
    TopmostCannotRise(before, index, moved);
    result := before[index := moved];
  }

  method Compact(grids: seq<Grid>, order: seq<nat>, fixed: set<nat>) returns (result: seq<Grid>)
    requires Boxes(grids) && Disjoint(grids) && Covers(order, |grids|)
    ensures result == Compacting(grids, order, fixed, |order|)
    ensures Compacted(grids, fixed, result)
    ensures FromTheTop(grids, order, fixed) ==> Risen(result, order, fixed, |order|)
  {
    result := grids;
    assert forall i :: 0 <= i < |grids| ==> IsBox(grids[i]);
    for n := 0 to |order|
      invariant result == Compacting(grids, order, fixed, n) && Compacted(grids, fixed, result)
      invariant forall k :: n <= k < |order| ==> result[order[k]] == grids[order[k]]
      invariant FromTheTop(grids, order, fixed) ==> Risen(result, order, fixed, n)
    {
      if order[n] !in fixed {
        ghost var before := result;
        result := RaiseOne(grids, fixed, result, order[n]);
        if FromTheTop(grids, order, fixed) {
          OneMoreRisen(grids, order, fixed, n, before, result[order[n]]);
        }
      }
    }
  }

  lemma BoxesStay(before: seq<Grid>, after: seq<Grid>)
    requires Boxes(before) && SameShapes(before, after)
    ensures Boxes(after)
  {
    forall i | 0 <= i < |after|
      ensures IsBox(after[i])
    {
      assert IsBox(before[i]);
    }
  }

  // ---- The whole resolution ----

  function Grids(placements: seq<PlacementGrid>): (grids: seq<Grid>)
    ensures |grids| == |placements| && forall i :: 0 <= i < |grids| ==> grids[i] == placements[i].grid
  {
    seq(|placements|, i requires 0 <= i < |placements| => placements[i].grid)
  }

  predicate HasOverlap(grids: seq<Grid>) {
    exists i, j :: 0 <= i < j < |grids| && Overlap(grids[i], grids[j])
  }

  lemma AllSettledIsDisjoint(grids: seq<Grid>, order: seq<nat>)
    requires Covers(order, |grids|) && SettledApart(grids, order, |order|)
    ensures Disjoint(grids)
  {
    forall i, j | 0 <= i < j < |grids|
      ensures !Overlap(grids[i], grids[j])
    {
      assert i in order && j in order;
      var a :| 0 <= a < |order| && order[a] == i;
      var b :| 0 <= b < |order| && order[b] == j;
      assert if a < b then !Overlap(grids[order[a]], grids[order[b]]) else !Overlap(grids[order[b]], grids[order[a]]);
    }
  }

  predicate IsEdited(placements: seq<PlacementGrid>, priority: Option<Id>, i: nat)
    requires i < |placements|
  {
    Some(placements[i].id) == priority
  }

  /** What is not compacted: what was pushed, and the edited placement. */
  function Fixed(placements: seq<PlacementGrid>, priority: Option<Id>, settled: seq<Grid>): set<nat>
    requires |settled| == |placements|
  {
    Moved(Grids(placements), settled) + set i | 0 <= i < |placements| && IsEdited(placements, priority, i)
  }

  /** The resolved rectangles, if every placement that is settled finds a row. */
  ghost function Resolution(placements: seq<PlacementGrid>, priority: Option<Id>): (r: Option<seq<Grid>>)
    ensures r.Some? ==> |r.value| == |placements|
  {
    OrderCovers(placements, priority);
    var grids, order := Grids(placements), Order(placements, priority);
    var settled := Settling(grids, order, |order|);
    if settled.None? then None else
    Some(Compacting(settled.value, order, Fixed(placements, priority, settled.value), |order|))
  }

  lemma OrderLength(placements: seq<PlacementGrid>, priority: Option<Id>)
    ensures |Order(placements, priority)| == |placements|
  {
    SortedIs(Slots(placements, priority, |placements|));
    assert |multiset(Sorted(Slots(placements, priority, |placements|)))| == |placements|;
  }

  /** A resolution is found whenever a stack of all placements would end within the safe integers. */
  lemma StackableIsResolved(placements: seq<PlacementGrid>, priority: Option<Id>)
    requires Boxes(Grids(placements)) && Stackable(Grids(placements), |placements|)
    ensures Resolution(placements, priority).Some?
  {
    OrderCovers(placements, priority);
    OrderLength(placements, priority);
    var grids, order := Grids(placements), Order(placements, priority);
    var low, tall: nat :| low + |placements| * tall <= MAX_SAFE && Bounded(grids, low, tall);
    SettlingFits(grids, order, |order|, low, tall);
  }

  // ---- What a resolution is, without how it is found ----

  /** Room for placement `i` in row `y` beside those settled before it. */
  ghost predicate RoomInTurn(placements: seq<PlacementGrid>, priority: Option<Id>, s: seq<Grid>, i: nat, y: int)
    requires |s| == |placements| && i < |s|
  {
    forall j: nat :: j < |s| && Precedes(placements, priority, j, i) ==> !Overlap(placements[i].grid.(y := y), s[j])
  }

  /** Placement `i` lies on its own row or was pushed to the first one with room beside those before it. */
  ghost predicate SettledAt(placements: seq<PlacementGrid>, priority: Option<Id>, s: seq<Grid>, i: nat)
    requires |s| == |placements| && i < |s|
  {
    var g := placements[i].grid;
    && s[i] == g.(y := s[i].y) && Allowed(g, s[i].y)
    && RoomInTurn(placements, priority, s, i, s[i].y)
    && forall z :: g.y <= z < s[i].y ==> !RoomInTurn(placements, priority, s, i, z)
  }

  ghost predicate Settled(placements: seq<PlacementGrid>, priority: Option<Id>, s: seq<Grid>) {
    |s| == |placements| && forall i: nat :: i < |s| ==> SettledAt(placements, priority, s, i)
  }

  /** From the settled places only placements that were not pushed rise, and those as far as there is room. */
  ghost predicate RisenFrom(placements: seq<PlacementGrid>, priority: Option<Id>, s: seq<Grid>, r: seq<Grid>)
    requires |s| == |placements| && |r| == |s|
  {
    && Disjoint(r)
    && forall i: nat :: i < |s| ==>
         if IsEdited(placements, priority, i) || s[i] != placements[i].grid then r[i] == s[i]
         else r[i] == s[i].(y := r[i].y) && 0 <= r[i].y <= s[i].y && CannotRise(r, i)
  }

  lemma FreeInTurn(placements: seq<PlacementGrid>, priority: Option<Id>, order: seq<nat>, s: seq<Grid>, k: nat, y: int)
    requires order == Order(placements, priority) && Covers(order, |placements|) && k < |order| && |s| == |placements|
    ensures Free(placements[order[k]].grid, y, At(s, order[..k]))
            <==> RoomInTurn(placements, priority, s, order[k], y)
  {
    var g, before := placements[order[k]].grid, At(s, order[..k]);
    forall j | 0 <= j < k
      ensures Precedes(placements, priority, order[j], order[k]) && before[j] == s[order[j]]
    {
      OrderPrecedes(placements, priority, order, j, k);
    }
    forall i: nat | i < |s| && Precedes(placements, priority, i, order[k])
      ensures exists j :: 0 <= j < k && order[j] == i
    {
      assert i in order;
      var j :| 0 <= j < |order| && order[j] == i;
      OrderPrecedes(placements, priority, order, j, k);
    }
  }

  lemma LandsInTurnIff(placements: seq<PlacementGrid>, priority: Option<Id>, order: seq<nat>, s: seq<Grid>, k: nat)
    requires order == Order(placements, priority) && Covers(order, |placements|) && k < |order| && |s| == |placements|
    ensures LandsInTurn(Grids(placements), order, s, k) <==> SettledAt(placements, priority, s, order[k])
  {
    var g, before := placements[order[k]].grid, At(s, order[..k]);
    var y := s[order[k]].y;
    forall z
      ensures Free(g, z, before) <==> RoomInTurn(placements, priority, s, order[k], z)
    {
      FreeInTurn(placements, priority, order, s, k, z);
    }
    if s[order[k]] == g.(y := y) && LandsOn(g, y, before) {
      LandsOnce(g, y, before);
    }
  }

  /** The settled places are exactly those where every placement lies as it should beside those before it. */
  lemma SettlesIff(placements: seq<PlacementGrid>, priority: Option<Id>, s: seq<Grid>)
    requires |s| == |placements|
    ensures Covers(Order(placements, priority), |placements|)
    ensures Settling(Grids(placements), Order(placements, priority), |Order(placements, priority)|) == Some(s)
            <==> Settled(placements, priority, s)
  {
    OrderCovers(placements, priority);
    var grids, order := Grids(placements), Order(placements, priority);
    SettlingIff(grids, order, |order|, s);
    AgreesIff(Settling(grids, order, |order|), s, order);
    forall k: nat | k < |order|
      ensures LandsInTurn(grids, order, s, k) <==> SettledAt(placements, priority, s, order[k])
    {
      LandsInTurnIff(placements, priority, order, s, k);
    }
    if forall k: nat :: k < |order| ==> SettledAt(placements, priority, s, order[k]) {
      forall i: nat | i < |s|
        ensures SettledAt(placements, priority, s, i)
      {
        assert i in order;
        var k :| 0 <= k < |order| && order[k] == i;
      }
    }
  }

  lemma AgreesIff(r: Option<seq<Grid>>, s: seq<Grid>, order: seq<nat>)
    requires Covers(order, |s|) && (r.Some? ==> |r.value| == |s|)
    ensures Agrees(r, s, order, |order|) <==> r == Some(s)
  {
    if Agrees(r, s, order, |order|) {
      forall i: nat | i < |s|
        ensures r.value[i] == s[i]
      {
        assert i in order;
        var k :| 0 <= k < |order| && order[k] == i;
      }
      assert r.value == s;
    }
  }

  lemma UnpushedFromTheTop(placements: seq<PlacementGrid>, priority: Option<Id>, settled: seq<Grid>)
    requires |settled| == |placements| && Covers(Order(placements, priority), |placements|)
    ensures FromTheTop(settled, Order(placements, priority), Fixed(placements, priority, settled))
  {
    var order, fixed := Order(placements, priority), Fixed(placements, priority, settled);
    forall j, k | 0 <= j < k < |order| && order[j] !in fixed && order[k] !in fixed
      ensures settled[order[j]].y <= settled[order[k]].y
    {
      OrderPrecedes(placements, priority, order, j, k);
    }
  }

  lemma CompactedIsRisen(placements: seq<PlacementGrid>, priority: Option<Id>, settled: seq<Grid>, r: seq<Grid>)
    requires |settled| == |placements| && Covers(Order(placements, priority), |placements|)
    requires var fixed := Fixed(placements, priority, settled);
             Compacted(settled, fixed, r) &&
             Risen(r, Order(placements, priority), fixed, |Order(placements, priority)|)
    ensures RisenFrom(placements, priority, settled, r)
  {
    var order, fixed := Order(placements, priority), Fixed(placements, priority, settled);
    forall i: nat | i < |settled| && i !in fixed
      ensures CannotRise(r, i)
    {
      assert i in order;
      var k :| 0 <= k < |order| && order[k] == i;
    }
  }

  /** The places after settling exist exactly when there is a result, which has risen from them. */
  ghost predicate Resolves(placements: seq<PlacementGrid>, priority: Option<Id>, r: Option<seq<Grid>>) {
    match r
    case Some(grids) =>
      |grids| == |placements|
      && exists s :: Settled(placements, priority, s) && RisenFrom(placements, priority, s, grids)
    case None => forall s :: !Settled(placements, priority, s)
  }

  lemma ResolvedAt(placements: seq<PlacementGrid>, priority: Option<Id>, grids: seq<Grid>, i: nat)
    requires Resolves(placements, priority, Some(grids)) && i < |placements|
    ensures !IsEdited(placements, priority, i) && grids[i].y <= placements[i].grid.y ==> CannotRise(grids, i)
  {
    var s :| Settled(placements, priority, s) && RisenFrom(placements, priority, s, grids);
    assert SettledAt(placements, priority, s, i);
  }

  /** Settle from the edited placement on, then compact the placements that neither moved nor are edited. */
  method ResolveGrids(placements: seq<PlacementGrid>, priority: Option<Id>) returns (r: Option<seq<Grid>>)
    requires Boxes(Grids(placements))
    ensures r == Resolution(placements, priority) && Resolves(placements, priority, r)
    ensures r.Some? ==> Disjoint(r.value) && SameShapes(Grids(placements), r.value)
    ensures r.Some? ==> forall i: nat :: Edited(placements, priority, i) ==> r.value[i] == placements[i].grid
  {
    var grids, order := Grids(placements), Order(placements, priority);
    OrderCovers(placements, priority);
    var settled, pushed := Settle(grids, order);
    forall s | |s| == |placements|
      ensures settled == Some(s) <==> Settled(placements, priority, s)
    {
      SettlesIff(placements, priority, s);
    }
    if settled.None? {
      return None;
    }
    AllSettledIsDisjoint(settled.value, order);
    var edited := set i | 0 <= i < |placements| && IsEdited(placements, priority, i);
    UnpushedFromTheTop(placements, priority, settled.value);
    BoxesStay(grids, settled.value);
    var compacted := Compact(settled.value, order, pushed + edited);
    CompactedIsRisen(placements, priority, settled.value, compacted);
    forall i: nat | Edited(placements, priority, i)
      ensures compacted[i] == grids[i]
    {
      EditedIsFirst(placements, priority, i);
    }
    return Some(compacted);
  }

  function WithGrids(placements: seq<PlacementGrid>, grids: seq<Grid>): (r: seq<PlacementGrid>)
    requires |grids| == |placements|
    ensures |r| == |placements| && Grids(r) == grids
    ensures forall i :: 0 <= i < |r| ==> r[i] == PlacementGrid(placements[i].id, grids[i])
  {
    var r := seq(|placements|, i requires 0 <= i < |placements| => PlacementGrid(placements[i].id, grids[i]));
    assert Grids(r) == grids;
    r
  }

  function Replaced(placements: seq<PlacementGrid>, grids: Option<seq<Grid>>): (r: Option<seq<PlacementGrid>>)
    requires grids.Some? ==> |grids.value| == |placements|
    ensures r.None? <==> grids.None?
    ensures r.Some? ==> Grids(r.value) == grids.value && |r.value| == |placements|
    ensures r.Some? ==> forall i :: 0 <= i < |placements| ==> r.value[i] == PlacementGrid(placements[i].id, grids.value[i])
  {
    if grids.None? then None else Some(WithGrids(placements, grids.value))
  }

  lemma OverlapIff(grids: seq<Grid>)
    ensures HasOverlap(grids) <==> !Disjoint(grids)
  {
  }

  lemma BoxesAreShapes(grids: seq<Grid>)
    requires Boxes(grids)
    ensures SameShapes(grids, grids)
  {
    assert forall i :: 0 <= i < |grids| ==> IsBox(grids[i]);
  }

  /**
   * Nothing overlaps in the result; only rows change; a placement list without overlaps is returned as
   * it is; and the edited placement, if its id is its own, does not move. Otherwise every placement lies
   * where it was settled, on its own row or the first one with room beside those settled before it, but
   * those that were not pushed have risen until something is in the way in every row above. There is no
   * result exactly when some placement finds no row within the safe integers.
   */
  method Resolve(placements: seq<PlacementGrid>, priority: Option<Id>) returns (r: Option<seq<PlacementGrid>>)
    requires Boxes(Grids(placements))
    ensures r.Some? ==> Disjoint(Grids(r.value)) && SameShapes(Grids(placements), Grids(r.value))
    ensures r.Some? ==> forall i :: 0 <= i < |placements| ==> r.value[i].id == placements[i].id
    ensures Disjoint(Grids(placements)) ==> r == Some(placements)
    ensures !Disjoint(Grids(placements)) ==> Resolves(placements, priority, if r.Some? then Some(Grids(r.value)) else None)
    ensures r.Some? && !Disjoint(Grids(placements)) ==>
              forall i: nat | i < |placements| && !IsEdited(placements, priority, i)
                              && r.value[i].grid.y <= placements[i].grid.y :: CannotRise(Grids(r.value), i)
    ensures Stackable(Grids(placements), |placements|) ==> r.Some?
    ensures r.Some? ==> forall i: nat :: Edited(placements, priority, i) ==> r.value[i] == placements[i]
  {
    OverlapIff(Grids(placements));
    if !HasOverlap(Grids(placements)) {
      BoxesAreShapes(Grids(placements));
      return Some(placements);
    }
    ghost var stackable := Stackable(Grids(placements), |placements|);
    if stackable {
      StackableIsResolved(placements, priority);
    }
    var resolved := ResolveGrids(placements, priority);
    assert stackable ==> resolved.Some?;
    r := Replaced(placements, resolved);
    if r.Some? {
      forall i: nat | i < |placements|
        ensures !IsEdited(placements, priority, i) && resolved.value[i].y <= placements[i].grid.y ==>
                  CannotRise(resolved.value, i)
      {
        ResolvedAt(placements, priority, resolved.value, i);
      }
    }
  }
}
