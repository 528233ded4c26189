/** Rectangles on the App view's twelve-column grid (packages/core/src/format/app-layout.ts). */
module AppLayoutGrid {
  import opened Prelude

  const COLUMNS: int := 12

  datatype Grid = Grid(x: int, y: int, w: int, h: int)

  /** A complete, bounded rectangle. */
  predicate IsCell(g: Grid) {
    0 <= g.x && 0 <= g.y && 1 <= g.w && 1 <= g.h && g.x + g.w <= COLUMNS
  }

  predicate Overlap(a: Grid, b: Grid) {
    a.x < b.x + b.w && a.x + a.w > b.x && a.y < b.y + b.h && a.y + a.h > b.y
  }

  /** Two rectangles overlap exactly when they share a unit square. */
  lemma OverlapIsSharing(a: Grid, b: Grid)
    requires a.w >= 1 && a.h >= 1 && b.w >= 1 && b.h >= 1
    ensures Overlap(a, b) <==> exists c, r :: Covers(a, c, r) && Covers(b, c, r)
  {
    if Overlap(a, b) {
      assert Covers(a, Max(a.x, b.x), Max(a.y, b.y)) && Covers(b, Max(a.x, b.x), Max(a.y, b.y));
    }
  }

  predicate Covers(g: Grid, column: int, row: int) {
    g.x <= column < g.x + g.w && g.y <= row < g.y + g.h
  }

  // ---- Sorting in reading order ----

  /** Something to sort: by rank, then row, then column, then original index. */
  datatype Slot = Slot(rank: int, grid: Grid, index: nat)

  predicate Before(a: Slot, b: Slot) {
    if a.rank != b.rank then a.rank < b.rank else
    if a.grid.y != b.grid.y then a.grid.y < b.grid.y else
    if a.grid.x != b.grid.x then a.grid.x < b.grid.x else a.index < b.index
  }

  ghost predicate InOrder(slots: seq<Slot>) {
    forall i, j :: 0 <= i < j < |slots| ==> Before(slots[i], slots[j])
  }

  function Inserted(slots: seq<Slot>, s: Slot): seq<Slot> {
    if slots == [] || Before(slots[|slots| - 1], s) then slots + [s] else
    Inserted(slots[..|slots| - 1], s) + [slots[|slots| - 1]]
  }

  function Sorted(slots: seq<Slot>): seq<Slot> {
    if slots == [] then [] else Inserted(Sorted(slots[..|slots| - 1]), slots[|slots| - 1])
  }

  lemma {:induction false} InsertedHolds(slots: seq<Slot>, s: Slot)
    ensures multiset(Inserted(slots, s)) == multiset(slots) + multiset{s}
  {
    if slots != [] {
      assert slots == slots[..|slots| - 1] + [slots[|slots| - 1]];
      InsertedHolds(slots[..|slots| - 1], s);
    }
  }

  lemma {:induction false} InsertedInOrder(slots: seq<Slot>, s: Slot)
    requires InOrder(slots) && forall t :: t in slots ==> t.index != s.index
    ensures InOrder(Inserted(slots, s))
  {
    if slots != [] && !Before(slots[|slots| - 1], s) {
      var init, last := slots[..|slots| - 1], slots[|slots| - 1];
      assert last in slots;
      InsertedInOrder(init, s);
      InsertedHolds(init, s);
      forall t | t in Inserted(init, s)
        ensures Before(t, last)
      {
        assert t in multiset(Inserted(init, s));
        assert t in init || t == s;
      }
    }
  }

  /** Sorting slots with distinct indices puts all of them in order. */
  lemma {:induction false} SortedIs(slots: seq<Slot>)
    requires forall i, j :: 0 <= i < j < |slots| ==> slots[i].index != slots[j].index
    ensures InOrder(Sorted(slots))
    ensures multiset(Sorted(slots)) == multiset(slots)
  {
    if slots != [] {
      var init, s := slots[..|slots| - 1], slots[|slots| - 1];
      assert slots == init + [s];
      SortedIs(init);
      forall t | t in Sorted(init)
        ensures t.index != s.index
      {
        assert t in multiset(Sorted(init));
        assert t in init;
      }
      InsertedInOrder(Sorted(init), s);
      InsertedHolds(Sorted(init), s);
    }
  }
}
