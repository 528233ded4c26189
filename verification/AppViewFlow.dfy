/**
 * How the App view turns a stored layout, the exposed parameters and the previews into what it shows
 * (the `flowItems` projection, packages/app/src/AppView.tsx): a two-level list in which groups hold
 * their children, and whatever the layout does not place follows by itself.
 */
module AppViewFlow {
  import opened Prelude
  import opened AppLayoutGrid

  /** The key of an exposed parameter or preview; distinct entries have distinct keys. */
  datatype Key = Key(text: string)

  datatype Kind = Control(ref: Key) | Preview(ref: Key) | Text | Queue | Group(children: seq<Id>)

  /** A placement of the stored layout, with its grid rectangle if it has a complete valid one. */
  datatype LayoutItem = LayoutItem(id: Id, kind: Kind, grid: Option<Grid>)

  /** The projection's inputs: the layout, and the keys of the exposed parameters and previews. */
  datatype Doc = Doc(layout: seq<LayoutItem>, params: seq<Key>, previews: seq<Key>)

  datatype FlowItem =
    | ControlFlow(row: Key, registryIndex: nat, layoutId: Option<Id>, parentId: Option<Id>, grid: Option<Grid>)
    | PreviewFlow(previewKey: Key, registryIndex: nat, layoutId: Option<Id>, parentId: Option<Id>, grid: Option<Grid>)
    | LeafFlow(id: Id, kind: Kind, parentId: Option<Id>, grid: Option<Grid>)
    | MissingFlow(id: Id, parentId: Option<Id>, grid: Option<Grid>)
    | GroupFlow(id: Id, children: seq<FlowItem>, grid: Option<Grid>)

  function LayoutIdOf(item: FlowItem): Option<Id> {
    if item.ControlFlow? || item.PreviewFlow? then item.layoutId else Some(item.id)
  }

  function FlowItemKey(item: FlowItem): string {
    var layoutId := LayoutIdOf(item);
    if layoutId.Some? then "layout:" + layoutId.value.text else
    if item.ControlFlow? then "control:" + item.row.text else
    if item.PreviewFlow? then "preview:" + item.previewKey.text else
    "layout:" + item.id.text
  }

  ghost predicate UniqueIds(layout: seq<LayoutItem>) {
    forall i, j :: 0 <= i < j < |layout| ==> layout[i].id != layout[j].id
  }

  // ---- The projection's parts ----

  /** The item that the id map holds: the last one. */
  function ById(layout: seq<LayoutItem>, id: Id): (found: Option<LayoutItem>)
    ensures found.Some? ==> found.value in layout && found.value.id == id
    ensures found.None? ==> forall item :: item in layout ==> item.id != id
  {
    if layout == [] then None else
    var init, last := layout[..|layout| - 1], layout[|layout| - 1];
    assert layout == init + [last];
    if last.id == id then Some(last) else ById(init, id)
  }

  /** An id of a placement that is not a group. */
  predicate HasLeaf(layout: seq<LayoutItem>, id: Id) {
    ById(layout, id).Some? && !ById(layout, id).value.kind.Group?
  }

  /** All ids that groups list. */
  function Listed(layout: seq<LayoutItem>): set<Id> {
    set item, id | item in layout && item.kind.Group? && id in item.kind.children :: id
  }

  /** Ids that some group takes out of the top level. Groups themselves always stay there. */
  predicate IsChild(layout: seq<LayoutItem>, id: Id) {
    id in Listed(layout) && !(ById(layout, id).Some? && ById(layout, id).value.kind.Group?)
  }

  function RowIndex(keys: seq<Key>, key: Key): (k: Option<nat>)
    ensures k.Some? ==> k.value < |keys| && keys[k.value] == key
    ensures k.None? ==> key !in keys
  {
    if keys == [] then None else
    if keys[|keys| - 1] == key then Some(|keys| - 1) else
    assert keys == keys[..|keys| - 1] + [keys[|keys| - 1]];
    RowIndex(keys[..|keys| - 1], key)
  }

  /** One placement that is not a group; only top-level placements keep their rectangle. */
  function Leaf(doc: Doc, item: LayoutItem, parentId: Option<Id>): (f: FlowItem)
    ensures LayoutIdOf(f) == Some(item.id) && !f.GroupFlow?
    ensures f.parentId == parentId && f.grid == if parentId.None? then item.grid else None
  {
    var grid := if parentId.None? then item.grid else None;
    match item.kind
    case Control(ref) =>
      var k := RowIndex(doc.params, ref);
      if k.Some? then ControlFlow(ref, k.value, Some(item.id), parentId, grid)
      else MissingFlow(item.id, parentId, grid)
    case Preview(ref) =>
      var k := RowIndex(doc.previews, ref);
      if k.Some? then PreviewFlow(ref, k.value, Some(item.id), parentId, grid)
      else MissingFlow(item.id, parentId, grid)
    case _ => LeafFlow(item.id, item.kind, parentId, grid)
  }

  /** A group's rows: its existing children that no earlier list has taken, each once. */
  function ChildRows(doc: Doc, parentId: Id, ids: seq<Id>, taken: set<Id>): seq<FlowItem> {
    if ids == [] then [] else
    var init, id := ids[..|ids| - 1], ids[|ids| - 1];
    ChildRows(doc, parentId, init, taken) +
    if HasLeaf(doc.layout, id) && id !in taken && id !in init
    then [Leaf(doc, ById(doc.layout, id).value, Some(parentId))] else []
  }

  function Top(doc: Doc, i: nat): (f: FlowItem)
    requires i < |doc.layout|
    ensures LayoutIdOf(f) == Some(doc.layout[i].id) && f.grid == doc.layout[i].grid
    ensures f.GroupFlow? <==> doc.layout[i].kind.Group?
  {
    var item := doc.layout[i];
    if item.kind.Group?
    then GroupFlow(item.id, ChildRows(doc, item.id, item.kind.children, Listed(doc.layout[..i])), item.grid)
    else Leaf(doc, item, None)
  }

  function LaidOut(doc: Doc, n: nat): seq<FlowItem>
    requires n <= |doc.layout|
  {
    if n == 0 then [] else
    LaidOut(doc, n - 1) + if IsChild(doc.layout, doc.layout[n - 1].id) then [] else [Top(doc, n - 1)]
  }

  predicate IsRef(kind: Kind) {
    kind.Control? || kind.Preview?
  }

  /** The parameters and previews that the layout refers to. */
  function Refs(layout: seq<LayoutItem>): set<Kind> {
    set item | item in layout && IsRef(item.kind) :: item.kind
  }

  function AutomaticParams(params: seq<Key>, placed: set<Kind>, n: nat): seq<FlowItem>
    requires n <= |params|
  {
    if n == 0 then [] else
    AutomaticParams(params, placed, n - 1) +
    if Control(params[n - 1]) in placed then [] else [ControlFlow(params[n - 1], n - 1, None, None, None)]
  }

  function AutomaticPreviews(previews: seq<Key>, placed: set<Kind>, n: nat): seq<FlowItem>
    requires n <= |previews|
  {
    if n == 0 then [] else
    AutomaticPreviews(previews, placed, n - 1) +
    if Preview(previews[n - 1]) in placed then [] else [PreviewFlow(previews[n - 1], n - 1, None, None, None)]
  }

  function Automatic(doc: Doc, placed: set<Kind>): seq<FlowItem> {
    AutomaticParams(doc.params, placed, |doc.params|) + AutomaticPreviews(doc.previews, placed, |doc.previews|)
  }

  function Flow(doc: Doc): seq<FlowItem> {
    LaidOut(doc, |doc.layout|) + Automatic(doc, Refs(doc.layout))
  }

  // ---- The sets the program fills as it goes ----

  function Leaves(layout: seq<LayoutItem>, ids: set<Id>): set<Id> {
    set id | id in ids && HasLeaf(layout, id)
  }

  /** What is placed once the first `n` items have been handled, and the children in `listed`. */
  function Placed(layout: seq<LayoutItem>, n: nat, listed: set<Id>): set<Kind>
    requires n <= |layout|
  {
    set item | item in layout && IsRef(item.kind)
               && (item.id in listed || (item in layout[..n] && !IsChild(layout, item.id))) :: item.kind
  }

  function RefSet(kind: Kind): set<Kind> {
    if IsRef(kind) then {kind} else {}
  }

  lemma SameItem(layout: seq<LayoutItem>, a: LayoutItem, b: LayoutItem)
    requires UniqueIds(layout) && a in layout && b in layout && a.id == b.id
    ensures a == b
  {
    var i :| 0 <= i < |layout| && layout[i] == a;
    var j :| 0 <= j < |layout| && layout[j] == b;
    assert !(i < j) && !(j < i);
  }

  lemma ListedGrows(layout: seq<LayoutItem>, i: nat)
    requires i < |layout|
    ensures Listed(layout[..i + 1])
            == Listed(layout[..i]) + if layout[i].kind.Group? then Elements(layout[i].kind.children) else {}
  {
    assert layout[..i + 1] == layout[..i] + [layout[i]];
  }

  lemma {:induction false} PlacedChild(layout: seq<LayoutItem>, n: nat, listed: set<Id>, id: Id)
    requires UniqueIds(layout) && n <= |layout|
    ensures Placed(layout, n, listed + {id})
            == Placed(layout, n, listed) + if HasLeaf(layout, id) then RefSet(ById(layout, id).value.kind) else {}
  {
    var found := ById(layout, id);
    var more := if HasLeaf(layout, id) then RefSet(found.value.kind) else {};
    forall kind
      ensures kind in Placed(layout, n, listed + {id}) <==> kind in Placed(layout, n, listed) + more
    {
      if kind in Placed(layout, n, listed + {id}) && kind !in Placed(layout, n, listed) {
        var item :| item in layout && IsRef(item.kind) && item.kind == kind
                    && (item.id in listed + {id} || (item in layout[..n] && !IsChild(layout, item.id)));
        assert item.id == id;
        SameItem(layout, item, found.value);
      }
    }
  }

  lemma PlacedTop(layout: seq<LayoutItem>, n: nat, listed: set<Id>)
    requires UniqueIds(layout) && n < |layout|
    ensures Placed(layout, n + 1, listed)
            == Placed(layout, n, listed) + if IsChild(layout, layout[n].id) then {} else RefSet(layout[n].kind)
  {
    assert layout[..n + 1] == layout[..n] + [layout[n]];
  }

  /** By the end, every reference of the layout has been placed. */
  lemma AllPlaced(layout: seq<LayoutItem>)
    ensures Placed(layout, |layout|, Listed(layout)) == Refs(layout)
  {
    assert layout[..|layout|] == layout;
  }

  /** A group's rows, with the sets of rendered children and placed references kept up to date. */
  method PlaceGroup(doc: Doc, i: nat, rendered: set<Id>, placed: set<Kind>)
    returns (children: seq<FlowItem>, rendered': set<Id>, placed': set<Kind>)
    requires UniqueIds(doc.layout) && i < |doc.layout| && doc.layout[i].kind.Group?
    requires rendered == Leaves(doc.layout, Listed(doc.layout[..i]))
    requires placed == Placed(doc.layout, i, Listed(doc.layout[..i]))
    ensures GroupFlow(doc.layout[i].id, children, doc.layout[i].grid) == Top(doc, i)
    ensures rendered' == Leaves(doc.layout, Listed(doc.layout[..i + 1]))
    ensures placed' == Placed(doc.layout, i, Listed(doc.layout[..i + 1]))
  {
    var group, ids := doc.layout[i], doc.layout[i].kind.children;
    ghost var taken := Listed(doc.layout[..i]);
    children, rendered', placed' := [], rendered, placed;
    assert taken + Elements(ids[..0]) == taken;
    for j := 0 to |ids|
      invariant children == ChildRows(doc, group.id, ids[..j], taken)
      invariant rendered' == Leaves(doc.layout, taken + Elements(ids[..j]))
      invariant placed' == Placed(doc.layout, i, taken + Elements(ids[..j]))
    {
      var id := ids[j];
      OneMoreChild(doc, i, group.id, ids, j, taken);
      var found := ById(doc.layout, id);
      if found.Some? && !found.value.kind.Group? && id !in rendered' {
        rendered' := rendered' + {id};
        placed' := placed' + RefSet(found.value.kind);
        children := children + [Leaf(doc, found.value, Some(group.id))];
      }
    }
    assert ids[..|ids|] == ids;
    ListedGrows(doc.layout, i);
  }

  lemma {:induction false} OneMoreChild(doc: Doc, i: nat, parent: Id, ids: seq<Id>, j: nat, taken: set<Id>)
    requires UniqueIds(doc.layout) && i <= |doc.layout| && j < |ids|
    ensures var before, after := taken + Elements(ids[..j]), taken + Elements(ids[..j + 1]);
            var leaf := HasLeaf(doc.layout, ids[j]);
            && Leaves(doc.layout, after) == Leaves(doc.layout, before) + (if leaf then {ids[j]} else {})
            && Placed(doc.layout, i, after)
               == Placed(doc.layout, i, before) + (if leaf then RefSet(ById(doc.layout, ids[j]).value.kind) else {})
            && (leaf && ids[j] in before ==> Placed(doc.layout, i, after) == Placed(doc.layout, i, before))
            && ChildRows(doc, parent, ids[..j + 1], taken)
               == ChildRows(doc, parent, ids[..j], taken)
                  + if leaf && ids[j] !in before then [Leaf(doc, ById(doc.layout, ids[j]).value, Some(parent))] else []
  {
    var before := taken + Elements(ids[..j]);
    assert ids[..j + 1] == ids[..j] + [ids[j]];
    assert taken + Elements(ids[..j + 1]) == before + {ids[j]};
    PlacedChild(doc.layout, i, before, ids[j]);
    if ids[j] in before {
      assert before + {ids[j]} == before;
    }
    assert ids[..j + 1][..j] == ids[..j];
  }

  method FlowItems(doc: Doc) returns (flow: seq<FlowItem>)
    requires UniqueIds(doc.layout)
    ensures flow == Flow(doc)
  {
    var layout := doc.layout;
    var rendered: set<Id>, placed: set<Kind> := {}, {};
    flow := [];
    for i := 0 to |layout|
      invariant flow == LaidOut(doc, i)
      invariant rendered == Leaves(layout, Listed(layout[..i]))
      invariant placed == Placed(layout, i, Listed(layout[..i]))
    {
      ListedGrows(layout, i);
      PlacedTop(layout, i, Listed(layout[..i + 1]));
      if layout[i].kind.Group? {
        var children;
        children, rendered, placed := PlaceGroup(doc, i, rendered, placed);
        GroupIsNoChild(layout, i);
        flow := flow + [GroupFlow(layout[i].id, children, layout[i].grid)];
      } else if !IsChild(layout, layout[i].id) {
        placed := placed + RefSet(layout[i].kind);
        flow := flow + [Leaf(doc, layout[i], None)];
      }
    }
    assert layout[..|layout|] == layout;
    AllPlaced(layout);
    var rest := AutomaticItems(doc, placed);
    flow := flow + rest;
  }

  /** What the layout does not place, in registry order. */
  method AutomaticItems(doc: Doc, placed: set<Kind>) returns (rest: seq<FlowItem>)
    ensures rest == Automatic(doc, placed)
  {
    rest := [];
    for k := 0 to |doc.params|
      invariant rest == AutomaticParams(doc.params, placed, k)
    {
      if Control(doc.params[k]) !in placed {
        rest := rest + [ControlFlow(doc.params[k], k, None, None, None)];
      }
    }
    for k := 0 to |doc.previews|
      invariant rest == AutomaticParams(doc.params, placed, |doc.params|) + AutomaticPreviews(doc.previews, placed, k)
    {
      if Preview(doc.previews[k]) !in placed {
        rest := rest + [PreviewFlow(doc.previews[k], k, None, None, None)];
      }
    }
  }

  lemma GroupIsNoChild(layout: seq<LayoutItem>, i: nat)
    requires UniqueIds(layout) && i < |layout| && layout[i].kind.Group?
    ensures !IsChild(layout, layout[i].id)
  {
    SameItem(layout, ById(layout, layout[i].id).value, layout[i]);
  }

  // ---- What is shown, and once ----

  function Shown(item: FlowItem): seq<FlowItem> {
    [item] + if item.GroupFlow? then item.children else []
  }

  /** Top-level items, each followed by its children. */
  function AllItems(items: seq<FlowItem>): seq<FlowItem> {
    if items == [] then [] else AllItems(items[..|items| - 1]) + Shown(items[|items| - 1])
  }

  lemma {:induction false} AllItemsAppend(items: seq<FlowItem>, more: seq<FlowItem>)
    requires forall f :: f in more ==> !f.GroupFlow?
    ensures AllItems(items + more) == AllItems(items) + more
  {
    if more == [] {
      assert items + more == items;
    } else {
      var init, last := more[..|more| - 1], more[|more| - 1];
      assert more == init + [last];
      AllItemsAppend(items, init);
      assert (items + more)[..|items + more| - 1] == items + init;
    }
  }

  /** An item that stands for a placement of the layout. */
  ghost predicate Stands(doc: Doc, f: FlowItem) {
    LayoutIdOf(f).Some? &&
    var found := ById(doc.layout, LayoutIdOf(f).value);
    found.Some? && if f.GroupFlow? then found.value.kind.Group? && f.grid == found.value.grid
                   else !found.value.kind.Group? && f == Leaf(doc, found.value, f.parentId)
  }

  /** The item shows this placement for what it is; a reference to nothing that is exposed shows as missing. */
  ghost predicate Represents(doc: Doc, item: LayoutItem, f: FlowItem) {
    && LayoutIdOf(f) == Some(item.id)
    && (match item.kind
        case Control(ref) =>
          if ref in doc.params then f.ControlFlow? && f.row == ref && f.registryIndex < |doc.params| && doc.params[f.registryIndex] == ref
          else f.MissingFlow?
        case Preview(ref) =>
          if ref in doc.previews then f.PreviewFlow? && f.previewKey == ref && f.registryIndex < |doc.previews| && doc.previews[f.registryIndex] == ref
          else f.MissingFlow?
        case Group(_) => f.GroupFlow?
        case _ => f.LeafFlow? && f.kind == item.kind)
    && f.grid == if f.GroupFlow? || f.parentId.None? then item.grid else None
  }

  lemma StandingRepresents(doc: Doc, f: FlowItem)
    requires Stands(doc, f)
    ensures Represents(doc, ById(doc.layout, LayoutIdOf(f).value).value, f)
  {
  }

  ghost predicate DistinctIds(items: seq<FlowItem>) {
    forall i, j :: 0 <= i < j < |items| ==> LayoutIdOf(items[i]) != LayoutIdOf(items[j])
  }

  function IdSet(items: seq<FlowItem>): set<Option<Id>> {
    set f | f in items :: LayoutIdOf(f)
  }

  lemma DistinctAppend(a: seq<FlowItem>, b: seq<FlowItem>)
    requires DistinctIds(a) && DistinctIds(b) && IdSet(a) !! IdSet(b)
    ensures DistinctIds(a + b) && IdSet(a + b) == IdSet(a) + IdSet(b)
  {
    forall i, j | 0 <= i < j < |a + b|
      ensures LayoutIdOf((a + b)[i]) != LayoutIdOf((a + b)[j])
    {
      if i < |a| <= j {
        assert a[i] in a && b[j - |a|] in b;
        assert LayoutIdOf(a[i]) in IdSet(a) && LayoutIdOf(b[j - |a|]) in IdSet(b);
      }
    }
  }

  /** The children a group shows, as ids. */
  function ChildIds(layout: seq<LayoutItem>, ids: seq<Id>, taken: set<Id>): set<Option<Id>> {
    set id | id in ids && HasLeaf(layout, id) && id !in taken :: Some(id)
  }

  lemma {:induction false} ChildRowsAre(doc: Doc, parentId: Id, ids: seq<Id>, taken: set<Id>)
    ensures var rows := ChildRows(doc, parentId, ids, taken);
            && DistinctIds(rows)
            && IdSet(rows) == ChildIds(doc.layout, ids, taken)
            && forall f :: f in rows ==> !f.GroupFlow? && f.parentId == Some(parentId) && Stands(doc, f)
  {
    if ids != [] {
      var init, id := ids[..|ids| - 1], ids[|ids| - 1];
      assert ids == init + [id];
      ChildRowsAre(doc, parentId, init, taken);
      if HasLeaf(doc.layout, id) && id !in taken && id !in init {
        var leaf := Leaf(doc, ById(doc.layout, id).value, Some(parentId));
        assert IdSet([leaf]) == {Some(id)};
        DistinctAppend(ChildRows(doc, parentId, init, taken), [leaf]);
        assert ChildIds(doc.layout, ids, taken) == ChildIds(doc.layout, init, taken) + {Some(id)};
      } else {
        assert ChildIds(doc.layout, ids, taken) == ChildIds(doc.layout, init, taken);
      }
    }
  }

  /** The ids of the first `n` placements' top-level items, and of the children their groups show. */
  function TopIds(layout: seq<LayoutItem>, n: nat): set<Option<Id>>
    requires n <= |layout|
  {
    set item | item in layout[..n] && !IsChild(layout, item.id) :: Some(item.id)
  }

  function InnerIds(layout: seq<LayoutItem>, n: nat): set<Option<Id>>
    requires n <= |layout|
  {
    set id | id in Leaves(layout, Listed(layout[..n])) :: Some(id)
  }

  lemma TopIdsGrow(layout: seq<LayoutItem>, n: nat)
    requires n < |layout|
    ensures TopIds(layout, n + 1)
            == TopIds(layout, n) + if IsChild(layout, layout[n].id) then {} else {Some(layout[n].id)}
  {
    assert layout[..n + 1] == layout[..n] + [layout[n]];
  }

  lemma InnerIdsGrow(layout: seq<LayoutItem>, n: nat)
    requires n < |layout|
    ensures InnerIds(layout, n + 1) == InnerIds(layout, n)
            + if layout[n].kind.Group? then ChildIds(layout, layout[n].kind.children, Listed(layout[..n])) else {}
  {
    ListedGrows(layout, n);
  }

  lemma TopIdIsNew(layout: seq<LayoutItem>, n: nat)
    requires UniqueIds(layout) && n < |layout| && !IsChild(layout, layout[n].id)
    ensures Some(layout[n].id) !in TopIds(layout, n) && Some(layout[n].id) !in InnerIds(layout, n)
  {
    assert forall id :: id in Listed(layout[..n]) ==> id in Listed(layout);
  }

  lemma InnerIdsAreNoTopIds(layout: seq<LayoutItem>, n: nat, ids: seq<Id>, taken: set<Id>)
    requires n < |layout| && layout[n].kind.Group? && ids == layout[n].kind.children && taken == Listed(layout[..n])
    ensures ChildIds(layout, ids, taken) !! TopIds(layout, n)
    ensures ChildIds(layout, ids, taken) !! InnerIds(layout, n)
    ensures !IsChild(layout, layout[n].id) ==> Some(layout[n].id) !in ChildIds(layout, ids, taken)
  {
    forall id | id in ids
      ensures id in Listed(layout)
    {
      assert layout[n] in layout;
    }
  }

  /** What one placement shows: distinct ids, namely its own and those of the children it is first to list. */
  lemma TopShows(doc: Doc, n: nat)
    requires UniqueIds(doc.layout) && n < |doc.layout| && !IsChild(doc.layout, doc.layout[n].id)
    ensures var item, shown := doc.layout[n], Shown(Top(doc, n));
            && DistinctIds(shown) && (forall f :: f in shown ==> Stands(doc, f))
            && IdSet(shown) == {Some(item.id)} + if item.kind.Group?
                                                 then ChildIds(doc.layout, item.kind.children, Listed(doc.layout[..n]))
                                                 else {}
  {
    var item, top := doc.layout[n], Top(doc, n);
    SameItem(doc.layout, ById(doc.layout, item.id).value, item);
    assert IdSet([top]) == {Some(item.id)};
    if item.kind.Group? {
      var taken := Listed(doc.layout[..n]);
      ChildRowsAre(doc, item.id, item.kind.children, taken);
      InnerIdsAreNoTopIds(doc.layout, n, item.kind.children, taken);
      DistinctAppend([top], top.children);
    } else {
      assert Shown(top) == [top];
    }
  }

  /** The items stand for placements, have distinct ids, and these ids. */
  ghost predicate ShowsExactly(doc: Doc, shown: seq<FlowItem>, ids: set<Option<Id>>) {
    && DistinctIds(shown)
    && (forall f :: f in shown ==> Stands(doc, f))
    && IdSet(shown) == ids
  }

  function IdsShown(layout: seq<LayoutItem>, n: nat): set<Option<Id>>
    requires n <= |layout|
  {
    TopIds(layout, n) + InnerIds(layout, n)
  }

  lemma {:induction false} LaidOutShows(doc: Doc, n: nat)
    requires UniqueIds(doc.layout) && n <= |doc.layout|
    ensures ShowsExactly(doc, AllItems(LaidOut(doc, n)), IdsShown(doc.layout, n))
  {
    if n > 0 {
      LaidOutShows(doc, n - 1);
      if IsChild(doc.layout, doc.layout[n - 1].id) {
        NoMoreShown(doc, n - 1);
      } else {
        OneMoreShown(doc, n - 1);
      }
    }
  }

  lemma ChildIsNoGroup(layout: seq<LayoutItem>, n: nat)
    requires UniqueIds(layout) && n < |layout| && IsChild(layout, layout[n].id)
    ensures !layout[n].kind.Group?
  {
    SameItem(layout, ById(layout, layout[n].id).value, layout[n]);
  }

  lemma NoMoreShown(doc: Doc, n: nat)
    requires UniqueIds(doc.layout) && n < |doc.layout| && IsChild(doc.layout, doc.layout[n].id)
    ensures LaidOut(doc, n + 1) == LaidOut(doc, n)
    ensures IdsShown(doc.layout, n + 1) == IdsShown(doc.layout, n)
  {
    TopIdsGrow(doc.layout, n);
    InnerIdsGrow(doc.layout, n);
    ChildIsNoGroup(doc.layout, n);
  }

  lemma OneMoreShown(doc: Doc, n: nat)
    requires UniqueIds(doc.layout) && n < |doc.layout| && !IsChild(doc.layout, doc.layout[n].id)
    requires ShowsExactly(doc, AllItems(LaidOut(doc, n)), IdsShown(doc.layout, n))
    ensures ShowsExactly(doc, AllItems(LaidOut(doc, n + 1)), IdsShown(doc.layout, n + 1))
  {
    var item := doc.layout[n];
    assert LaidOut(doc, n + 1)[..|LaidOut(doc, n)|] == LaidOut(doc, n);
    assert AllItems(LaidOut(doc, n + 1)) == AllItems(LaidOut(doc, n)) + Shown(Top(doc, n));
    TopShows(doc, n);
    TopIdsGrow(doc.layout, n);
    InnerIdsGrow(doc.layout, n);
    TopIdIsNew(doc.layout, n);
    if item.kind.Group? {
      InnerIdsAreNoTopIds(doc.layout, n, item.kind.children, Listed(doc.layout[..n]));
    }
    DistinctAppend(AllItems(LaidOut(doc, n)), Shown(Top(doc, n)));
  }

  lemma AllIdsShown(layout: seq<LayoutItem>)
    requires UniqueIds(layout)
    ensures forall id :: Some(id) in IdsShown(layout, |layout|)
                         <==> exists item :: item in layout && item.id == id
    ensures None !in IdsShown(layout, |layout|)
  {
    assert layout[..|layout|] == layout;
    forall item | item in layout
      ensures Some(item.id) in IdsShown(layout, |layout|)
    {
      SameItem(layout, ById(layout, item.id).value, item);
      if IsChild(layout, item.id) {
        assert item.id in Leaves(layout, Listed(layout));
      }
    }
    forall id | Some(id) in InnerIds(layout, |layout|)
      ensures exists item :: item in layout && item.id == id
    {
      assert ById(layout, id).value in layout;
    }
  }

  // ---- Automatic items ----

  lemma {:induction false} AutomaticParamsAre(params: seq<Key>, placed: set<Kind>, n: nat)
    requires n <= |params|
    ensures var rows := AutomaticParams(params, placed, n);
            && (forall f :: f in rows ==> f.ControlFlow? && f.registryIndex < n && Control(params[f.registryIndex]) !in placed
                                          && f == ControlFlow(params[f.registryIndex], f.registryIndex, None, None, None))
            && (forall k :: 0 <= k < n && Control(params[k]) !in placed ==> ControlFlow(params[k], k, None, None, None) in rows)
            && (forall i, j :: 0 <= i < j < |rows| ==> rows[i] != rows[j])
  {
    if n > 0 {
      AutomaticParamsAre(params, placed, n - 1);
    }
  }

  lemma {:induction false} AutomaticPreviewsAre(previews: seq<Key>, placed: set<Kind>, n: nat)
    requires n <= |previews|
    ensures var rows := AutomaticPreviews(previews, placed, n);
            && (forall f :: f in rows ==> f.PreviewFlow? && f.registryIndex < n && Preview(previews[f.registryIndex]) !in placed
                                          && f == PreviewFlow(previews[f.registryIndex], f.registryIndex, None, None, None))
            && (forall k :: 0 <= k < n && Preview(previews[k]) !in placed ==> PreviewFlow(previews[k], k, None, None, None) in rows)
            && (forall i, j :: 0 <= i < j < |rows| ==> rows[i] != rows[j])
  {
    if n > 0 {
      AutomaticPreviewsAre(previews, placed, n - 1);
    }
  }

  // ---- Keys ----

  /** Keys of different sorts differ by their prefix, and keys of the same sort by what follows it. */
  lemma KeysTellApart(a: FlowItem, b: FlowItem)
    requires FlowItemKey(a) == FlowItemKey(b)
    ensures LayoutIdOf(a) == LayoutIdOf(b)
    ensures LayoutIdOf(a).None? ==>
              (a.ControlFlow? && b.ControlFlow? && a.row == b.row)
              || (a.PreviewFlow? && b.PreviewFlow? && a.previewKey == b.previewKey)
  {
    var layoutKey, controlKey, previewKey := "layout:", "control:", "preview:";
    var k := FlowItemKey(a);
    assert layoutKey[0] != controlKey[0] && controlKey[0] != previewKey[0] && previewKey[0] != layoutKey[0];
    if LayoutIdOf(a).Some? {
      assert k[0] == layoutKey[0];
      assert LayoutIdOf(b).Some?;
      assert LayoutIdOf(a).value.text == k[7..] == LayoutIdOf(b).value.text;
      assert LayoutIdOf(a).value == LayoutIdOf(b).value;
    } else if a.ControlFlow? {
      assert k[0] == controlKey[0];
      assert b.ControlFlow? && b.layoutId.None?;
      assert a.row.text == k[8..] == b.row.text;
    } else {
      assert k[0] == previewKey[0];
      assert b.PreviewFlow? && b.layoutId.None?;
      assert a.previewKey.text == k[8..] == b.previewKey.text;
    }
  }

  lemma AutomaticAre(doc: Doc, placed: set<Kind>)
    ensures forall f :: f in Automatic(doc, placed) ==> !f.GroupFlow? && LayoutIdOf(f).None? && f.grid.None?
    ensures forall k :: 0 <= k < |doc.params| ==>
              (ControlFlow(doc.params[k], k, None, None, None) in Automatic(doc, placed) <==> Control(doc.params[k]) !in placed)
    ensures forall k :: 0 <= k < |doc.previews| ==>
              (PreviewFlow(doc.previews[k], k, None, None, None) in Automatic(doc, placed) <==> Preview(doc.previews[k]) !in placed)
  {
    AutomaticParamsAre(doc.params, placed, |doc.params|);
    AutomaticPreviewsAre(doc.previews, placed, |doc.previews|);
  }

  ghost predicate DistinctKeys(items: seq<FlowItem>) {
    forall i, j :: 0 <= i < j < |items| ==> FlowItemKey(items[i]) != FlowItemKey(items[j])
  }

  lemma AutomaticKeysDiffer(doc: Doc, placed: set<Kind>)
    requires NoDuplicates(doc.params) && NoDuplicates(doc.previews)
    ensures DistinctKeys(Automatic(doc, placed))
  {
    var rows, looks := AutomaticParams(doc.params, placed, |doc.params|), AutomaticPreviews(doc.previews, placed, |doc.previews|);
    AutomaticParamsAre(doc.params, placed, |doc.params|);
    AutomaticPreviewsAre(doc.previews, placed, |doc.previews|);
    forall i, j | 0 <= i < j < |rows + looks|
      ensures FlowItemKey((rows + looks)[i]) != FlowItemKey((rows + looks)[j])
    {
      var a, b := (rows + looks)[i], (rows + looks)[j];
      assert a in if i < |rows| then rows else looks;
      assert b in if j < |rows| then rows else looks;
      if FlowItemKey(a) == FlowItemKey(b) {
        KeysTellApart(a, b);
      }
    }
  }

  lemma DifferentIdsDifferentKeys(items: seq<FlowItem>)
    requires DistinctIds(items)
    requires forall f :: f in items ==> LayoutIdOf(f).Some?
    ensures DistinctKeys(items)
  {
    forall i, j | 0 <= i < j < |items|
      ensures FlowItemKey(items[i]) != FlowItemKey(items[j])
    {
      if FlowItemKey(items[i]) == FlowItemKey(items[j]) {
        KeysTellApart(items[i], items[j]);
      }
    }
  }

  lemma {:induction false} FlowParts(doc: Doc)
    ensures AllItems(Flow(doc)) == AllItems(LaidOut(doc, |doc.layout|)) + Automatic(doc, Refs(doc.layout))
  {
    AutomaticAre(doc, Refs(doc.layout));
    AllItemsAppend(LaidOut(doc, |doc.layout|), Automatic(doc, Refs(doc.layout)));
  }

  // ---- Main results ----

  /** Every placement of the layout is shown, once, and nothing else claims to be one. */
  lemma EveryPlacementOnce(doc: Doc)
    requires UniqueIds(doc.layout)
    ensures var all := AllItems(Flow(doc));
            && (forall i, j :: 0 <= i < j < |all| && LayoutIdOf(all[i]).Some? ==> LayoutIdOf(all[i]) != LayoutIdOf(all[j]))
            && (forall f :: f in all && LayoutIdOf(f).Some? ==> Stands(doc, f))
            && (forall item :: item in doc.layout ==> exists f :: f in all && LayoutIdOf(f) == Some(item.id))
  {
    var placed, rest := AllItems(LaidOut(doc, |doc.layout|)), Automatic(doc, Refs(doc.layout));
    FlowParts(doc);
    LaidOutShows(doc, |doc.layout|);
    AllIdsShown(doc.layout);
    AutomaticAre(doc, Refs(doc.layout));
    forall item | item in doc.layout
      ensures exists f :: f in placed + rest && LayoutIdOf(f) == Some(item.id)
    {
      assert Some(item.id) in IdSet(placed);
      var f :| f in placed && LayoutIdOf(f) == Some(item.id);
      assert f in placed + rest;
    }
  }

  /** Every item with a placement's id shows that placement for what it is. */
  lemma PlacementsShowAsTheyAre(doc: Doc, f: FlowItem, item: LayoutItem)
    requires UniqueIds(doc.layout) && f in AllItems(Flow(doc)) && item in doc.layout && LayoutIdOf(f) == Some(item.id)
    ensures Represents(doc, item, f)
  {
    EveryPlacementOnce(doc);
    StandingRepresents(doc, f);
    SameItem(doc.layout, ById(doc.layout, item.id).value, item);
  }

  // ---- The order in which it is shown ----

  /** What comes before what: placements in layout order, then parameters, then previews, in registry order. */
  ghost predicate ComesBefore(doc: Doc, f: FlowItem, g: FlowItem) {
    if LayoutIdOf(f).Some? then
      LayoutIdOf(g).Some? ==>
        exists i, j :: && 0 <= i < j < |doc.layout|
                       && Some(doc.layout[i].id) == LayoutIdOf(f) && Some(doc.layout[j].id) == LayoutIdOf(g)
    else
      && LayoutIdOf(g).None?
      && (g.ControlFlow? ==> f.ControlFlow? && f.registryIndex < g.registryIndex)
      && (f.PreviewFlow? && g.PreviewFlow? ==> f.registryIndex < g.registryIndex)
  }

  ghost predicate InFlowOrder(doc: Doc, items: seq<FlowItem>) {
    forall a, b :: 0 <= a < b < |items| ==> ComesBefore(doc, items[a], items[b])
  }

  /** The item at the top level for one of the first `n` placements. */
  ghost predicate FromTop(doc: Doc, f: FlowItem, n: nat)
    requires n <= |doc.layout|
  {
    && (f.GroupFlow? || f.parentId.None?)
    && exists i :: 0 <= i < n && LayoutIdOf(f) == Some(doc.layout[i].id) && !IsChild(doc.layout, doc.layout[i].id)
  }

  lemma {:induction false} LaidOutInOrder(doc: Doc, n: nat)
    requires n <= |doc.layout|
    ensures InFlowOrder(doc, LaidOut(doc, n)) && forall f :: f in LaidOut(doc, n) ==> FromTop(doc, f, n)
  {
    if n > 0 {
      LaidOutInOrder(doc, n - 1);
      var before, rows := LaidOut(doc, n - 1), LaidOut(doc, n);
      forall f | f in rows
        ensures FromTop(doc, f, n)
      {
        if f in before {
          assert FromTop(doc, f, n - 1);
        } else {
          assert f == Top(doc, n - 1);
        }
      }
      forall a, b | 0 <= a < b < |rows|
        ensures ComesBefore(doc, rows[a], rows[b])
      {
        if b == |before| {
          assert before[a] in before;
          assert FromTop(doc, before[a], n - 1);
        }
      }
    }
  }

  lemma {:induction false} AutomaticInOrder(doc: Doc, placed: set<Kind>)
    ensures InFlowOrder(doc, Automatic(doc, placed))
  {
    var rows, looks := AutomaticParams(doc.params, placed, |doc.params|), AutomaticPreviews(doc.previews, placed, |doc.previews|);
    AutomaticParamsAre(doc.params, placed, |doc.params|);
    AutomaticPreviewsAre(doc.previews, placed, |doc.previews|);
    ParamsAscend(doc.params, placed, |doc.params|);
    PreviewsAscend(doc.previews, placed, |doc.previews|);
    forall a, b | 0 <= a < b < |rows + looks|
      ensures ComesBefore(doc, (rows + looks)[a], (rows + looks)[b])
    {
      assert (rows + looks)[a] in if a < |rows| then rows else looks;
      assert (rows + looks)[b] in if b < |rows| then rows else looks;
    }
  }

  lemma {:induction false} ParamsAscend(params: seq<Key>, placed: set<Kind>, n: nat)
    requires n <= |params|
    ensures var rows := AutomaticParams(params, placed, n);
            && (forall f :: f in rows ==> f.ControlFlow? && f.registryIndex < n)
            && (forall a :: 0 <= a < |rows| ==> rows[a].ControlFlow?)
            && (forall a, b :: 0 <= a < b < |rows| ==> rows[a].registryIndex < rows[b].registryIndex)
  {
    if n > 0 {
      ParamsAscend(params, placed, n - 1);
    }
  }

  lemma {:induction false} PreviewsAscend(previews: seq<Key>, placed: set<Kind>, n: nat)
    requires n <= |previews|
    ensures var rows := AutomaticPreviews(previews, placed, n);
            && (forall f :: f in rows ==> f.PreviewFlow? && f.registryIndex < n)
            && (forall a :: 0 <= a < |rows| ==> rows[a].PreviewFlow?)
            && (forall a, b :: 0 <= a < b < |rows| ==> rows[a].registryIndex < rows[b].registryIndex)
  {
    if n > 0 {
      PreviewsAscend(previews, placed, n - 1);
    }
  }

  /**
   * The flow is in order: placements that no group takes, in the order of the layout, then what the layout
   * does not place, parameters in registry order before previews in theirs.
   */
  lemma FlowIsInOrder(doc: Doc)
    requires UniqueIds(doc.layout)
    ensures InFlowOrder(doc, Flow(doc))
    ensures forall f :: f in Flow(doc) && LayoutIdOf(f).Some? ==> FromTop(doc, f, |doc.layout|)
    ensures forall i :: 0 <= i < |doc.layout| && !IsChild(doc.layout, doc.layout[i].id) ==>
              exists f :: f in Flow(doc) && LayoutIdOf(f) == Some(doc.layout[i].id)
  {
    var placed, rest := LaidOut(doc, |doc.layout|), Automatic(doc, Refs(doc.layout));
    LaidOutInOrder(doc, |doc.layout|);
    AutomaticInOrder(doc, Refs(doc.layout));
    AutomaticAre(doc, Refs(doc.layout));
    forall a, b | 0 <= a < b < |placed + rest|
      ensures ComesBefore(doc, (placed + rest)[a], (placed + rest)[b])
    {
      if a < |placed| <= b {
        assert placed[a] in placed && rest[b - |placed|] in rest;
        assert FromTop(doc, placed[a], |doc.layout|);
      } else if a < |placed| {
        assert ComesBefore(doc, placed[a], placed[b]);
      } else {
        assert ComesBefore(doc, rest[a - |placed|], rest[b - |placed|]);
        assert (placed + rest)[a] == rest[a - |placed|] && (placed + rest)[b] == rest[b - |placed|];
      }
    }
    forall i | 0 <= i < |doc.layout| && !IsChild(doc.layout, doc.layout[i].id)
      ensures exists f :: f in Flow(doc) && LayoutIdOf(f) == Some(doc.layout[i].id)
    {
      TopInLaidOut(doc, i, |doc.layout|);
      assert Top(doc, i) in Flow(doc);
    }
  }

  /** Where a list names an id first. */
  function FirstAt(ids: seq<Id>, id: Id): (k: nat)
    requires id in ids
    ensures k < |ids| && ids[k] == id && forall j :: 0 <= j < k ==> ids[j] != id
  {
    var init := ids[..|ids| - 1];
    assert ids == init + [ids[|ids| - 1]];
    if id in init then FirstAt(init, id) else |ids| - 1
  }

  lemma {:induction false} ChildRowsInOrder(doc: Doc, parentId: Id, ids: seq<Id>, taken: set<Id>)
    ensures var rows := ChildRows(doc, parentId, ids, taken);
            && (forall f :: f in rows ==> LayoutIdOf(f).Some? && LayoutIdOf(f).value in ids)
            && forall a, b :: 0 <= a < b < |rows| ==>
                 LayoutIdOf(rows[a]).Some? && LayoutIdOf(rows[b]).Some?
                 && LayoutIdOf(rows[a]).value in ids && LayoutIdOf(rows[b]).value in ids
                 && FirstAt(ids, LayoutIdOf(rows[a]).value) < FirstAt(ids, LayoutIdOf(rows[b]).value)
  {
    if ids != [] {
      var init, id := ids[..|ids| - 1], ids[|ids| - 1];
      assert ids == init + [id];
      ChildRowsInOrder(doc, parentId, init, taken);
      var before, rows := ChildRows(doc, parentId, init, taken), ChildRows(doc, parentId, ids, taken);
      assert forall f :: f in before ==> LayoutIdOf(f).value in init;
      forall a, b | 0 <= a < b < |rows|
        ensures LayoutIdOf(rows[a]).Some? && LayoutIdOf(rows[b]).Some?
        ensures LayoutIdOf(rows[a]).value in ids && LayoutIdOf(rows[b]).value in ids
        ensures FirstAt(ids, LayoutIdOf(rows[a]).value) < FirstAt(ids, LayoutIdOf(rows[b]).value)
      {
        assert rows[a] == before[a] && before[a] in before;
        assert b < |before| ==> before[b] in before;
      }
    }
  }

  /** A group shows its children in the order in which it first lists them. */
  lemma ChildrenComeAsListed(doc: Doc, i: nat, a: nat, b: nat)
    requires i < |doc.layout| && doc.layout[i].kind.Group? && a < b < |Top(doc, i).children|
    ensures var ids, x, y := doc.layout[i].kind.children, LayoutIdOf(Top(doc, i).children[a]), LayoutIdOf(Top(doc, i).children[b]);
            x.Some? && y.Some? && x.value in ids && y.value in ids && FirstAt(ids, x.value) < FirstAt(ids, y.value)
  {
    ChildRowsInOrder(doc, doc.layout[i].id, doc.layout[i].kind.children, Listed(doc.layout[..i]));
  }

  // ---- Where it is shown ----

  /** A group is shown at the top level, with exactly the children that it is the first group to list. */
  lemma ChildrenSitUnderTheirFirstGroup(doc: Doc, i: nat)
    requires UniqueIds(doc.layout) && i < |doc.layout| && doc.layout[i].kind.Group?
    ensures var group := doc.layout[i];
            && Top(doc, i) in Flow(doc)
            && (forall f :: f in Top(doc, i).children ==>
                  !f.GroupFlow? && f.parentId == Some(group.id) && Stands(doc, f))
            && (forall id :: (exists f :: f in Top(doc, i).children && LayoutIdOf(f) == Some(id))
                             <==> id in group.kind.children && HasLeaf(doc.layout, id) && id !in Listed(doc.layout[..i]))
  {
    var group, taken := doc.layout[i], Listed(doc.layout[..i]);
    GroupIsNoChild(doc.layout, i);
    TopInLaidOut(doc, i, |doc.layout|);
    ChildRowsAre(doc, group.id, group.kind.children, taken);
    var rows := Top(doc, i).children;
    forall id
      ensures (exists f :: f in rows && LayoutIdOf(f) == Some(id))
              <==> id in group.kind.children && HasLeaf(doc.layout, id) && id !in taken
    {
      if id in group.kind.children && HasLeaf(doc.layout, id) && id !in taken {
        assert Some(id) in IdSet(rows);
      }
      if f :| f in rows && LayoutIdOf(f) == Some(id) {
        assert Some(id) in IdSet(rows);
      }
    }
  }

  lemma {:induction false} TopInLaidOut(doc: Doc, i: nat, n: nat)
    requires i < n <= |doc.layout| && !IsChild(doc.layout, doc.layout[i].id)
    ensures Top(doc, i) in LaidOut(doc, n)
  {
    if i < n - 1 {
      TopInLaidOut(doc, i, n - 1);
    }
  }

  /** The item shows the parameter or preview. */
  predicate Shows(f: FlowItem, ref: Kind) {
    (ref.Control? && f.ControlFlow? && f.row == ref.ref) || (ref.Preview? && f.PreviewFlow? && f.previewKey == ref.ref)
  }

  ghost predicate Exposed(doc: Doc, ref: Kind) {
    (ref.Control? && ref.ref in doc.params) || (ref.Preview? && ref.ref in doc.previews)
  }

  ghost predicate ShownByLayout(items: seq<FlowItem>, ref: Kind) {
    exists f :: f in items && Shows(f, ref) && LayoutIdOf(f).Some?
  }

  ghost predicate ShownByItself(items: seq<FlowItem>, ref: Kind) {
    exists f :: f in items && Shows(f, ref) && LayoutIdOf(f).None?
  }

  lemma StandingShowsIff(doc: Doc, f: FlowItem, ref: Kind)
    requires Stands(doc, f) && Exposed(doc, ref)
    ensures Shows(f, ref) <==> ById(doc.layout, LayoutIdOf(f).value).value.kind == ref
  {
  }

  lemma LayoutShowsIff(doc: Doc, ref: Kind, placed: seq<FlowItem>)
    requires UniqueIds(doc.layout) && Exposed(doc, ref)
    requires forall f :: f in placed ==> Stands(doc, f)
    requires forall item :: item in doc.layout ==> Some(item.id) in IdSet(placed)
    ensures ShownByLayout(placed, ref) <==> ref in Refs(doc.layout)
  {
    if ref in Refs(doc.layout) {
      var item :| item in doc.layout && item.kind == ref;
      assert Some(item.id) in IdSet(placed);
      var f :| f in placed && LayoutIdOf(f) == Some(item.id);
      SameItem(doc.layout, ById(doc.layout, item.id).value, item);
      StandingShowsIff(doc, f, ref);
    }
    if ShownByLayout(placed, ref) {
      var f :| f in placed && Shows(f, ref) && LayoutIdOf(f).Some?;
      StandingShowsIff(doc, f, ref);
    }
  }

  lemma ItselfShowsIff(doc: Doc, ref: Kind)
    requires Exposed(doc, ref)
    ensures ShownByItself(Automatic(doc, Refs(doc.layout)), ref) <==> ref !in Refs(doc.layout)
  {
    AutomaticParamsAre(doc.params, Refs(doc.layout), |doc.params|);
    AutomaticPreviewsAre(doc.previews, Refs(doc.layout), |doc.previews|);
    if ref !in Refs(doc.layout) {
      var k :| if ref.Control? then 0 <= k < |doc.params| && doc.params[k] == ref.ref
               else 0 <= k < |doc.previews| && doc.previews[k] == ref.ref;
      assert (if ref.Control? then ControlFlow(ref.ref, k, None, None, None) else PreviewFlow(ref.ref, k, None, None, None))
             in Automatic(doc, Refs(doc.layout));
    }
  }

  lemma ShownInEither(placed: seq<FlowItem>, rest: seq<FlowItem>, ref: Kind)
    requires forall f :: f in placed ==> LayoutIdOf(f).Some?
    requires forall f :: f in rest ==> LayoutIdOf(f).None?
    ensures ShownByLayout(placed + rest, ref) <==> ShownByLayout(placed, ref)
    ensures ShownByItself(placed + rest, ref) <==> ShownByItself(rest, ref)
  {
    if ShownByLayout(placed, ref) {
      var f :| f in placed && Shows(f, ref) && LayoutIdOf(f).Some?;
      assert f in placed + rest;
    }
    if ShownByItself(rest, ref) {
      var f :| f in rest && Shows(f, ref) && LayoutIdOf(f).None?;
      assert f in placed + rest;
    }
  }

  /** Every exposed parameter and preview is shown, by itself exactly when no placement shows it. */
  lemma ShownOneWay(doc: Doc, ref: Kind)
    requires UniqueIds(doc.layout) && Exposed(doc, ref)
    ensures ShownByItself(AllItems(Flow(doc)), ref) <==> !ShownByLayout(AllItems(Flow(doc)), ref)
    ensures ShownByLayout(AllItems(Flow(doc)), ref) <==> ref in Refs(doc.layout)
  {
    FlowParts(doc);
    LaidOutShows(doc, |doc.layout|);
    AutomaticAre(doc, Refs(doc.layout));
    ShownInEither(AllItems(LaidOut(doc, |doc.layout|)), Automatic(doc, Refs(doc.layout)), ref);
    AllIdsShown(doc.layout);
    LayoutShowsIff(doc, ref, AllItems(LaidOut(doc, |doc.layout|)));
    ItselfShowsIff(doc, ref);
  }

  /** All keys differ, children's included; so nothing that shows by itself is shown twice. */
  lemma AllKeysDiffer(doc: Doc)
    requires UniqueIds(doc.layout) && NoDuplicates(doc.params) && NoDuplicates(doc.previews)
    ensures DistinctKeys(AllItems(Flow(doc)))
  {
    var placed, rest := AllItems(LaidOut(doc, |doc.layout|)), Automatic(doc, Refs(doc.layout));
    FlowParts(doc);
    LaidOutShows(doc, |doc.layout|);
    AutomaticAre(doc, Refs(doc.layout));
    DifferentIdsDifferentKeys(placed);
    AutomaticKeysDiffer(doc, Refs(doc.layout));
    forall i, j | 0 <= i < |placed| && 0 <= j < |rest|
      ensures FlowItemKey(placed[i]) != FlowItemKey(rest[j])
    {
      assert Stands(doc, placed[i]) && LayoutIdOf(rest[j]).None?;
      if FlowItemKey(placed[i]) == FlowItemKey(rest[j]) {
        KeysTellApart(placed[i], rest[j]);
      }
    }
    KeysJoin(placed, rest);
  }

  lemma KeysJoin(a: seq<FlowItem>, b: seq<FlowItem>)
    requires DistinctKeys(a) && DistinctKeys(b)
    requires forall i, j :: 0 <= i < |a| && 0 <= j < |b| ==> FlowItemKey(a[i]) != FlowItemKey(b[j])
    ensures DistinctKeys(a + b)
  {
    forall i, j | 0 <= i < j < |a + b|
      ensures FlowItemKey((a + b)[i]) != FlowItemKey((a + b)[j])
    {
      if i < |a| <= j {
        assert FlowItemKey(a[i]) != FlowItemKey(b[j - |a|]);
      } else if j < |a| {
        assert FlowItemKey(a[i]) != FlowItemKey(a[j]);
      } else {
        assert FlowItemKey(b[i - |a|]) != FlowItemKey(b[j - |a|]);
      }
    }
  }
}
