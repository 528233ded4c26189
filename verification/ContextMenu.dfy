/**
 * The cascading context menu (packages/app/src/ContextMenu.tsx): which submenus are open, which row
 * is highlighted in each panel, and what keys, hovering, clicks and menu replacements do to that.
 */
module ContextMenu {
  import opened Prelude

  /** A row of a menu. `ref` is the identity of the descriptor object, which the program compares. */
  datatype Item =
    | Action(ref: nat, id: Id, disabled: bool, action: int)
    | Submenu(ref: nat, id: Id, disabled: bool, children: seq<Item>)

  /** The component's signals, and the root rows it is given. */
  datatype Cascade = Cascade(root: seq<Item>, openPath: seq<Item>, indices: seq<nat>, activeDepth: nat)

  /** A terminal row handed to the host, and where it was. */
  datatype Invocation = Invocation(root: seq<Item>, path: seq<Item>, item: Item)

  datatype State = State(cascade: Cascade, invoked: seq<Invocation>)

  datatype Key = ArrowDown | ArrowUp | Home | End | ArrowRight | ArrowLeft | Enter | OtherKey

  datatype Event =
    | KeyDown(key: Key)
    | MouseEnter(depth: nat, index: nat)
    | MouseDown(depth: nat, index: nat)
    | RootReplaced(root: seq<Item>)

  predicate HasChildren(item: Item) {
    !item.disabled && item.Submenu? && |item.children| > 0
  }

  predicate Invokable(item: Item) {
    !item.disabled && item.Action?
  }

  // ---- Rows ----

  /** The first enabled row, if any. */
  function EnabledRow(entries: seq<Item>): (found: Option<nat>)
    ensures found.Some? ==> found.value < |entries| && !entries[found.value].disabled
    ensures found.Some? ==> forall j :: 0 <= j < found.value ==> entries[j].disabled
    ensures found.None? ==> forall j :: 0 <= j < |entries| ==> entries[j].disabled
  {
    if entries == [] then None else
    var before := EnabledRow(entries[..|entries| - 1]);
    if before.Some? then before else
    if !entries[|entries| - 1].disabled then Some(|entries| - 1) else None
  }

  function FirstEnabled(entries: seq<Item>): nat {
    var found := EnabledRow(entries);
    if found.Some? then found.value else 0
  }

  function Reversed(entries: seq<Item>): (r: seq<Item>)
    ensures |r| == |entries| && forall i :: 0 <= i < |r| ==> r[i] == entries[|entries| - 1 - i]
  {
    seq(|entries|, i requires 0 <= i < |entries| => entries[|entries| - 1 - i])
  }

  function LastEnabledRow(entries: seq<Item>): Option<nat> {
    var found := EnabledRow(Reversed(entries));
    if found.Some? then Some(|entries| - 1 - found.value) else None
  }

  /** The End key looks through the reversed rows, and so finds the last enabled one. */
  lemma EndFindsLast(entries: seq<Item>)
    ensures var last := LastEnabledRow(entries);
            && (last.None? <==> forall j :: 0 <= j < |entries| ==> entries[j].disabled)
            && (last.Some? ==>
                  && last.value < |entries| && !entries[last.value].disabled
                  && forall j :: last.value < j < |entries| ==> entries[j].disabled)
  {
    forall j | 0 <= j < |entries|
      ensures Reversed(entries)[|entries| - 1 - j] == entries[j]
    {
    }
  }

  /** The first enabled row at or past `index` in the direction of `delta`, else `from`. */
  function NextRow(flat: seq<Item>, index: int, delta: int, from: int): (r: int)
    requires delta == 1 || delta == -1
    ensures r == from || 0 <= r < |flat|
    decreases if delta == 1 then |flat| - index else index + 1
  {
    if !(0 <= index < |flat|) then from else
    if !flat[index].disabled then index else NextRow(flat, index + delta, delta, from)
  }

  method MenuStep(flat: seq<Item>, from: int, delta: int) returns (index: int)
    requires delta == 1 || delta == -1
    ensures index == NextRow(flat, from + delta, delta, from)
  {
    index := from + delta;
    while index >= 0 && index < |flat|
      invariant NextRow(flat, index, delta, from) == NextRow(flat, from + delta, delta, from)
      decreases if delta == 1 then |flat| - index else index + 1
    {
      if !flat[index].disabled {
        return;
      }
      index := index + delta;
    }
    return from;
  }

  /** Row `j` lies strictly past `from` in the direction of `delta`, and before `limit`. */
  predicate Between(from: int, j: int, limit: int, delta: int) {
    if delta == 1 then from < j < limit else limit < j < from
  }

  /** A step lands on the nearest enabled row in its direction, or stays when there is none. */
  lemma {:induction false} StepIsNearest(flat: seq<Item>, index: int, delta: int, from: int)
    requires delta == 1 || delta == -1
    requires 0 <= from && (from < |flat| || flat == [])
    requires Between(from, index, if delta == 1 then index + 1 else index - 1, delta)
    requires forall j :: 0 <= j < |flat| && Between(from, j, index, delta) ==> flat[j].disabled
    ensures var r := NextRow(flat, index, delta, from);
            if r == from then
              forall j :: 0 <= j < |flat| && (if delta == 1 then from < j else j < from) ==> flat[j].disabled
            else
              && 0 <= r < |flat| && !flat[r].disabled && (if delta == 1 then from < r else r < from)
              && forall j :: 0 <= j < |flat| && Between(from, j, r, delta) ==> flat[j].disabled
    decreases if delta == 1 then |flat| - index else index + 1
  {
    if 0 <= index < |flat| && flat[index].disabled {
      StepIsNearest(flat, index + delta, delta, from);
    }
  }

  /** After a step that moved, the opposite step returns exactly when the starting row is enabled. */
  lemma OppositeStepReturns(flat: seq<Item>, from: int, delta: int)
    requires delta == 1 || delta == -1
    requires 0 <= from < |flat|
    requires NextRow(flat, from + delta, delta, from) != from
    ensures var there := NextRow(flat, from + delta, delta, from);
            NextRow(flat, there - delta, -delta, there) == from <==> !flat[from].disabled
  {
    StepIsNearest(flat, from + delta, delta, from);
    var there := NextRow(flat, from + delta, delta, from);
    StepIsNearest(flat, there - delta, -delta, there);
  }

  // ---- Panels and paths ----

  /** The rows of the panel at the end of a path. */
  function Panel(root: seq<Item>, path: seq<Item>): seq<Item> {
    if path == [] then root else
    var owner := path[|path| - 1];
    if owner.Submenu? then owner.children else []
  }

  /** Each item of the path is an enabled submenu with rows, shown in the panel of the one before. */
  ghost predicate Chain(root: seq<Item>, path: seq<Item>) {
    path != [] ==>
      var init, last := path[..|path| - 1], path[|path| - 1];
      Chain(root, init) && last in Panel(root, init) && HasChildren(last)
  }

  lemma {:induction false} ChainPrefix(root: seq<Item>, path: seq<Item>, n: nat)
    requires Chain(root, path) && n <= |path|
    ensures Chain(root, path[..n])
    decreases |path|
  {
    if n < |path| {
      ChainPrefix(root, path[..|path| - 1], n);
      assert path[..|path| - 1][..n] == path[..n];
    } else {
      assert path[..n] == path;
    }
  }

  lemma {:induction false} ChainAt(root: seq<Item>, path: seq<Item>, depth: nat)
    requires Chain(root, path) && depth < |path|
    ensures path[depth] in Panel(root, path[..depth]) && HasChildren(path[depth])
  {
    ChainPrefix(root, path, depth + 1);
    assert path[..depth + 1][..depth] == path[..depth];
  }

  lemma {:induction false} ChainAppend(root: seq<Item>, path: seq<Item>, item: Item)
    requires Chain(root, path) && item in Panel(root, path) && HasChildren(item)
    ensures Chain(root, path + [item])
  {
    assert (path + [item])[..|path|] == path;
  }

  // ---- Following a path through a replaced menu ----

  /** `item` is the first row with its id. */
  ghost predicate FirstWithId(entries: seq<Item>, item: Item) {
    exists k :: 0 <= k < |entries| && entries[k] == item && forall j :: 0 <= j < k ==> entries[j].id != item.id
  }

  function FindById(entries: seq<Item>, id: Id): (found: Option<Item>)
    ensures found.Some? ==> found.value.id == id && found.value in entries && FirstWithId(entries, found.value)
    ensures found.None? ==> forall e :: e in entries ==> e.id != id
  {
    if entries == [] then None else
    var init := entries[..|entries| - 1];
    var before := FindById(init, id);
    assert entries == init + [entries[|entries| - 1]];
    if before.Some? then
      assert exists k :: 0 <= k < |init| && entries[k] == before.value && forall j :: 0 <= j < k ==> entries[j].id != id;
      before
    else if entries[|entries| - 1].id == id then
      assert forall j :: 0 <= j < |init| ==> entries[j] in init;
      Some(entries[|entries| - 1])
    else None
  }

  lemma {:induction false} FirstIsFound(entries: seq<Item>, item: Item)
    requires FirstWithId(entries, item)
    ensures FindById(entries, item.id) == Some(item)
  {
    var k :| 0 <= k < |entries| && entries[k] == item && forall j :: 0 <= j < k ==> entries[j].id != item.id;
    assert item in entries;
    var found := FindById(entries, item.id).value;
    var m :| 0 <= m < |entries| && entries[m] == found && forall j :: 0 <= j < m ==> entries[j].id != found.id;
    assert !(m < k) && !(k < m);
  }

  /** What the replacement keeps of a path: the loop stops at the first id that does not resolve. */
  function Kept(root: seq<Item>, path: seq<Item>): (kept: seq<Item>)
    ensures |kept| <= |path|
  {
    if path == [] then [] else
    var before := Kept(root, path[..|path| - 1]);
    if |before| < |path| - 1 then before else
    var found := FindById(Panel(root, before), path[|path| - 1].id);
    if found.Some? && HasChildren(found.value) then before + [found.value] else before
  }

  /** `q` spells the first ids of `path` in the menu, always by the first row with the id. */
  ghost predicate Follows(root: seq<Item>, q: seq<Item>, path: seq<Item>) {
    && |q| <= |path|
    && forall i :: 0 <= i < |q| ==>
         q[i].id == path[i].id && FirstWithId(Panel(root, q[..i]), q[i]) && HasChildren(q[i])
  }

  lemma FollowsPrefix(root: seq<Item>, q: seq<Item>, path: seq<Item>, n: nat, m: nat)
    requires Follows(root, q, path) && n <= |q| && n <= m <= |path|
    ensures Follows(root, q[..n], path[..m])
  {
    forall i | 0 <= i < n
      ensures q[..n][i].id == path[..m][i].id && FirstWithId(Panel(root, q[..n][..i]), q[..n][i]) && HasChildren(q[..n][i])
    {
      assert q[..n][..i] == q[..i];
    }
  }

  lemma FollowsAppend(root: seq<Item>, q: seq<Item>, path: seq<Item>, item: Item)
    requires Follows(root, q, path) && |q| < |path|
    requires item.id == path[|q|].id && FirstWithId(Panel(root, q), item) && HasChildren(item)
    ensures Follows(root, q + [item], path)
  {
    var t := q + [item];
    forall i | 0 <= i < |t|
      ensures t[i].id == path[i].id && FirstWithId(Panel(root, t[..i]), t[i]) && HasChildren(t[i])
    {
      if i < |q| {
        assert t[..i] == q[..i];
      } else {
        assert t[..i] == q;
      }
    }
  }

  lemma FollowsLonger(root: seq<Item>, q: seq<Item>, path: seq<Item>, n: nat)
    requires n <= |path| && Follows(root, q, path[..n])
    ensures Follows(root, q, path)
  {
    assert forall i :: 0 <= i < |q| ==> path[..n][i] == path[i];
  }

  lemma {:induction false} KeptFollows(root: seq<Item>, path: seq<Item>)
    ensures Follows(root, Kept(root, path), path)
  {
    if path != [] {
      var n := |path| - 1;
      var before := Kept(root, path[..n]);
      KeptFollows(root, path[..n]);
      FollowsLonger(root, before, path, n);
      if |before| == n {
        var found := FindById(Panel(root, before), path[n].id);
        if found.Some? && HasChildren(found.value) {
          FollowsAppend(root, before, path, found.value);
        }
      }
    }
  }

  /** One more id of the path: it is followed only as far as everything before it was. */
  lemma {:induction false} KeptStep(root: seq<Item>, path: seq<Item>, i: nat)
    requires i < |path| && |Kept(root, path[..i])| == i
    ensures var kept, found := Kept(root, path[..i]), FindById(Panel(root, Kept(root, path[..i])), path[i].id);
            Kept(root, path[..i + 1]) == if found.Some? && HasChildren(found.value) then kept + [found.value] else kept
  {
    assert path[..i + 1][..i] == path[..i];
  }

  /** Where the kept path is cut short, the next id does not lead to an enabled submenu. */
  lemma {:induction false} KeptCannotGrow(root: seq<Item>, path: seq<Item>)
    requires |Kept(root, path)| < |path|
    ensures var kept := Kept(root, path);
            var found := FindById(Panel(root, kept), path[|kept|].id);
            found.None? || !HasChildren(found.value)
  {
    var n := |path| - 1;
    if |Kept(root, path[..n])| < n {
      KeptCannotGrow(root, path[..n]);
    }
  }

  /** Two ways of spelling the same ids take the same rows. */
  lemma {:induction false} FollowersAgree(root: seq<Item>, p: seq<Item>, q: seq<Item>, path: seq<Item>, n: nat)
    requires Follows(root, p, path) && Follows(root, q, path) && n <= |p| && n <= |q|
    ensures p[..n] == q[..n]
  {
    if n > 0 {
      FollowersAgree(root, p, q, path, n - 1);
      SameFirst(Panel(root, p[..n - 1]), p[n - 1], q[n - 1]);
      TakeOneMore(p, n - 1);
      TakeOneMore(q, n - 1);
    }
  }

  lemma SameFirst(entries: seq<Item>, a: Item, b: Item)
    requires FirstWithId(entries, a) && FirstWithId(entries, b) && a.id == b.id
    ensures a == b
  {
    FirstIsFound(entries, a);
    FirstIsFound(entries, b);
  }

  lemma TakeOneMore(s: seq<Item>, n: nat)
    requires n < |s|
    ensures s[..n + 1] == s[..n] + [s[n]]
  {
  }

  lemma CannotFollowFurther(root: seq<Item>, kept: seq<Item>, q: seq<Item>, path: seq<Item>)
    requires Follows(root, q, path) && q[..Min(|kept|, |q|)] == kept[..Min(|kept|, |q|)]
    requires |kept| < |path| ==> var found := FindById(Panel(root, kept), path[|kept|].id);
                                 found.None? || !HasChildren(found.value)
    ensures q <= kept || |kept| > |path|
  {
    assert kept[..|kept|] == kept && q[..|q|] == q;
    if |kept| < |q| {
      FirstIsFound(Panel(root, kept), q[|kept|]);
    }
  }

  lemma {:induction false} KeptIsLongest(root: seq<Item>, path: seq<Item>, q: seq<Item>)
    requires Follows(root, q, path)
    ensures q <= Kept(root, path)
  {
    var kept := Kept(root, path);
    KeptFollows(root, path);
    FollowersAgree(root, kept, q, path, Min(|kept|, |q|));
    if |kept| < |path| {
      KeptCannotGrow(root, path);
    }
    CannotFollowFurther(root, kept, q, path);
  }

  lemma {:induction false} FollowsIsChain(root: seq<Item>, q: seq<Item>, path: seq<Item>)
    requires Follows(root, q, path)
    ensures Chain(root, q)
    decreases |q|
  {
    if q != [] {
      var n := |q| - 1;
      FollowsPrefix(root, q, path, n, |path|);
      assert path[..|path|] == path;
      FollowsIsChain(root, q[..n], path);
      assert q[n] in Panel(root, q[..n]);
    }
  }

  /** A replacement keeps exactly the longest id prefix that still resolves. */
  lemma {:induction false} ReplacementKeepsLongest(root: seq<Item>, path: seq<Item>)
    ensures Follows(root, Kept(root, path), path)
    ensures forall q :: Follows(root, q, path) ==> q <= Kept(root, path)
    ensures Chain(root, Kept(root, path))
  {
    KeptFollows(root, path);
    FollowsIsChain(root, Kept(root, path), path);
    forall q | Follows(root, q, path)
      ensures q <= Kept(root, path)
    {
      KeptIsLongest(root, path, q);
    }
  }

  /** Showing the same menu again keeps the open path exactly when no row before one on it shares its id. */
  lemma {:induction false} SameMenuKeepsPathIff(root: seq<Item>, path: seq<Item>)
    ensures Kept(root, path) == path <==> Follows(root, path, path)
  {
    KeptFollows(root, path);
    if Follows(root, path, path) {
      KeptIsLongest(root, path, path);
    }
  }

  /** The same rows with other labels: ids, availability and nesting agree. */
  ghost predicate Relabelled(a: Item, b: Item)
    decreases a
  {
    && a.id == b.id && a.disabled == b.disabled && a.Submenu? == b.Submenu?
    && (a.Submenu? ==>
          && |a.children| == |b.children|
          && forall i :: 0 <= i < |a.children| ==> Relabelled(a.children[i], b.children[i]))
  }

  ghost predicate RelabelledRows(a: seq<Item>, b: seq<Item>) {
    |a| == |b| && forall i :: 0 <= i < |a| ==> Relabelled(a[i], b[i])
  }

  /** A change of labels, such as a change of locale, leaves every open submenu open. */
  lemma {:induction false} RelabellingKeepsEverySubmenu(earlier: seq<Item>, root: seq<Item>, path: seq<Item>)
    requires RelabelledRows(earlier, root) && Follows(earlier, path, path)
    ensures RelabelledRows(path, Kept(root, path))
  {
    RelabellingKeepsUpTo(earlier, root, path, |path|);
    assert path[..|path|] == path;
  }

  lemma {:induction false} RelabellingKeepsUpTo(earlier: seq<Item>, root: seq<Item>, path: seq<Item>, n: nat)
    requires RelabelledRows(earlier, root) && Follows(earlier, path, path) && n <= |path|
    ensures RelabelledRows(path[..n], Kept(root, path[..n]))
  {
    if n > 0 {
      RelabellingKeepsUpTo(earlier, root, path, n - 1);
      RelabelledNext(earlier, root, path[..n - 1], Kept(root, path[..n - 1]), path[n - 1]);
      KeptStep(root, path, n - 1);
      TakeOneMore(path, n - 1);
    }
  }

  lemma RelabelledNext(earlier: seq<Item>, root: seq<Item>, init: seq<Item>, kept: seq<Item>, last: Item)
    requires RelabelledRows(earlier, root) && RelabelledRows(init, kept)
    requires FirstWithId(Panel(earlier, init), last) && HasChildren(last)
    ensures var found := FindById(Panel(root, kept), last.id);
            found.Some? && HasChildren(found.value) && RelabelledRows(init + [last], kept + [found.value])
  {
    RelabelledPanel(earlier, root, init, kept);
    RelabelledFirst(Panel(earlier, init), Panel(root, kept), last);
    RelabelledAppend(init, last, kept, FindById(Panel(root, kept), last.id).value);
  }

  lemma {:induction false} RelabelledAppend(a: seq<Item>, x: Item, b: seq<Item>, y: Item)
    requires RelabelledRows(a, b) && Relabelled(x, y)
    ensures RelabelledRows(a + [x], b + [y])
  {
  }

  lemma RelabelledPanel(earlier: seq<Item>, root: seq<Item>, path: seq<Item>, kept: seq<Item>)
    requires RelabelledRows(earlier, root) && RelabelledRows(path, kept)
    ensures RelabelledRows(Panel(earlier, path), Panel(root, kept))
  {
    if path != [] {
      assert Relabelled(path[|path| - 1], kept[|path| - 1]);
    }
  }

  lemma {:induction false} RelabelledFirst(a: seq<Item>, b: seq<Item>, item: Item)
    requires RelabelledRows(a, b) && FirstWithId(a, item) && HasChildren(item)
    ensures FindById(b, item.id).Some? && Relabelled(item, FindById(b, item.id).value)
    ensures HasChildren(FindById(b, item.id).value)
  {
    var k :| 0 <= k < |a| && a[k] == item && forall j :: 0 <= j < k ==> a[j].id != item.id;
    assert Relabelled(a[k], b[k]);
    forall j | 0 <= j < k
      ensures b[j].id != b[k].id
    {
      assert Relabelled(a[j], b[j]);
    }
    FirstIsFound(b, b[k]);
  }

  // ---- What the component's functions do to its signals ----

  /** There is a highlighted row for every open panel. */
  predicate Fits(c: Cascade) {
    |c.openPath| < |c.indices|
  }

  function WithIndex(c: Cascade, depth: nat, index: nat): Cascade
    requires Fits(c) && depth <= |c.openPath|
  {
    c.(indices := c.indices[depth := index])
  }

  function ClosedAfter(c: Cascade, depth: nat): Cascade {
    c.(openPath := if |c.openPath| > depth then c.openPath[..depth] else c.openPath,
       indices := if |c.indices| > depth + 1 then c.indices[..depth + 1] else c.indices)
  }

  function ChildrenOpened(c: Cascade, depth: nat, item: Item, index: nat, enter: bool): (d: Cascade)
    requires Fits(c) && depth <= |c.openPath|
    ensures Fits(d)
  {
    var d := WithIndex(c, depth, index);
    if !HasChildren(item) then ClosedAfter(d, depth) else
    var alreadyOpen := |d.openPath| == depth + 1 && d.openPath[depth] == item;
    var e := if alreadyOpen then d else
             d.(openPath := d.openPath[..depth] + [item],
                indices := d.indices[..depth + 1] + [FirstEnabled(item.children)]);
    if enter then e.(activeDepth := depth + 1) else e
  }

  function Replaced(c: Cascade, root: seq<Item>): Cascade {
    c.(root := root, openPath := Kept(root, c.openPath))
  }

  /** The rows of an open panel. */
  function Rows(c: Cascade, depth: nat): seq<Item>
    requires depth <= |c.openPath|
  {
    Panel(c.root, c.openPath[..depth])
  }

  function InvokedOrOpened(s: State, depth: nat, item: Item, index: nat): (t: State)
    requires Fits(s.cascade) && depth <= |s.cascade.openPath|
    ensures Fits(t.cascade)
  {
    var c := ChildrenOpened(s.cascade, depth, item, index, true);
    State(c, if !HasChildren(item) && Invokable(item)
             then s.invoked + [Invocation(c.root, c.openPath, item)] else s.invoked)
  }

  /** The panel and the row the keys act on: the stored ones, held within what is shown. */
  function KeyDepth(c: Cascade): nat {
    Min(c.activeDepth, |c.openPath|)
  }

  function KeyIndex(c: Cascade): nat
    requires Fits(c)
  {
    Min(c.indices[KeyDepth(c)], Max(0, |Rows(c, KeyDepth(c))| - 1))
  }

  function KeyPressed(s: State, key: Key): (t: State)
    requires Fits(s.cascade)
    ensures Fits(t.cascade)
  {
    var c := s.cascade;
    var depth, index := KeyDepth(c), KeyIndex(c);
    var rows := Rows(c, depth);
    match key
    case ArrowDown => s.(cascade := WithIndex(c, depth, NextRow(rows, index + 1, 1, index)))
    case ArrowUp => s.(cascade := WithIndex(c, depth, NextRow(rows, index - 1, -1, index)))
    case Home => if EnabledRow(rows).Some? then s.(cascade := WithIndex(c, depth, EnabledRow(rows).value)) else s
    case End =>
      EndFindsLast(rows);
      if LastEnabledRow(rows).Some? then s.(cascade := WithIndex(c, depth, LastEnabledRow(rows).value)) else s
    case ArrowRight =>
      if index < |rows| then s.(cascade := ChildrenOpened(c, depth, rows[index], index, true)) else s
    case ArrowLeft =>
      if depth > 0 then s.(cascade := ClosedAfter(c, depth - 1).(activeDepth := depth - 1)) else s
    case Enter => if index < |rows| then InvokedOrOpened(s, depth, rows[index], index) else s
    case OtherKey => s
  }

  // ---- One atomic step ----

  /** A row can be pointed at while it is shown. */
  predicate Shown(c: Cascade, depth: nat, index: nat) {
    depth <= |c.openPath| && index < |Rows(c, depth)|
  }

  function Step(s: State, e: Event): (t: State)
    requires Fits(s.cascade)
    ensures Fits(t.cascade)
  {
    var c := s.cascade;
    match e
    case KeyDown(key) => KeyPressed(s, key)
    case MouseEnter(depth, index) =>
      if !Shown(c, depth, index) then s else
      s.(cascade := ChildrenOpened(c.(activeDepth := depth), depth, Rows(c, depth)[index], index, false))
    case MouseDown(depth, index) =>
      if !Shown(c, depth, index) then s else InvokedOrOpened(s, depth, Rows(c, depth)[index], index)
    case RootReplaced(root) => s.(cascade := Replaced(c, root))
  }

  function Opening(root: seq<Item>): State {
    State(Cascade(root, [], [FirstEnabled(root)], 0), [])
  }

  function Run(root: seq<Item>, events: seq<Event>): (s: State)
    ensures Fits(s.cascade)
  {
    if events == [] then Opening(root) else Step(Run(root, events[..|events| - 1]), events[|events| - 1])
  }

  // ---- What is true of every reachable state ----

  ghost predicate Legitimate(i: Invocation) {
    Chain(i.root, i.path) && i.item in Panel(i.root, i.path) && Invokable(i.item)
  }

  ghost predicate Inv(s: State) {
    && Chain(s.cascade.root, s.cascade.openPath)
    && forall i :: i in s.invoked ==> Legitimate(i)
  }

  lemma ClosingKeepsChain(c: Cascade, depth: nat)
    requires Chain(c.root, c.openPath)
    ensures Chain(c.root, ClosedAfter(c, depth).openPath)
  {
    if |c.openPath| > depth {
      ChainPrefix(c.root, c.openPath, depth);
    }
  }

  lemma OpeningKeepsChain(c: Cascade, depth: nat, item: Item, index: nat, enter: bool)
    requires Fits(c) && depth <= |c.openPath| && Chain(c.root, c.openPath) && item in Rows(c, depth)
    ensures Chain(c.root, ChildrenOpened(c, depth, item, index, enter).openPath)
    ensures !HasChildren(item) ==> ChildrenOpened(c, depth, item, index, enter).openPath == c.openPath[..depth]
  {
    ChainPrefix(c.root, c.openPath, depth);
    if HasChildren(item) {
      ChainAppend(c.root, c.openPath[..depth], item);
    } else {
      assert |c.openPath| == depth ==> c.openPath[..depth] == c.openPath;
    }
  }

  lemma InvokingKeepsInv(s: State, depth: nat, index: nat)
    requires Fits(s.cascade) && Inv(s) && Shown(s.cascade, depth, index)
    ensures Inv(InvokedOrOpened(s, depth, Rows(s.cascade, depth)[index], index))
  {
    OpeningKeepsChain(s.cascade, depth, Rows(s.cascade, depth)[index], index, true);
  }

  lemma KeyKeepsInv(s: State, key: Key)
    requires Fits(s.cascade) && Inv(s)
    ensures Inv(KeyPressed(s, key))
  {
    var c, depth, index := s.cascade, KeyDepth(s.cascade), KeyIndex(s.cascade);
    if key == ArrowLeft && depth > 0 {
      ClosingKeepsChain(c, depth - 1);
    }
    if index < |Rows(c, depth)| {
      if key == ArrowRight {
        OpeningKeepsChain(c, depth, Rows(c, depth)[index], index, true);
      }
      if key == Enter {
        InvokingKeepsInv(s, depth, index);
      }
    }
  }

  lemma StepKeepsInv(s: State, e: Event)
    requires Fits(s.cascade) && Inv(s)
    ensures Inv(Step(s, e))
  {
    var c := s.cascade;
    match e
    case KeyDown(key) => KeyKeepsInv(s, key);
    case MouseEnter(depth, index) =>
      if Shown(c, depth, index) {
        OpeningKeepsChain(c.(activeDepth := depth), depth, Rows(c, depth)[index], index, false);
      }
    case MouseDown(depth, index) =>
      if Shown(c, depth, index) {
        InvokingKeepsInv(s, depth, index);
      }
    case RootReplaced(root) => ReplacementKeepsLongest(root, c.openPath);
  }

  // ---- Main results ----

  lemma {:induction false} RunKeepsInv(root: seq<Item>, events: seq<Event>)
    ensures Inv(Run(root, events))
  {
    if events != [] {
      RunKeepsInv(root, events[..|events| - 1]);
      StepKeepsInv(Run(root, events[..|events| - 1]), events[|events| - 1]);
    }
  }

  /** The open path always leads through enabled submenus of the menu as it is now. */
  lemma {:induction false} OpenPathIsInTheMenu(root: seq<Item>, events: seq<Event>, depth: nat)
    requires depth < |Run(root, events).cascade.openPath|
    ensures var c := Run(root, events).cascade;
            && c.openPath[depth] in Rows(c, depth)
            && !c.openPath[depth].disabled && c.openPath[depth].Submenu? && c.openPath[depth].children != []
  {
    RunKeepsInv(root, events);
    ChainAt(Run(root, events).cascade.root, Run(root, events).cascade.openPath, depth);
  }

  /** Whatever is handed to the host is an enabled action that was on screen. */
  lemma {:induction false} OnlyShownActionsAreInvoked(root: seq<Item>, events: seq<Event>)
    ensures forall i :: i in Run(root, events).invoked ==> Legitimate(i)
  {
    RunKeepsInv(root, events);
  }

  /** The vertical keys change only the highlight of the panel they act on, to the row they promise. */
  lemma VerticalKeysHighlight(s: State, key: Key)
    requires Fits(s.cascade) && (key == ArrowDown || key == ArrowUp || key == Home || key == End)
    ensures var c, t, rows := s.cascade, Step(s, KeyDown(key)), Rows(s.cascade, KeyDepth(s.cascade));
            var row := t.cascade.indices[KeyDepth(c)];
            && t == s.(cascade := c.(indices := c.indices[KeyDepth(c) := row]))
            && ((exists j :: 0 <= j < |rows| && !rows[j].disabled) && (key == Home || key == End) ==>
                  && row < |rows| && !rows[row].disabled
                  && forall j :: 0 <= j < |rows| && (if key == Home then j < row else row < j) ==> rows[j].disabled)
            && (key == ArrowDown || key == ArrowUp ==>
                  var delta: int := if key == ArrowDown then 1 else -1;
                  if row == KeyIndex(c) then
                    forall j :: 0 <= j < |rows| && (if delta == 1 then KeyIndex(c) < j else j < KeyIndex(c)) ==> rows[j].disabled
                  else
                    && row < |rows| && !rows[row].disabled && (if delta == 1 then KeyIndex(c) < row else row < KeyIndex(c))
                    && forall j :: 0 <= j < |rows| && Between(KeyIndex(c), j, row, delta) ==> rows[j].disabled)
  {
    var c, rows, from := s.cascade, Rows(s.cascade, KeyDepth(s.cascade)), KeyIndex(s.cascade);
    EndFindsLast(rows);
    if key == ArrowDown || key == ArrowUp {
      var delta: int := if key == ArrowDown then 1 else -1;
      StepIsNearest(rows, from + delta, delta, from);
    }
  }

  /** Pointing at a row shows its children and nothing deeper; pressing it enters them, or invokes it. */
  lemma PointingAndPressing(s: State, depth: nat, index: nat)
    requires Fits(s.cascade) && Shown(s.cascade, depth, index)
    ensures var c, item := s.cascade, Rows(s.cascade, depth)[index];
            var hovered, pressed := Step(s, MouseEnter(depth, index)), Step(s, MouseDown(depth, index));
            var opens := !item.disabled && item.Submenu? && item.children != [];
            var path := c.openPath[..depth] + if opens then [item] else [];
            && hovered.cascade.openPath == path && pressed.cascade.openPath == path
            && hovered.cascade.activeDepth == depth && hovered.invoked == s.invoked
            && hovered.cascade.indices[depth] == index && pressed.cascade.indices[depth] == index
            && pressed.cascade.activeDepth == (if opens then depth + 1 else c.activeDepth)
            && pressed.invoked == s.invoked + if !item.disabled && item.Action? then [Invocation(c.root, path, item)] else []
  {
    var c, item := s.cascade, Rows(s.cascade, depth)[index];
    assert |c.openPath| == depth ==> c.openPath[..depth] == c.openPath;
    assert |c.openPath| == depth + 1 ==> c.openPath == c.openPath[..depth] + [c.openPath[depth]];
  }

  /** Entering a submenu with the right arrow and leaving it with the left one. */
  lemma RightThenLeft(s: State)
    requires Fits(s.cascade)
    requires var c := s.cascade;
             KeyIndex(c) < |Rows(c, KeyDepth(c))| && HasChildren(Rows(c, KeyDepth(c))[KeyIndex(c)])
    ensures var c, depth := s.cascade, KeyDepth(s.cascade);
            var back := Step(Step(s, KeyDown(ArrowRight)), KeyDown(ArrowLeft));
            && back == s.(cascade := Cascade(c.root, c.openPath[..depth],
                                             c.indices[..depth + 1][depth := KeyIndex(c)], depth))
            && (back == s <==> |c.openPath| == depth == c.activeDepth && |c.indices| == depth + 1
                               && c.indices[depth] == KeyIndex(c))
  {
    var c, depth, index := s.cascade, KeyDepth(s.cascade), KeyIndex(s.cascade);
    var there := ChildrenOpened(c, depth, Rows(c, depth)[index], index, true);
    assert there.openPath[..depth] == c.openPath[..depth];
    assert there.indices[..depth + 1] == c.indices[..depth + 1][depth := index];
    assert |c.openPath| == depth ==> c.openPath[..depth] == c.openPath;
    assert |c.indices| == depth + 1 ==> c.indices[..depth + 1] == c.indices;
  }

  /** The row that a panel starts with: its first enabled one, or row 0 when there is none. */
  ghost predicate StartsAt(rows: seq<Item>, row: nat) {
    if exists j :: 0 <= j < |rows| && !rows[j].disabled
    then row < |rows| && !rows[row].disabled && forall j :: 0 <= j < row ==> rows[j].disabled
    else row == 0
  }

  /** A new menu and a newly shown submenu highlight the row that they start with; one already shown keeps its own. */
  lemma PanelsStartHighlighted(root: seq<Item>, s: State, depth: nat, index: nat)
    requires Fits(s.cascade) && Shown(s.cascade, depth, index)
    ensures Opening(root) == State(Cascade(root, [], [Opening(root).cascade.indices[0]], 0), [])
    ensures StartsAt(root, Opening(root).cascade.indices[0])
    ensures var c, item, t := s.cascade, Rows(s.cascade, depth)[index], Step(s, MouseEnter(depth, index)).cascade;
            HasChildren(item) ==>
              if c.openPath == c.openPath[..depth] + [item] then t.indices == c.indices[depth := index]
              else && |t.indices| == depth + 2 && StartsAt(item.children, t.indices[depth + 1])
                   && t.indices[..depth + 1] == c.indices[..depth + 1][depth := index]
  {
    assert |s.cascade.openPath| == depth + 1 ==>
             s.cascade.openPath == s.cascade.openPath[..depth] + [s.cascade.openPath[depth]];
  }

  /** The keys act on the active panel, or the last one shown, and on its highlighted row, or its last one. */
  lemma KeysActOnTheHighlight(c: Cascade)
    requires Fits(c)
    ensures KeyDepth(c) == if c.activeDepth <= |c.openPath| then c.activeDepth else |c.openPath|
    ensures var rows := Rows(c, KeyDepth(c));
            if c.indices[KeyDepth(c)] < |rows| then KeyIndex(c) == c.indices[KeyDepth(c)]
            else KeyIndex(c) == if rows == [] then 0 else |rows| - 1
  {
  }

  /** Enter presses the highlighted row; the right arrow enters its children but invokes nothing; others do nothing. */
  lemma EnterAndRightAct(s: State)
    requires Fits(s.cascade)
    ensures var c := s.cascade;
            var pressed := Step(s, MouseDown(KeyDepth(c), KeyIndex(c)));
            if Rows(c, KeyDepth(c)) == [] then Step(s, KeyDown(Enter)) == s && Step(s, KeyDown(ArrowRight)) == s
            else Step(s, KeyDown(Enter)) == pressed && Step(s, KeyDown(ArrowRight)) == pressed.(invoked := s.invoked)
    ensures Step(s, KeyDown(OtherKey)) == s
  {
  }

  /** The left arrow closes the active panel and those after it, and makes the one before it active. */
  lemma LeftLeavesThePanel(s: State)
    requires Fits(s.cascade)
    ensures var c, depth := s.cascade, KeyDepth(s.cascade);
            Step(s, KeyDown(ArrowLeft)) ==
              if depth == 0 then s
              else s.(cascade := c.(openPath := c.openPath[..depth - 1], indices := c.indices[..depth],
                                    activeDepth := depth - 1))
  {
  }

  /** New rows keep as much of the open path as leads through them, and change nothing else. */
  lemma {:induction false} ReplacingKeepsThePath(s: State, root: seq<Item>)
    requires Fits(s.cascade)
    ensures var path, t := s.cascade.openPath, Step(s, RootReplaced(root));
            && t == s.(cascade := s.cascade.(root := root, openPath := t.cascade.openPath))
            && Follows(root, t.cascade.openPath, path)
            && forall q :: Follows(root, q, path) ==> q <= t.cascade.openPath
  {
    var kept := Kept(root, s.cascade.openPath);
    assert Step(s, RootReplaced(root)) == s.(cascade := s.cascade.(root := root, openPath := kept));
    ReplacementKeepsLongest(root, s.cascade.openPath);
  }

  // ---- The component ----

  /** Follow the ids of the open path through new rows, as far as they lead. */
  method FollowPath(root: seq<Item>, current: seq<Item>) returns (next: seq<Item>)
    ensures next == Kept(root, current)
  {
    next := [];
    var entries := root;
    for i := 0 to |current|
      invariant |next| == i && next == Kept(root, current[..i])
      invariant entries == Panel(root, next)
    {
      var item := FindById(entries, current[i].id);
      if item.None? || !HasChildren(item.value) {
        KeptEndsHere(root, current, i);
        return;
      }
      KeptStep(root, current, i);
      next := next + [item.value];
      entries := item.value.children;
    }
    assert current[..|current|] == current;
  }

  class MenuCascade {
    /** The rows given by the host and the signals `openPath`, `indices` and `activeDepth`. */
    var signals: Cascade
    ghost var invoked: seq<Invocation>

    ghost function View(): State
      reads this
    {
      State(signals, invoked)
    }

    constructor (root: seq<Item>)
      ensures View() == Opening(root)
    {
      signals := Cascade(root, [], [FirstEnabled(root)], 0);
      invoked := [];
    }

    method SetIndex(depth: nat, index: nat)
      requires Fits(signals) && depth <= |signals.openPath|
      modifies this`signals
      ensures signals == WithIndex(old(signals), depth, index)
    {
      signals := signals.(indices := signals.indices[depth := index]);
    }

    method CloseAfter(depth: nat)
      modifies this`signals
      ensures signals == ClosedAfter(old(signals), depth)
    {
      var path, rows := signals.openPath, signals.indices;
      if |path| > depth {
        path := path[..depth];
      }
      if |rows| > depth + 1 {
        rows := rows[..depth + 1];
      }
      signals := signals.(openPath := path, indices := rows);
    }

    method OpenChildren(depth: nat, item: Item, index: nat, enter: bool) returns (childrenShown: bool)
      requires Fits(signals) && depth <= |signals.openPath|
      modifies this`signals
      ensures signals == ChildrenOpened(old(signals), depth, item, index, enter)
      ensures childrenShown == HasChildren(item)
    {
      SetIndex(depth, index);
      if !HasChildren(item) {
        CloseAfter(depth);
        return false;
      }
      if !(|signals.openPath| == depth + 1 && signals.openPath[depth] == item) {
        signals := signals.(openPath := signals.openPath[..depth] + [item],
                            indices := signals.indices[..depth + 1] + [FirstEnabled(item.children)]);
      }
      if enter {
        signals := signals.(activeDepth := depth + 1);
      }
      return true;
    }

    method InvokeOrOpen(depth: nat, item: Item, index: nat)
      requires Fits(signals) && depth <= |signals.openPath|
      modifies this
      ensures View() == InvokedOrOpened(old(View()), depth, item, index)
    {
      var shown := OpenChildren(depth, item, index, true);
      if !shown && Invokable(item) {
        invoked := invoked + [Invocation(signals.root, signals.openPath, item)];
      }
    }

    method OnMenuKeyDown(key: Key)
      requires Fits(signals)
      modifies this
      ensures View() == KeyPressed(old(View()), key)
    {
      var depth, index := KeyDepth(signals), KeyIndex(signals);
      var rows := Rows(signals, depth);
      match key
      case ArrowDown =>
        var to := MenuStep(rows, index, 1);
        SetIndex(depth, to);
      case ArrowUp =>
        var to := MenuStep(rows, index, -1);
        SetIndex(depth, to);
      case Home =>
        if EnabledRow(rows).Some? {
          SetIndex(depth, EnabledRow(rows).value);
        }
      case End =>
        EndFindsLast(rows);
        if LastEnabledRow(rows).Some? {
          SetIndex(depth, LastEnabledRow(rows).value);
        }
      case ArrowRight =>
        if index < |rows| {
          var _ := OpenChildren(depth, rows[index], index, true);
        }
      case ArrowLeft =>
        if depth > 0 {
          CloseAfter(depth - 1);
          signals := signals.(activeDepth := depth - 1);
        }
      case Enter =>
        if index < |rows| {
          InvokeOrOpen(depth, rows[index], index);
        }
      case OtherKey =>
    }

    method OnMouseEnter(depth: nat, index: nat)
      requires Fits(signals) && Shown(signals, depth, index)
      modifies this
      ensures View() == Step(old(View()), MouseEnter(depth, index))
    {
      var item := Rows(signals, depth)[index];
      signals := signals.(activeDepth := depth);
      var _ := OpenChildren(depth, item, index, false);
    }

    /** The effect that follows the open path through replaced root rows. */
    method ReplaceRoot(root: seq<Item>)
      requires Fits(signals)
      modifies this
      ensures View() == Step(old(View()), RootReplaced(root))
    {
      var next := FollowPath(root, signals.openPath);
      signals := signals.(root := root, openPath := next);
    }

    /** Every event is one step of the protocol and keeps what is true of every reachable state. */
    method Handle(e: Event)
      requires Fits(signals) && Inv(View())
      requires e.MouseEnter? || e.MouseDown? ==> Shown(signals, e.depth, e.index)
      modifies this
      ensures View() == Step(old(View()), e) && Fits(signals) && Inv(View())
    {
      StepKeepsInv(View(), e);
      match e
      case KeyDown(key) => OnMenuKeyDown(key);
      case MouseEnter(depth, index) => OnMouseEnter(depth, index);
      case MouseDown(depth, index) => InvokeOrOpen(depth, Rows(signals, depth)[index], index);
      case RootReplaced(root) => ReplaceRoot(root);
    }
  }

  lemma {:induction false} KeptEndsHere(root: seq<Item>, path: seq<Item>, i: nat)
    requires i < |path| && |Kept(root, path[..i])| == i
    requires var found := FindById(Panel(root, Kept(root, path[..i])), path[i].id);
             found.None? || !HasChildren(found.value)
    ensures Kept(root, path) == Kept(root, path[..i])
  {
    KeptStep(root, path, i);
    KeptStops(root, path, i + 1);
  }

  /** Once an id does not resolve, later ones are not looked at. */
  lemma {:induction false} KeptStops(root: seq<Item>, path: seq<Item>, n: nat)
    requires n <= |path| && |Kept(root, path[..n])| < n
    ensures Kept(root, path) == Kept(root, path[..n])
    decreases |path|
  {
    if n < |path| {
      var init := path[..|path| - 1];
      assert init[..n] == path[..n];
      KeptStops(root, init, n);
    } else {
      assert path[..n] == path;
    }
  }
}
