/**
 * Reordering one group's tabs inside the global tab list (`applySubsetOrder`,
 * packages/app/src/App.tsx): members take the order they are given, every other tab stays.
 */
module SubsetOrder {
  import opened Prelude

  datatype Tab = Tab(id: Id, content: int)

  function Ids(tabs: seq<Tab>): (ids: seq<Id>)
    ensures |ids| == |tabs| && forall i :: 0 <= i < |tabs| ==> ids[i] == tabs[i].id
  {
    seq(|tabs|, i requires 0 <= i < |tabs| => tabs[i].id)
  }

  ghost predicate UniqueIds(tabs: seq<Tab>) {
    NoDuplicates(Ids(tabs))
  }

  /** The last tab with an id, as the map built from the list holds it. */
  function ById(all: seq<Tab>, id: Id): (t: Tab)
    requires id in Ids(all)
    ensures t in all && t.id == id
  {
    var last := all[|all| - 1];
    if last.id == id then last else
    assert all == all[..|all| - 1] + [last];
    ById(all[..|all| - 1], id)
  }

  /** The given order without the ids that no tab has. */
  function Queue(all: seq<Tab>, subset: seq<Id>): (q: seq<Id>)
    ensures forall id :: id in q <==> id in subset && id in Ids(all)
  {
    if subset == [] then [] else
    var before, last := Queue(all, subset[..|subset| - 1]), subset[|subset| - 1];
    if last in Ids(all) then before + [last] else before
  }

  /** The members of the group among some tabs, in place order, and the rest. */
  function Members(tabs: seq<Tab>, subset: seq<Id>): seq<Tab> {
    if tabs == [] then [] else
    var before, last := Members(tabs[..|tabs| - 1], subset), tabs[|tabs| - 1];
    if last.id in subset then before + [last] else before
  }

  function Others(tabs: seq<Tab>, subset: seq<Id>): seq<Tab> {
    if tabs == [] then [] else
    var before, last := Others(tabs[..|tabs| - 1], subset), tabs[|tabs| - 1];
    if last.id !in subset then before + [last] else before
  }

  /** How many members lie before position `i`: the value of the moving counter there. */
  function Rank(all: seq<Tab>, subset: seq<Id>, i: nat): nat
    requires i <= |all|
  {
    |Members(all[..i], subset)|
  }

  // ---- The counter never runs past the queue ----

  lemma {:induction false} ElementsCount<T>(s: seq<T>)
    ensures |Elements(s)| <= |s|
    ensures |Elements(s)| == |s| <==> NoDuplicates(s)
  {
    if s != [] {
      var init, last := s[..|s| - 1], s[|s| - 1];
      ElementsCount(init);
      assert s == init + [last];
      assert Elements(s) == Elements(init) + {last};
      if NoDuplicates(init) && last in init {
        var k :| 0 <= k < |init| && init[k] == last;
        assert s[k] == s[|s| - 1];
      }
    }
  }

  lemma SubsetOfSameSize<T>(a: set<T>, b: set<T>)
    requires a <= b && |b| <= |a|
    ensures a == b
  {
    assert |b - a| == |b| - |a|;
  }

  /** Members keep the list's order and are exactly the tabs whose id is in the subset. */
  lemma {:induction false} MembersAre(tabs: seq<Tab>, subset: seq<Id>)
    ensures forall t :: t in Members(tabs, subset) <==> t in tabs && t.id in subset
    ensures UniqueIds(tabs) ==> UniqueIds(Members(tabs, subset))
  {
    if tabs != [] {
      var init, last := tabs[..|tabs| - 1], tabs[|tabs| - 1];
      MembersAre(init, subset);
      assert tabs == init + [last];
      if UniqueIds(tabs) {
        UniquePrefix(tabs, |tabs| - 1);
        forall i | 0 <= i < |Members(init, subset)|
          ensures Members(init, subset)[i].id != last.id
        {
          assert Members(init, subset)[i] in init;
          var k :| 0 <= k < |init| && init[k] == Members(init, subset)[i];
          assert Ids(tabs)[k] != Ids(tabs)[|tabs| - 1];
        }
      }
    }
  }

  lemma UniquePrefix(tabs: seq<Tab>, n: nat)
    requires UniqueIds(tabs) && n <= |tabs|
    ensures UniqueIds(tabs[..n])
  {
    forall i, j | 0 <= i < j < n
      ensures Ids(tabs[..n])[i] != Ids(tabs[..n])[j]
    {
      assert Ids(tabs)[i] != Ids(tabs)[j];
    }
  }

  lemma TabHasId(tabs: seq<Tab>, t: Tab)
    requires t in tabs
    ensures t.id in Ids(tabs)
  {
    var k :| 0 <= k < |tabs| && tabs[k] == t;
    assert Ids(tabs)[k] == t.id;
  }

  lemma {:induction false} MemberIffQueued(all: seq<Tab>, subset: seq<Id>, id: Id)
    ensures id in Ids(Members(all, subset)) <==> id in Queue(all, subset)
  {
    MembersAre(all, subset);
    var members := Members(all, subset);
    if id in Ids(members) {
      var k :| 0 <= k < |members| && Ids(members)[k] == id;
      assert members[k] in members;
      TabHasId(all, members[k]);
    }
    if id in Queue(all, subset) {
      TabHasId(members, ById(all, id));
    }
  }

  lemma {:induction false} MembersInQueue(all: seq<Tab>, subset: seq<Id>)
    requires UniqueIds(all)
    ensures Elements(Ids(Members(all, subset))) == Elements(Queue(all, subset))
    ensures |Members(all, subset)| <= |Queue(all, subset)|
    ensures |Members(all, subset)| == |Elements(Queue(all, subset))|
  {
    MembersAre(all, subset);
    forall id
      ensures id in Ids(Members(all, subset)) <==> id in Queue(all, subset)
    {
      MemberIffQueued(all, subset, id);
    }
    ElementsCount(Ids(Members(all, subset)));
    ElementsCount(Queue(all, subset));
  }

  lemma {:induction false} RankGrows(all: seq<Tab>, subset: seq<Id>, i: nat)
    requires i < |all|
    ensures Rank(all, subset, i + 1) == Rank(all, subset, i) + if all[i].id in subset then 1 else 0
    ensures Members(all[..i + 1], subset) == Members(all[..i], subset) + if all[i].id in subset then [all[i]] else []
    ensures Others(all[..i + 1], subset) == Others(all[..i], subset) + if all[i].id !in subset then [all[i]] else []
  {
    assert all[..i + 1][..i] == all[..i];
  }

  lemma {:induction false} RankBound(all: seq<Tab>, subset: seq<Id>, i: nat)
    requires UniqueIds(all) && i <= |all|
    ensures Rank(all, subset, i) <= Rank(all, subset, |all|) <= |Queue(all, subset)|
    decreases |all| - i
  {
    if i < |all| {
      RankGrows(all, subset, i);
      RankBound(all, subset, i + 1);
    } else {
      assert all[..i] == all;
      MembersInQueue(all, subset);
    }
  }

  // ---- The reordered list ----

  /** What stands at position `i` of the result. */
  function At(all: seq<Tab>, subset: seq<Id>, i: nat): Tab
    requires UniqueIds(all) && i < |all|
  {
    RankBound(all, subset, i + 1);
    RankGrows(all, subset, i);
    if all[i].id in subset then ById(all, Queue(all, subset)[Rank(all, subset, i)]) else all[i]
  }

  function Reordered(all: seq<Tab>, subset: seq<Id>): (r: seq<Tab>)
    requires UniqueIds(all)
    ensures |r| == |all| && forall i :: 0 <= i < |all| ==> r[i] == At(all, subset, i)
  {
    seq(|all|, i requires 0 <= i < |all| => At(all, subset, i))
  }

  /** One pass over the list with a moving counter into the queue. */
  method ApplySubsetOrder(all: seq<Tab>, subset: seq<Id>) returns (result: seq<Tab>)
    requires UniqueIds(all)
    ensures result == Reordered(all, subset)
  {
    var queue := Queue(all, subset);
    var next := 0;
    result := [];
    for i := 0 to |all|
      invariant next == Rank(all, subset, i)
      invariant |result| == i && forall k :: 0 <= k < i ==> result[k] == At(all, subset, k)
    {
      RankGrows(all, subset, i);
      RankBound(all, subset, i + 1);
      if all[i].id in subset {
        result := result + [ById(all, queue[next])];
        next := next + 1;
      } else {
        result := result + [all[i]];
      }
    }
  }

  /** The tabs that the first `n` queued ids name. */
  function Named(all: seq<Tab>, ids: seq<Id>): (tabs: seq<Tab>)
    requires forall id :: id in ids ==> id in Ids(all)
    ensures |tabs| == |ids| && forall i :: 0 <= i < |ids| ==> tabs[i] == ById(all, ids[i])
  {
    seq(|ids|, i requires 0 <= i < |ids| => assert ids[i] in ids; ById(all, ids[i]))
  }

  /** The part of the queue that is used: as many ids as there are members. */
  function Used(all: seq<Tab>, subset: seq<Id>): (ids: seq<Id>)
    requires UniqueIds(all)
    ensures |ids| == |Members(all, subset)|
    ensures forall id :: id in ids ==> id in subset && id in Ids(all)
  {
    MembersInQueue(all, subset);
    Queue(all, subset)[..|Members(all, subset)|]
  }

  lemma {:induction false} NamedNext(all: seq<Tab>, ids: seq<Id>, n: nat)
    requires n < |ids| && forall x :: x in ids ==> x in Ids(all)
    ensures ids[n] in Ids(all) && forall x :: x in ids[..n + 1] ==> x in Ids(all)
    ensures Named(all, ids[..n + 1]) == Named(all, ids[..n]) + [ById(all, ids[n])]
  {
    assert ids[..n + 1] == ids[..n] + [ids[n]];
    assert forall x :: x in ids[..n + 1] ==> x in ids;
  }

  lemma {:induction false} MemberTakesNext(all: seq<Tab>, subset: seq<Id>, i: nat)
    requires UniqueIds(all) && i < |all| && all[i].id in subset
    ensures var n := Rank(all, subset, i);
            && n < |Used(all, subset)| && Used(all, subset)[n] in Ids(all)
            && At(all, subset, i) == ById(all, Used(all, subset)[n])
            && Used(all, subset)[n] in subset
  {
    RankGrows(all, subset, i);
    RankBound(all, subset, i + 1);
    assert all[..|all|] == all;
    assert Used(all, subset)[Rank(all, subset, i)] in Used(all, subset);
  }

  /** Other tabs stay where they are. */
  lemma {:induction false} OthersStay(all: seq<Tab>, subset: seq<Id>, i: nat)
    requires UniqueIds(all) && i <= |all|
    ensures Others(Reordered(all, subset)[..i], subset) == Others(all[..i], subset)
  {
    if i > 0 {
      OthersStay(all, subset, i - 1);
      RankGrows(all, subset, i - 1);
      RankGrows(Reordered(all, subset), subset, i - 1);
      if all[i - 1].id in subset {
        MemberTakesNext(all, subset, i - 1);
      }
    }
  }

  /** Members appear in the queue's order. */
  lemma {:induction false} MembersFollowQueue(all: seq<Tab>, subset: seq<Id>, i: nat)
    requires UniqueIds(all) && i <= |all|
    ensures Rank(all, subset, i) <= |Used(all, subset)|
    ensures Members(Reordered(all, subset)[..i], subset) == Named(all, Used(all, subset)[..Rank(all, subset, i)])
  {
    if i > 0 {
      MembersFollowQueue(all, subset, i - 1);
      RankGrows(all, subset, i - 1);
      RankGrows(Reordered(all, subset), subset, i - 1);
      if all[i - 1].id in subset {
        MemberTakesNext(all, subset, i - 1);
        NamedNext(all, Used(all, subset), Rank(all, subset, i - 1));
      }
    }
  }

  /** The result's members are what the used ids name, in that order; its other tabs are the list's. */
  lemma {:induction false} ResultParts(all: seq<Tab>, subset: seq<Id>)
    requires UniqueIds(all)
    ensures Members(Reordered(all, subset), subset) == Named(all, Used(all, subset))
    ensures Others(Reordered(all, subset), subset) == Others(all, subset)
  {
    var r, n := Reordered(all, subset), |all|;
    OthersStay(all, subset, n);
    MembersFollowQueue(all, subset, n);
    assert r[..n] == r && all[..n] == all;
    var used := Used(all, subset);
    assert used[..|used|] == used;
  }

  lemma {:induction false} PartsMakeWhole(tabs: seq<Tab>, subset: seq<Id>)
    ensures multiset(tabs) == multiset(Members(tabs, subset)) + multiset(Others(tabs, subset))
  {
    if tabs != [] {
      var init, last := tabs[..|tabs| - 1], tabs[|tabs| - 1];
      PartsMakeWhole(init, subset);
      assert tabs == init + [last];
    }
  }

  lemma NamedDistinct(all: seq<Tab>, ids: seq<Id>)
    requires NoDuplicates(ids) && forall x :: x in ids ==> x in Ids(all)
    ensures NoDuplicates(Named(all, ids))
  {
    forall i, j | 0 <= i < j < |ids|
      ensures Named(all, ids)[i] != Named(all, ids)[j]
    {
      assert ids[i] in ids && ids[j] in ids;
    }
  }

  /** Distinct used ids name exactly the members, each once. */
  lemma {:induction false} UsedNamesMembers(all: seq<Tab>, subset: seq<Id>)
    requires UniqueIds(all) && NoDuplicates(Used(all, subset))
    ensures multiset(Named(all, Used(all, subset))) == multiset(Members(all, subset))
  {
    var members, used := Members(all, subset), Used(all, subset);
    var named := Named(all, used);
    MembersAre(all, subset);
    MembersInQueue(all, subset);
    ElementsCount(used);
    ElementsCount(Ids(members));
    assert Elements(used) <= Elements(Queue(all, subset));
    SubsetOfSameSize(Elements(used), Elements(Queue(all, subset)));
    NamedDistinct(all, used);
    NoDuplicateMembers(all, subset);
    forall t
      ensures multiset(named)[t] == multiset(members)[t]
    {
      NamedIff(all, subset, t);
      NoDuplicatesMultiplicity(named, t);
      NoDuplicatesMultiplicity(members, t);
    }
  }

  lemma {:induction false} NoDuplicateMembers(all: seq<Tab>, subset: seq<Id>)
    requires UniqueIds(all)
    ensures NoDuplicates(Members(all, subset))
  {
    MembersAre(all, subset);
    var members := Members(all, subset);
    assert forall i :: 0 <= i < |members| ==> Ids(members)[i] == members[i].id;
  }

  lemma UniqueTab(all: seq<Tab>, s: Tab, t: Tab)
    requires UniqueIds(all) && s in all && t in all && s.id == t.id
    ensures s == t
  {
    var i :| 0 <= i < |all| && all[i] == s;
    var j :| 0 <= j < |all| && all[j] == t;
    assert Ids(all)[i] == Ids(all)[j];
  }

  lemma {:induction false} NamedIff(all: seq<Tab>, subset: seq<Id>, t: Tab)
    requires UniqueIds(all) && Elements(Used(all, subset)) == Elements(Queue(all, subset))
    ensures t in Named(all, Used(all, subset)) <==> t in Members(all, subset)
  {
    var used := Used(all, subset);
    var named := Named(all, used);
    MembersAre(all, subset);
    if t in named {
      var k :| 0 <= k < |named| && named[k] == t;
      assert used[k] in used;
    }
    if t in Members(all, subset) {
      var m :| 0 <= m < |all| && all[m] == t;
      assert Ids(all)[m] == t.id;
      assert t.id in Elements(Queue(all, subset));
      var k :| 0 <= k < |used| && used[k] == t.id;
      UniqueTab(all, t, named[k]);
    }
  }

  // ---- Main results ----

  /**
   * The result is a rearrangement of the list exactly when the ids that are used are distinct;
   * a repeated id shows one tab twice and loses another.
   */
  lemma PermutationIff(all: seq<Tab>, subset: seq<Id>)
    requires UniqueIds(all)
    ensures multiset(Reordered(all, subset)) == multiset(all) <==> NoDuplicates(Used(all, subset))
  {
    var r := Reordered(all, subset);
    ResultParts(all, subset);
    PartsMakeWhole(r, subset);
    PartsMakeWhole(all, subset);
    if NoDuplicates(Used(all, subset)) {
      UsedNamesMembers(all, subset);
    }
    if multiset(r) == multiset(all) {
      Cancel(multiset(Named(all, Used(all, subset))), multiset(Members(all, subset)), multiset(Others(all, subset)));
      NoDuplicateMembers(all, subset);
      UsedDistinct(all, subset);
    }
  }

  lemma {:induction false} KnownIdsStay(all: seq<Tab>, subset: seq<Id>)
    requires forall id :: id in subset ==> id in Ids(all)
    ensures Queue(all, subset) == subset
  {
    if subset != [] {
      var init, last := subset[..|subset| - 1], subset[|subset| - 1];
      assert subset == init + [last] && last in subset;
      KnownIdsStay(all, init);
    }
  }

  lemma RepeatedQueue(a: Tab, b: Tab)
    requires a.id != b.id
    ensures UniqueIds([a, b]) && Queue([a, b], [a.id, a.id, b.id]) == [a.id, a.id, b.id]
    ensures ById([a, b], a.id) == a
  {
    assert Ids([a, b]) == [a.id, b.id];
    KnownIdsStay([a, b], [a.id, a.id, b.id]);
    assert [a, b][..1] == [a];
  }

  lemma RepeatedRanks(a: Tab, b: Tab)
    requires a.id != b.id
    ensures Rank([a, b], [a.id, a.id, b.id], 0) == 0 && Rank([a, b], [a.id, a.id, b.id], 1) == 1
  {
    assert [a, b][..1] == [a] && [a, b][..0] == [] && [a][..0] == [];
    assert Members([a][..0], [a.id, a.id, b.id]) == [];
  }

  /** Tabs a and b, asked for in the order a, a, b: a is shown twice and b is gone. */
  lemma RepeatedIdLosesATab(a: Tab, b: Tab)
    requires a.id != b.id
    ensures UniqueIds([a, b])
    ensures Reordered([a, b], [a.id, a.id, b.id]) == [a, a]
    ensures multiset(Reordered([a, b], [a.id, a.id, b.id])) != multiset([a, b])
  {
    RepeatedQueue(a, b);
    RepeatedRanks(a, b);
    assert At([a, b], [a.id, a.id, b.id], 0) == a && At([a, b], [a.id, a.id, b.id], 1) == a;
    assert multiset([a, a])[b] == 0 && multiset([a, b])[b] == 1;
  }

  // ---- The order that dragging a tab asks for ----

  function Without(order: seq<Id>, id: Id): (r: seq<Id>)
    ensures id !in r
  {
    if order == [] then [] else
    if order[|order| - 1] == id then Without(order[..|order| - 1], id)
    else Without(order[..|order| - 1], id) + [order[|order| - 1]]
  }

  /** How many tabs have their centre at or left of the pointer; a tab without one does not count. */
  function Crossed(order: seq<Id>, centers: map<Id, real>, x: real): (n: nat)
    ensures n <= |order|
  {
    if order == [] then 0 else
    var last := order[|order| - 1];
    Crossed(order[..|order| - 1], centers, x) + if last in centers && x >= centers[last] then 1 else 0
  }

  function OrderAtPointer(order: seq<Id>, dragged: Id, centers: map<Id, real>, x: real): seq<Id> {
    if dragged !in order then order else
    var remaining := Without(order, dragged);
    var target := Crossed(remaining, centers, x);
    remaining[..target] + [dragged] + remaining[target..]
  }

  lemma {:induction false} WithoutHolds(order: seq<Id>, id: Id)
    requires NoDuplicates(order)
    ensures NoDuplicates(Without(order, id))
    ensures forall k :: k in Without(order, id) <==> k in order && k != id
    ensures id in order ==> multiset(order) == multiset(Without(order, id)) + multiset{id}
    ensures id !in order ==> Without(order, id) == order
  {
    if order != [] {
      var init, last := order[..|order| - 1], order[|order| - 1];
      assert order == init + [last];
      WithoutHolds(init, id);
      assert last !in init;
    }
  }

  lemma {:induction false} WithoutApart(a: seq<Id>, b: seq<Id>, id: Id)
    ensures Without(a + b, id) == Without(a, id) + Without(b, id)
  {
    if b == [] {
      assert a + b == a;
    } else {
      assert (a + b)[..|a + b| - 1] == a + b[..|b| - 1];
      WithoutApart(a, b[..|b| - 1], id);
    }
  }

  /** The dragged tab lands among the others, which keep their order; no tab is added or lost. */
  lemma {:induction false} DraggingMovesOneTab(order: seq<Id>, dragged: Id, centers: map<Id, real>, x: real)
    requires NoDuplicates(order)
    ensures var r := OrderAtPointer(order, dragged, centers, x);
            NoDuplicates(r) && multiset(r) == multiset(order) && Without(r, dragged) == Without(order, dragged)
  {
    WithoutHolds(order, dragged);
    if dragged in order {
      var remaining := Without(order, dragged);
      var target := Crossed(remaining, centers, x);
      assert remaining == remaining[..target] + remaining[target..];
      Spliced(remaining[..target], dragged, remaining[target..]);
    }
  }

  lemma {:induction false} Spliced(front: seq<Id>, id: Id, back: seq<Id>)
    requires NoDuplicates(front + back) && id !in front && id !in back
    ensures NoDuplicates(front + [id] + back)
    ensures multiset(front + [id] + back) == multiset(front + back) + multiset{id}
    ensures Without(front + [id] + back, id) == front + back
  {
    var whole := front + [id] + back;
    SplicedOnce(front, id, back);
    WithoutApart(front + [id], back, id);
    WithoutApart(front, [id], id);
    assert Without([id], id) == Without([id][..0], id) == [];
    WithoutNone(front, id);
    WithoutNone(back, id);
  }

  lemma SplicedOnce(front: seq<Id>, id: Id, back: seq<Id>)
    requires NoDuplicates(front + back) && id !in front && id !in back
    ensures NoDuplicates(front + [id] + back)
  {
    var rest, whole := front + back, front + [id] + back;
    forall i, j | 0 <= i < j < |whole|
      ensures whole[i] != whole[j]
    {
      assert i < |front| ==> whole[i] == rest[i] && rest[i] in front;
      assert i > |front| ==> whole[i] == rest[i - 1];
      assert j < |front| ==> whole[j] == rest[j];
      assert j > |front| ==> whole[j] == rest[j - 1] && rest[j - 1] in back;
    }
  }

  lemma {:induction false} WithoutNone(order: seq<Id>, id: Id)
    requires id !in order
    ensures Without(order, id) == order
  {
    if order != [] {
      WithoutNone(order[..|order| - 1], id);
    }
  }

  /** The tabs of a strip stand from left to right. */
  ghost predicate FromTheLeft(order: seq<Id>, centers: map<Id, real>) {
    && (forall i :: 0 <= i < |order| ==> order[i] in centers)
    && (forall i, j :: 0 <= i < j < |order| ==> centers[order[i]] < centers[order[j]])
  }

  lemma {:induction false} CrossedComeFirst(order: seq<Id>, centers: map<Id, real>, x: real)
    requires FromTheLeft(order, centers)
    ensures forall i :: 0 <= i < |order| ==> (i < Crossed(order, centers, x) <==> centers[order[i]] <= x)
  {
    if order != [] {
      CrossedComeFirst(order[..|order| - 1], centers, x);
    }
  }

  lemma {:induction false} WithoutStaysFromTheLeft(order: seq<Id>, id: Id, centers: map<Id, real>)
    requires FromTheLeft(order, centers)
    ensures FromTheLeft(Without(order, id), centers)
    ensures forall k :: k in Without(order, id) ==> k in order
  {
    if order != [] {
      var init, last := order[..|order| - 1], order[|order| - 1];
      WithoutStaysFromTheLeft(init, id, centers);
      var rest := Without(init, id);
      forall i | 0 <= i < |rest| && last != id
        ensures centers[rest[i]] < centers[last]
      {
        assert rest[i] in init;
        var k :| 0 <= k < |init| && init[k] == rest[i];
        assert centers[order[k]] < centers[order[|order| - 1]];
      }
    }
  }

  /** In a strip the dragged tab lands right of exactly the tabs whose centre the pointer has reached. */
  lemma DraggedLandsAtThePointer(order: seq<Id>, dragged: Id, centers: map<Id, real>, x: real)
    returns (place: nat)
    requires dragged in order && FromTheLeft(order, centers)
    ensures var r := OrderAtPointer(order, dragged, centers, x);
            && place < |r| && r[place] == dragged
            && (forall i :: 0 <= i < place ==> r[i] in centers && centers[r[i]] <= x)
            && (forall i :: place < i < |r| ==> r[i] in centers && x < centers[r[i]])
  {
    var rest := Without(order, dragged);
    WithoutStaysFromTheLeft(order, dragged, centers);
    CrossedComeFirst(rest, centers, x);
    place := Crossed(rest, centers, x);
    var r := OrderAtPointer(order, dragged, centers, x);
    assert forall i :: 0 <= i < place ==> r[i] == rest[i];
    assert forall i :: place < i < |r| ==> r[i] == rest[i - 1];
  }

  /** So wherever a tab is dropped in its own strip, the list of all tabs is only rearranged. */
  lemma DraggingLosesNoTab(all: seq<Tab>, order: seq<Id>, dragged: Id, centers: map<Id, real>, x: real)
    requires UniqueIds(all) && NoDuplicates(order)
    ensures multiset(Reordered(all, OrderAtPointer(order, dragged, centers, x))) == multiset(all)
  {
    DraggingMovesOneTab(order, dragged, centers, x);
    GroupTakesGivenOrder(all, OrderAtPointer(order, dragged, centers, x));
  }

  lemma Cancel<T>(a: multiset<T>, b: multiset<T>, c: multiset<T>)
    requires a + c == b + c
    ensures a == b
  {
    assert (a + c) - c == a && (b + c) - c == b;
  }

  lemma {:induction false} UsedDistinct(all: seq<Tab>, subset: seq<Id>)
    requires UniqueIds(all) && multiset(Named(all, Used(all, subset))) == multiset(Members(all, subset))
    requires NoDuplicates(Members(all, subset))
    ensures NoDuplicates(Used(all, subset))
  {
    var used := Used(all, subset);
    var named := Named(all, used);
    forall i, j | 0 <= i < j < |used|
      ensures used[i] != used[j]
    {
      if used[i] == used[j] {
        assert named == named[..j] + [named[j]] + named[j + 1..];
        assert named[i] in named[..j] && named[i] == named[j];
        assert multiset(named)[named[j]] >= 2;
        NoDuplicatesMultiplicity(Members(all, subset), named[j]);
      }
    }
  }

  lemma {:induction false} QueueDistinct(all: seq<Tab>, subset: seq<Id>)
    requires NoDuplicates(subset)
    ensures NoDuplicates(Queue(all, subset))
  {
    if subset != [] {
      var init := subset[..|subset| - 1];
      QueueDistinct(all, init);
      assert subset[|subset| - 1] !in init;
      assert forall id :: id in Queue(all, init) ==> id in init;
    }
  }

  /**
   * For a duplicate-free order: a rearrangement, in which every tab outside the group keeps its
   * position and the group's tabs appear in the given order.
   */
  lemma {:induction false} GroupTakesGivenOrder(all: seq<Tab>, subset: seq<Id>)
    requires UniqueIds(all) && NoDuplicates(subset)
    ensures var r := Reordered(all, subset);
            && multiset(r) == multiset(all)
            && (forall i :: 0 <= i < |all| && all[i].id !in subset ==> r[i] == all[i])
            && Ids(Members(r, subset)) == Queue(all, subset)
  {
    QueueDistinct(all, subset);
    var queue := Queue(all, subset);
    MembersInQueue(all, subset);
    ElementsCount(queue);
    assert Used(all, subset) == queue;
    PermutationIff(all, subset);
    ResultParts(all, subset);
  }

  /** Asking for the order the group already has changes nothing, and nothing else changes nothing. */
  lemma {:induction false} UnchangedIff(all: seq<Tab>, subset: seq<Id>)
    requires UniqueIds(all)
    ensures Reordered(all, subset) == all <==> Used(all, subset) == Ids(Members(all, subset))
  {
    ResultParts(all, subset);
    var r, used, members := Reordered(all, subset), Used(all, subset), Members(all, subset);
    if r == all {
      assert Ids(Named(all, used)) == used;
    }
    if used == Ids(members) {
      forall i | 0 <= i < |all|
        ensures r[i] == all[i]
      {
        if all[i].id in subset {
          MemberTakesNext(all, subset, i);
          MemberAtRank(all, subset, i);
          UniqueTab(all, r[i], all[i]);
        }
      }
    }
  }

  lemma {:induction false} MembersPrefix(all: seq<Tab>, subset: seq<Id>, i: nat)
    requires i <= |all|
    ensures Members(all[..i], subset) <= Members(all, subset)
    decreases |all| - i
  {
    if i < |all| {
      RankGrows(all, subset, i);
      MembersPrefix(all, subset, i + 1);
    } else {
      assert all[..i] == all;
    }
  }

  lemma {:induction false} MemberAtRank(all: seq<Tab>, subset: seq<Id>, i: nat)
    requires i < |all| && all[i].id in subset
    ensures Rank(all, subset, i) < |Members(all, subset)| && Members(all, subset)[Rank(all, subset, i)] == all[i]
  {
    RankGrows(all, subset, i);
    MembersPrefix(all, subset, i + 1);
  }

  /** Of two orders for the same group, the one asked for last wins. */
  lemma LastOrderWins(all: seq<Tab>, first: seq<Id>, second: seq<Id>)
    requires UniqueIds(all) && NoDuplicates(first) && NoDuplicates(second)
    requires forall id :: id in first <==> id in second
    ensures UniqueIds(Reordered(all, first))
    ensures Reordered(Reordered(all, first), second) == Reordered(all, second)
  {
    var once := Reordered(all, first);
    GroupTakesGivenOrder(all, first);
    PermutedUnique(all, once);
    SameQueue(all, once, second);
    forall i | 0 <= i < |all|
      ensures At(once, second, i) == At(all, second, i)
    {
      SameAt(all, first, second, i);
    }
  }

  lemma PermutedUnique(all: seq<Tab>, r: seq<Tab>)
    requires UniqueIds(all) && multiset(r) == multiset(all)
    ensures UniqueIds(r)
  {
    forall i, j | 0 <= i < j < |r|
      ensures r[i].id != r[j].id
    {
      if r[i].id == r[j].id {
        assert r[i] in multiset(r) && r[j] in multiset(r);
        UniqueTab(all, r[i], r[j]);
        assert r == r[..j] + [r[j]] + r[j + 1..];
        assert r[i] in r[..j];
        assert multiset(r)[r[j]] >= 2;
        assert forall a, b :: 0 <= a < b < |all| ==> Ids(all)[a] != Ids(all)[b] ;
        assert NoDuplicates(all);
        NoDuplicatesMultiplicity(all, r[j]);
      }
    }
  }

  lemma SameIds(all: seq<Tab>, r: seq<Tab>, id: Id)
    requires multiset(r) == multiset(all)
    ensures id in Ids(r) <==> id in Ids(all)
  {
    if id in Ids(r) {
      var k :| 0 <= k < |r| && Ids(r)[k] == id;
      assert r[k] in multiset(r);
      var m :| 0 <= m < |all| && all[m] == r[k];
      assert Ids(all)[m] == id;
    }
    if id in Ids(all) {
      var k :| 0 <= k < |all| && Ids(all)[k] == id;
      assert all[k] in multiset(all);
      var m :| 0 <= m < |r| && r[m] == all[k];
      assert Ids(r)[m] == id;
    }
  }

  lemma {:induction false} SameQueue(all: seq<Tab>, r: seq<Tab>, subset: seq<Id>)
    requires multiset(r) == multiset(all)
    ensures Queue(r, subset) == Queue(all, subset)
  {
    if subset != [] {
      SameQueue(all, r, subset[..|subset| - 1]);
      SameIds(all, r, subset[|subset| - 1]);
    }
  }

  /** Reordering moves members among members' places only, so ranks stay. */
  lemma {:induction false} SameRank(all: seq<Tab>, first: seq<Id>, second: seq<Id>, i: nat)
    requires UniqueIds(all) && i <= |all|
    requires forall id :: id in first <==> id in second
    ensures Rank(Reordered(all, first), second, i) == Rank(all, second, i)
  {
    if i > 0 {
      SameRank(all, first, second, i - 1);
      RankGrows(all, second, i - 1);
      RankGrows(Reordered(all, first), second, i - 1);
      if all[i - 1].id in first {
        MemberTakesNext(all, first, i - 1);
      }
    }
  }

  lemma {:induction false} SameAt(all: seq<Tab>, first: seq<Id>, second: seq<Id>, i: nat)
    requires UniqueIds(all) && i < |all|
    requires forall id :: id in first <==> id in second
    requires multiset(Reordered(all, first)) == multiset(all) && UniqueIds(Reordered(all, first))
    requires Queue(Reordered(all, first), second) == Queue(all, second)
    ensures At(Reordered(all, first), second, i) == At(all, second, i)
  {
    SameRank(all, first, second, i);
    if all[i].id in first {
      MemberTakesNext(all, first, i);
      SameTaken(all, Reordered(all, first), second, i);
    }
  }

  lemma {:induction false} SameTaken(all: seq<Tab>, once: seq<Tab>, subset: seq<Id>, i: nat)
    requires UniqueIds(all) && UniqueIds(once) && multiset(once) == multiset(all)
    requires i < |all| && i < |once| && all[i].id in subset && once[i].id in subset
    requires Queue(once, subset) == Queue(all, subset) && Rank(once, subset, i) == Rank(all, subset, i)
    ensures At(once, subset, i) == At(all, subset, i)
  {
    MemberTakesNext(all, subset, i);
    MemberTakesNext(once, subset, i);
    SameById(all, once, Used(all, subset)[Rank(all, subset, i)]);
  }

  lemma {:induction false} SameById(all: seq<Tab>, once: seq<Tab>, id: Id)
    requires UniqueIds(all) && multiset(once) == multiset(all)
    requires id in Ids(all) && id in Ids(once)
    ensures ById(once, id) == ById(all, id)
  {
    assert ById(once, id) in multiset(once);
    UniqueTab(all, ById(once, id), ById(all, id));
  }
}
