/** Why acyclic manifests are not enough: an undeclared entity between two moved ones closes a circle half-way. */
module UndeclaredBetween {
  import opened Outcomes
  import opened Text
  import opened JsonValues
  import opened Manifests
  import opened RemoteStore
  import opened ParentForest
  import opened LevelOrder
  import opened EntityOrder
  import opened DeleteDepth
  import opened DeleteOrder
  import opened Planner
  import opened PlanShape
  import opened SnapshotFacts
  import opened Executor
  import opened SecondPlan
  import opened ApplyPlan
  import opened LiteralPlaceholder

  // "c" stands below "a" and the undeclared "x" below "c"; the manifest puts "a" below "x" and "c" at the top.

  function RowA(): Dict {
    map["id" := Str("1"), "slug" := Str("a")]
  }

  function RowC(): Dict {
    map["id" := Str("2"), "slug" := Str("c"), "parent_entity_id" := Str("1")]
  }

  function RowX(): Dict {
    map["id" := Str("3"), "slug" := Str("x"), "parent_entity_id" := Str("2")]
  }

  function Chain(): Remote {
    Remote(map[], map["1" := RowA(), "2" := RowC(), "3" := RowX()], map[], map[], map[])
  }

  function ItemA(): Dict {
    map["slug" := Str("a"), "state" := Str("present"), "parent" := Str("x")]
  }

  function ItemC(): Dict {
    map["slug" := Str("c"), "state" := Str("present"), "parent" := Null]
  }

  function Rearranged(): Manifest {
    Manifest([], [ItemA(), ItemC()], [], [])
  }

  function MoveA(): Operation {
    MakeOperation(Entities, "a", MoveAction, Post, MoveOf("1"), Some(map["new_parent_id" := Str("3")]), Some(RowA()))
  }

  function MoveC(): Operation {
    MakeOperation(Entities, "c", MoveAction, Post, MoveOf("2"), Some(map["new_parent_id" := Null]), Some(RowC()))
  }

  lemma Texts()
    ensures Fold("a") == "a" && Fold("c") == "c" && Fold("x") == "x"
  {
  }

  lemma ChainNames()
    ensures FoldedIdentity(Entities, RowA()) == Some("a")
    ensures FoldedIdentity(Entities, RowC()) == Some("c")
    ensures FoldedIdentity(Entities, RowX()) == Some("x")
  {
    Texts();
  }

  lemma ChainValid()
    ensures ValidRemote(Chain())
  {
    hide FoldedIdentity;
    ChainNames();
    assert ValidRow(Entities, "1", RowA()) && ValidRow(Entities, "2", RowC()) && ValidRow(Entities, "3", RowX());
  }

  lemma ChainRead() returns (c: Context)
    ensures ContextOf(Rearranged(), Chain(), c)
    ensures "a" in c.entities && c.entities["a"] == RowA()
    ensures "c" in c.entities && c.entities["c"] == RowC()
    ensures "x" in c.entities && c.entities["x"] == RowX()
  {
    hide FetchSnapshot, MakeContext, FoldedIdentity, RowA, RowC, RowX, ValidTable;
    ChainNames();
    ChainValid();
    SnapshotSucceedsIff(Chain(), Rearranged());
    c := MakeContext(Rearranged(), FetchSnapshot(Chain(), Rearranged()).value);
    ContextRows(Rearranged(), Chain(), c, Entities);
    assert "1" in Chain().entities && FoldedIdentity(Entities, Chain().entities["1"]) == Some("a");
    assert "2" in Chain().entities && FoldedIdentity(Entities, Chain().entities["2"]) == Some("c");
    assert "3" in Chain().entities && FoldedIdentity(Entities, Chain().entities["3"]) == Some("x");
  }

  lemma ItemNamesAre()
    ensures NameOf(Entities, ItemA()) == KeyOf(Entities, ItemA()) == "a" && Present(ItemA())
    ensures NameOf(Entities, ItemC()) == KeyOf(Entities, ItemC()) == "c" && Present(ItemC())
  {
    Texts();
  }

  lemma NothingManaged(row: Dict, item: Dict)
    requires item.Keys == {"slug", "state", "parent"}
    ensures ManagedDiff(row, item, ManagedFields(Entities)) == map[]
  {
    hide Canonical;
  }

  lemma PlansMove(c: Context, item: Dict, row: Dict, parent: Json)
    requires Present(item) && item.Keys == {"slug", "state", "parent"} && KeyOf(Entities, item) in c.entities
    requires c.entities[KeyOf(Entities, item)] == row && ParentValue(c, item) == Success(parent)
    requires Canonical(Get(row, "parent_entity_id")) != Canonical(parent)
    ensures PlanItem(Entities, c, item) == Success(Planned(
      [MakeOperation(Entities, NameOf(Entities, item), MoveAction, Post, MoveOf(PyStr(Get(row, "id"))),
                     Some(map["new_parent_id" := parent]), Some(row))], []))
  {
    hide Canonical, ManagedDiff, ManagedFields, ParentValue, Restrict, NameOf, RowDigest;
    NothingManaged(row, item);
    var moves := [MakeOperation(Entities, NameOf(Entities, item), MoveAction, Post, MoveOf(PyStr(Get(row, "id"))),
                                Some(map["new_parent_id" := parent]), Some(row))];
    assert UpdateOf(Entities, NameOf(Entities, item), row, map[]) + moves == moves;
    assert "parent" in item.Keys;
  }

  lemma MovesPlanned(c: Context)
    requires "a" in c.entities && c.entities["a"] == RowA() && "c" in c.entities && c.entities["c"] == RowC()
    requires "x" in c.entities && c.entities["x"] == RowX()
    ensures PlanItem(Entities, c, ItemA()) == Success(Planned([MoveA()], []))
    ensures PlanItem(Entities, c, ItemC()) == Success(Planned([MoveC()], []))
  {
    hide PlanItem, RowDigest, KeyOf, NameOf;
    Texts();
    ItemNamesAre();
    assert ParentValue(c, ItemA()) == Success(Str("3"));
    assert ParentValue(c, ItemC()) == Success(Null);
    PlansMove(c, ItemA(), RowA(), Str("3"));
    PlansMove(c, ItemC(), RowC(), Null);
  }

  lemma SortedTwo()
    ensures SortedKeys({"a", "c"}) == ["a", "c"]
  {
    var r := SortedKeys({"a", "c"});
    assert "a" in r && "c" in r;
    assert forall i | 0 <= i < |r| :: r[i] in r && r[i] in {"a", "c"};
    assert StrLe("a", "c") && !StrLe("c", "a");
    assert |r| == 2 && r[0] != r[1] && StrLe(r[0], r[1]);
  }

  lemma OrderOfTwo()
    ensures EntitySequence(Rearranged().entities) == Success([ItemA(), ItemC()])
  {
    hide ItemA, ItemC, PresentItems, AbsentItems, TopologicalOrder;
    TwoPresent();
    TwoOrdered();
    assert [ItemA(), ItemC()] + [] == [ItemA(), ItemC()];
  }

  lemma TwoOrdered()
    ensures TopologicalOrder([ItemA(), ItemC()]) == Some([ItemA(), ItemC()])
  {
    hide ItemA, ItemC, Pending, Levels, DeclaredParents;
    TwoPending();
    TwoLevels();
    assert Fetch(map["a" := ItemA(), "c" := ItemC()], ["a", "c"]) == [ItemA(), ItemC()];
  }

  lemma TwoPresent()
    ensures PresentItems([ItemA(), ItemC()]) == [ItemA(), ItemC()] && AbsentItems([ItemA(), ItemC()]) == []
  {
    var items := [ItemA(), ItemC()];
    assert items[..|items| - 1] == [ItemA()] && [ItemA()][..0] == [];
    assert PresentItems([ItemA()]) == [ItemA()] && AbsentItems([ItemA()]) == [];
  }

  lemma TwoPending()
    ensures Pending([ItemA(), ItemC()]) == map["a" := ItemA(), "c" := ItemC()]
  {
    var items := [ItemA(), ItemC()];
    Texts();
    assert items[..|items| - 1] == [ItemA()] && [ItemA()][..0] == [];
    assert Pending([ItemA()]) == map["a" := ItemA()];
  }

  lemma TwoLevels()
    ensures Levels(DeclaredParents(map["a" := ItemA(), "c" := ItemC()])) == Some(["a", "c"])
  {
    var pending := map["a" := ItemA(), "c" := ItemC()];
    Texts();
    assert ParentKey(ItemA()) == Some("x") && ParentKey(ItemC()) == None;
    var p: Parents := map["a" := None, "c" := None];
    assert DeclaredParents(pending) == p;
    assert Roots(p) == {"a", "c"};
    assert Prune(p) == map[];
    assert Levels(Prune(p)) == Some([]);
    SortedTwo();
    assert ["a", "c"] + [] == ["a", "c"];
  }

  lemma PlanOfMoves()
    ensures Plan(Rearranged(), Chain()) == Success([MoveA(), MoveC()])
  {
    hide FetchSnapshot, MakeContext, EntitySequence, PlanItem, ItemA, ItemC, MoveA, MoveC, Chain;
    var c := ChainRead();
    MovesPlanned(c);
    OrderOfTwo();
    OneItem(Entities, c, ItemA());
    var items := [ItemA(), ItemC()];
    assert items[..|items| - 1] == [ItemA()] && items[|items| - 1] == ItemC();
    assert [MoveA()] + [MoveC()] == [MoveA(), MoveC()];
    assert PlanItems(Entities, c, items) == Success(Planned([MoveA(), MoveC()], []));
    assert forall r: Resource :: PlanItems(r, c, []) == Success(NOTHING);
    var links := LinksOf(FetchSnapshot(Chain(), Rearranged()).value.entities);
    assert SortDeletes(links, []) == [];
    assert Assemble(NOTHING, Planned([MoveA(), MoveC()], []), NOTHING, NOTHING, links) == [MoveA(), MoveC()];
  }

  // ---- running it -----------------------------------------------------------------------------

  function HalfWay(): Remote {
    Chain().(entities := Chain().entities["1" := RowA()["parent_entity_id" := Str("3")]])
  }

  function AtEnd(): Remote {
    HalfWay().(entities := HalfWay().entities["2" := RowC()["parent_entity_id" := Null]])
  }

  lemma PlainBody(parent: Json, ids: Ids)
    requires parent.Null? || parent.Str?
    ensures ResolveBody(Some(map["new_parent_id" := parent]), ids) == Success(Some(map["new_parent_id" := parent]))
  {
    var d: Dict := map["new_parent_id" := parent];
    assert Resolve(d["new_parent_id"], ids) == Success(parent);
    assert Unresolvable(d, ids) == {};
    assert ResolveDict(d, ids).value == d;
  }

  lemma AfterOne(ids: Ids)
    ensures var s := RunTo(Ready(Chain(), ids), [MoveA(), MoveC()], AlwaysAccepted(), 1);
      s.failure == None && s.remote == HalfWay()
  {
    hide ResolveBody, RowDigest, Learn;
    PlainBody(Str("3"), ids);
    var start := Ready(Chain(), ids);
    assert RunTo(start, [MoveA(), MoveC()], AlwaysAccepted(), 0) == start;
  }

  lemma AfterTwo(ids: Ids)
    ensures var s := RunTo(Ready(Chain(), ids), [MoveA(), MoveC()], AlwaysAccepted(), 2);
      s.failure == None && s.remote == AtEnd()
  {
    hide ResolveBody, RowDigest, Learn, RowA, RowX;
    AfterOne(ids);
    var s := RunTo(Ready(Chain(), ids), [MoveA(), MoveC()], AlwaysAccepted(), 1);
    PlainBody(Null, s.ids);
  }

  lemma Links(one: Option<string>, two: Option<string>, p: Parents)
    requires p == map["1" := one, "2" := two, "3" := Some("2")]
    ensures one == None && two == Some("1") ==> !Cyclic(p)
    ensures one == Some("3") && two == Some("1") ==> Cyclic(p)
    ensures one == Some("3") && two == None ==> !Cyclic(p)
  {
    if one == None && two == Some("1") {
      assert HasDepth(p, "1", 0) && HasDepth(p, "2", 1) && HasDepth(p, "3", 2);
      ThreeRooted(p);
    }
    if one == Some("3") && two == Some("1") {
      assert Climb(p, "1", 0) == Some("1");
      assert Climb(p, "1", 1) == Parent(p, "1") == Some("3");
      assert Climb(p, "1", 2) == Parent(p, "3") == Some("2");
      assert Climb(p, "1", 3) == Parent(p, "2") == Some("1");
      assert OnCycle(p, "1", 3);
    }
    if one == Some("3") && two == None {
      assert HasDepth(p, "2", 0) && HasDepth(p, "3", 1) && HasDepth(p, "1", 2);
      ThreeRooted(p);
    }
  }

  lemma ThreeRooted(p: Parents)
    requires p.Keys == {"1", "2", "3"} && Rooted(p, "1") && Rooted(p, "2") && Rooted(p, "3")
    ensures !Cyclic(p)
  {
    forall k ensures Rooted(p, k) {
      if k !in p {
        assert HasDepth(p, k, 0);
      }
    }
    AcyclicIffRooted(p);
  }

  function After(ids: Ids, n: nat): RunState
    requires n <= 2
  {
    RunTo(Ready(Chain(), ids), [MoveA(), MoveC()], AlwaysAccepted(), n)
  }

  /** The store is a forest before the plan and after it, but not in between. */
  lemma CircleHalfWay(ids: Ids)
    ensures ValidRemote(Chain()) && Plan(Rearranged(), Chain()) == Success([MoveA(), MoveC()])
    ensures After(ids, 2).failure == None
    ensures !Cyclic(StoreLinks(After(ids, 0).remote.entities))
    ensures Cyclic(StoreLinks(After(ids, 1).remote.entities))
    ensures !Cyclic(StoreLinks(After(ids, 2).remote.entities))
  {
    hide Plan, ValidRemote, RunTo, Cyclic, StoreLinks, Chain, HalfWay, AtEnd, MoveA, MoveC;
    ChainValid();
    PlanOfMoves();
    StartOf(ids);
    AfterOne(ids);
    AfterTwo(ids);
    LinksAlong();
    Links(None, Some("1"), StoreLinks(Chain().entities));
    Links(Some("3"), Some("1"), StoreLinks(HalfWay().entities));
    Links(Some("3"), None, StoreLinks(AtEnd().entities));
  }

  lemma LinksOfThree(t: map<string, Dict>, one: Dict, two: Dict, three: Dict)
    requires t == map["1" := one, "2" := two, "3" := three]
    ensures StoreLinks(t) == map["1" := ParentText(one), "2" := ParentText(two), "3" := ParentText(three)]
  {
    hide ParentText;
  }

  lemma LinksAlong()
    ensures StoreLinks(Chain().entities) == map["1" := None, "2" := Some("1"), "3" := Some("2")]
    ensures StoreLinks(HalfWay().entities) == map["1" := Some("3"), "2" := Some("1"), "3" := Some("2")]
    ensures StoreLinks(AtEnd().entities) == map["1" := Some("3"), "2" := None, "3" := Some("2")]
  {
    hide StoreLinks;
    var low, free := RowA()["parent_entity_id" := Str("3")], RowC()["parent_entity_id" := Null];
    assert ParentText(RowA()) == None && ParentText(RowC()) == Some("1") && ParentText(RowX()) == Some("2");
    assert ParentText(low) == Some("3") && ParentText(free) == None;
    hide RowA, RowC, RowX, ParentText;
    LinksOfThree(Chain().entities, RowA(), RowC(), RowX());
    LinksOfThree(HalfWay().entities, low, RowC(), RowX());
    LinksOfThree(AtEnd().entities, low, free, RowX());
  }

  lemma StartOf(ids: Ids)
    ensures RunTo(Ready(Chain(), ids), [MoveA(), MoveC()], AlwaysAccepted(), 0).remote == Chain()
  {
  }
}
