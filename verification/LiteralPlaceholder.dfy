/** A manifest value shaped like a placeholder is replaced by an id when it is sent, so its plan never settles. */
module LiteralPlaceholder {
  import opened Outcomes
  import opened Text
  import opened JsonValues
  import opened Indexing
  import opened Manifests
  import opened RemoteStore
  import opened EntityOrder
  import opened LevelOrder
  import opened DeleteDepth
  import opened Planner
  import opened PlanShape
  import opened Executor
  import opened References
  import opened ReferenceSafety
  import opened Convergence
  import opened SecondApply
  import opened Drift
  import opened DriftExactness
  import opened ApplyPlan
  import opened ApplyTheorems

  /** A description that looks like a reference to the permission itself. */
  function WitnessItem(x: string): Dict {
    map["name" := Str("a"), "state" := Str("present"), "description" := Ref(Permissions, x)]
  }

  function WitnessRow(): Dict {
    map["id" := Str("1"), "name" := Str("a")]
  }

  function WitnessManifest(x: string): Manifest {
    Manifest([WitnessItem(x)], [], [], [])
  }

  function WitnessStore(): Remote {
    Remote(map["1" := WitnessRow()], map[], map[], map[], map[])
  }

  function WitnessUpdate(x: string): Operation {
    MakeOperation(Permissions, "a", UpdateAction, Patch, Element(Permissions, "1"),
                  Some(map["description" := Ref(Permissions, x)]), Some(WitnessRow()))
  }

  lemma OneRow(t: map<string, Dict>, id: string)
    requires t.Keys == {id}
    ensures Listing(t) == [t[id]]
  {
    var ids := SortedKeys({id});
    assert id in ids;
    assert forall i | 0 <= i < |ids| :: ids[i] in ids && ids[i] == id;
    assert |ids| == 1;
  }

  lemma ReadsOneRow(m: Manifest)
    requires m.permissions != [] && m.entities == [] && m.roles == [] && m.memberships == []
    ensures FetchSnapshot(WitnessStore(), m) == Success(Snapshot([WitnessRow()], [], [], [], []))
  {
    OneRow(WitnessStore().permissions, "1");
  }

  lemma RowIdentity()
    ensures FoldedIdentity(Permissions, WitnessRow()) == Some("a")
  {
    assert Fold("a") == "a";
  }

  lemma FiledOneRow()
    ensures ItemsByIdentity(Permissions, [WitnessRow()]) == map["a" := WitnessRow()]
  {
    RowIdentity();
    assert [WitnessRow()][..0] == [];
    assert IndexBy(Keyed(Permissions), []) == map[];
  }

  lemma ItemName(x: string)
    ensures NameOf(Permissions, WitnessItem(x)) == "a" && KeyOf(Permissions, WitnessItem(x)) == "a"
    ensures Present(WitnessItem(x))
  {
    assert Fold("a") == "a";
  }

  lemma ItemDiff(x: string)
    ensures ManagedDiff(WitnessRow(), WitnessItem(x), ManagedFields(Permissions)) ==
      map["description" := Ref(Permissions, x)]
  {
    assert Canonical(Get(WitnessRow(), "description")) == Null && Canonical(Ref(Permissions, x)).Obj?;
    hide Canonical, Ref;
    var diff := ManagedDiff(WitnessRow(), WitnessItem(x), ManagedFields(Permissions));
    assert forall f :: f in diff <==> f == "description";
  }

  lemma PlannedUpdate(x: string, c: Context)
    requires c.permissions == map["a" := WitnessRow()]
    ensures PlanItem(Permissions, c, WitnessItem(x)) == Success(Planned([WitnessUpdate(x)], []))
  {
    hide ManagedDiff, ManagedFields, WitnessItem, Restrict, NameOf, Present, RowDigest;
    ItemName(x);
    ItemDiff(x);
    assert "description" in ManagedDiff(WitnessRow(), WitnessItem(x), ManagedFields(Permissions));
    assert PlanPermission(c, WitnessItem(x)) ==
      Success(Planned(UpdateOf(Permissions, "a", WitnessRow(),
        ManagedDiff(WitnessRow(), WitnessItem(x), ManagedFields(Permissions))), []));
  }

  lemma NoEntities()
    ensures EntitySequence([]) == Success([])
  {
    NothingOrdered();
    assert AbsentItems([]) == [] && PresentItems([]) == [];
    assert TopologicalOrder([]).value + [] == [];
  }

  lemma NothingOrdered()
    ensures TopologicalOrder([]) == Some([])
  {
    assert DeclaredParents(Pending([])) == map[];
    assert Levels(DeclaredParents(Pending([]))) == Some([]);
    assert Fetch(Pending([]), []) == [];
    assert TopologicalOrder([]).value == [];
  }

  lemma OneItem(r: Resource, c: Context, item: Dict)
    requires PlanItem(r, c, item).Success?
    ensures PlanItems(r, c, [item]) == PlanItem(r, c, item)
  {
    hide PlanItem;
    var items := [item];
    assert items[..|items| - 1] == [] && items[|items| - 1] == item;
    assert PlanItems(r, c, items[..|items| - 1]) == Success(NOTHING);
    var p := PlanItem(r, c, item).value;
    assert [] + p.changes == p.changes && [] + p.deletes == p.deletes;
  }

  lemma PlanOfItem(x: string)
    ensures Plan(WitnessManifest(x), WitnessStore()) == Success([WitnessUpdate(x)])
  {
    hide FetchSnapshot, EntitySequence, PlanItem, ItemsByIdentity, WitnessItem, WitnessRow, WitnessUpdate, WitnessStore;
    ReadsOneRow(WitnessManifest(x));
    FiledOneRow();
    NoEntities();
    var c := MakeContext(WitnessManifest(x), Snapshot([WitnessRow()], [], [], [], []));
    PlannedUpdate(x, c);
    OneItem(Permissions, c, WitnessItem(x));
    assert PlanItems(Permissions, c, WitnessManifest(x).permissions) == Success(Planned([WitnessUpdate(x)], []));
    assert forall r: Resource :: PlanItems(r, c, []) == Success(NOTHING);
    assert SortDeletes(LinksOf([]), []) == [];
    assert Assemble(Planned([WitnessUpdate(x)], []), NOTHING, NOTHING, NOTHING, LinksOf([])) == [WitnessUpdate(x)];
    assert PlanFromSnapshot(WitnessManifest(x), Snapshot([WitnessRow()], [], [], [], [])) ==
      Success([WitnessUpdate(x)]);
  }

  // ---- its hypotheses hold --------------------------------------------------------------------

  lemma ItemIsSound(x: string)
    ensures Sound(WitnessManifest(x), WitnessStore())
  {
    hide FoldedIdentity, Ref;
    ItemValid(x);
    forall r: Resource
      ensures ValidGroup(r, WitnessManifest(x).Items(r)) && Distinct(Keyed(r), WitnessManifest(x).Items(r)) {
      match r case Permissions => case Entities => case Roles => case Memberships =>
    }
    StoreValid();
  }

  lemma ItemValid(x: string)
    ensures ValidItem(Permissions, WitnessItem(x))
  {
    hide Ref;
    assert IdentityFields(Permissions) == ["name"];
    assert WitnessItem(x).Keys == {"name", "state", "description"};
  }

  lemma StoreValid()
    ensures ValidRemote(WitnessStore())
  {
    hide FoldedIdentity;
    assert ValidRow(Permissions, "1", WitnessRow());
  }

  lemma ValueIsNotPlain(x: string)
    ensures !PlainManaged([WitnessUpdate(x)])
  {
    var ops := [WitnessUpdate(x)];
    var f := "description";
    assert f in ops[0].body.value && f in ManagedFields(ops[0].resource);
    assert !RefFree(ops[0].body.value[f]) by {
      assert IsReference(Ref(Permissions, x));
    }
  }

  // ---- every request is accepted --------------------------------------------------------------

  function AlwaysAccepted(): nat -> Reply {
    (k: nat) => Accepted("2", true)
  }

  lemma PermissionKnown(m: Manifest, key: string)
    requires m.permissions != [] && m.entities == [] && m.roles == [] && m.memberships == []
    ensures IdFor(ResolvedIds(FetchSnapshot(WitnessStore(), m).value), "permissions", key) ==
      if key == "a" then Some("1") else None
  {
    hide FetchSnapshot;
    ReadsOneRow(m);
    var named := (row: Dict) => NamedIdKey(Permissions, row);
    assert named(WitnessRow()) == Some("a") by {
      assert Fold("a") == "a";
    }
    var rows := [WitnessRow()];
    assert rows[..|rows| - 1] == [] && rows[|rows| - 1] == WitnessRow();
    assert IndexBy(named, rows[..|rows| - 1]) == map[];
    assert IndexBy(named, rows) == map["a" := WitnessRow()];
    assert IdsOf(Permissions, rows) == map["a" := "1"];
  }

  lemma SyntheticOfUpdate(x: string)
    ensures var m := Synthetic([WitnessUpdate(x)]);
      m.permissions != [] && m.entities == [] && m.roles == [] && m.memberships == []
  {
    hide RowDigest;
    var ops := [WitnessUpdate(x)];
    assert ops[..|ops| - 1] == [] && Synthetic(ops[..|ops| - 1]) == NO_ITEMS;
  }

  lemma SentBody(ids: Ids)
    requires IdFor(ids, "permissions", "a") == Some("1")
    ensures ResolveBody(WitnessUpdate("a").body, ids) == Success(Some(map["description" := Str("1")]))
  {
    hide RowDigest;
    ResolveRef(Permissions, "a", ids);
    assert Fold("a") == "a";
    var d: Dict := map["description" := Ref(Permissions, "a")];
    hide Resolve, Ref;
    assert Resolve(d["description"], ids) == Success(Str("1"));
    assert Unresolvable(d, ids) == {};
    assert ResolveDict(d, ids).value == map["description" := Str("1")];
    assert WitnessUpdate("a").body == Some(d);
  }

  lemma OneStep(ids: Ids)
    requires IdFor(ids, "permissions", "a") == Some("1")
    ensures RunTo(Ready(WitnessStore(), ids), [WitnessUpdate("a")], AlwaysAccepted(), 1).failure == None
  {
    hide Resolve, ResolveBody, WitnessRow, RowDigest, Ref, Learn;
    SentBody(ids);
    var start := Ready(WitnessStore(), ids);
    assert RunTo(start, [WitnessUpdate("a")], AlwaysAccepted(), 0) == start;
    assert Serve(WitnessStore(), Patch, Element(Permissions, "1"), Some(map["description" := Str("1")]), "2").Some?;
  }

  /** All hypotheses of convergence hold, every request is accepted, and still the second plan is not empty. */
  lemma PlaceholderValueNeverSettles()
    ensures Sound(WitnessManifest("a"), WitnessStore())
    ensures Plan(WitnessManifest("a"), WitnessStore()) == Success([WitnessUpdate("a")])
    ensures Apply(WitnessStore(), [WitnessUpdate("a")], AlwaysAccepted()).0.Completed?
    ensures Plan(WitnessManifest("a"), Apply(WitnessStore(), [WitnessUpdate("a")], AlwaysAccepted()).1) != Success([])
  {
    hide Plan, Sound, CheckDrift, ResolvedIds, FetchSnapshot, Synthetic, RunTo, WitnessUpdate, WitnessManifest,
      WitnessStore, PlainManaged, ValidRemote, ValidManifest, PlainMembershipNames, AlwaysAccepted;
    ItemIsSound("a");
    PlanOfItem("a");
    SoundParts(WitnessManifest("a"), WitnessStore());
    UnchangedNeverDrifts(WitnessManifest("a"), WitnessStore(), [WitnessUpdate("a")]);
    SyntheticOfUpdate("a");
    PermissionKnown(Synthetic([WitnessUpdate("a")]), "a");
    OneStep(ResolvedIds(FetchSnapshot(WitnessStore(), Synthetic([WitnessUpdate("a")])).value));
    ValueIsNotPlain("a");
    CompletedApplyConvergesIff(WitnessManifest("a"), WitnessStore(), [WitnessUpdate("a")], AlwaysAccepted());
  }

  // ---- or it stops the apply ------------------------------------------------------------------

  lemma StuckBody(ids: Ids)
    requires IdFor(ids, "permissions", "b") == None
    ensures ResolveBody(WitnessUpdate("b").body, ids) == Failure(UnresolvedReference("permissions", "b"))
  {
    hide RowDigest;
    ResolveRef(Permissions, "b", ids);
    assert Fold("b") == "b";
    var d: Dict := map["description" := Ref(Permissions, "b")];
    hide Resolve, Ref;
    assert d["description"] == Ref(Permissions, "b");
    assert Unresolvable(d, ids) == {"description"};
    var first := SortedKeys(Unresolvable(d, ids))[0];
    assert first in SortedKeys(Unresolvable(d, ids));
    assert WitnessUpdate("b").body == Some(d);
  }

  lemma StuckStep(ids: Ids)
    requires IdFor(ids, "permissions", "b") == None
    ensures var start := Ready(WitnessStore(), ids);
      RunTo(start, [WitnessUpdate("b")], AlwaysAccepted(), 1) ==
        start.(failure := Some(UnresolvedReference("permissions", "b")))
  {
    hide Resolve, ResolveBody, WitnessRow, RowDigest, Ref, Learn, Serve;
    StuckBody(ids);
    var start := Ready(WitnessStore(), ids);
    assert RunTo(start, [WitnessUpdate("b")], AlwaysAccepted(), 0) == start;
  }

  /** All hypotheses hold, the server would accept everything, and still the apply stops on the manifest's own value. */
  lemma UnknownPlaceholderStops()
    ensures Sound(WitnessManifest("b"), WitnessStore())
    ensures Plan(WitnessManifest("b"), WitnessStore()) == Success([WitnessUpdate("b")])
    ensures Apply(WitnessStore(), [WitnessUpdate("b")], AlwaysAccepted()) ==
      (Failed(UnresolvedReference("permissions", "b")), WitnessStore())
  {
    hide Plan, Sound, CheckDrift, ResolvedIds, FetchSnapshot, Synthetic, RunTo, WitnessUpdate, WitnessManifest,
      WitnessStore, ValidRemote, ValidManifest, PlainMembershipNames, AlwaysAccepted;
    ItemIsSound("b");
    PlanOfItem("b");
    SoundParts(WitnessManifest("b"), WitnessStore());
    UnchangedNeverDrifts(WitnessManifest("b"), WitnessStore(), [WitnessUpdate("b")]);
    SyntheticOfUpdate("b");
    PermissionKnown(Synthetic([WitnessUpdate("b")]), "b");
    StuckStep(ResolvedIds(FetchSnapshot(WitnessStore(), Synthetic([WitnessUpdate("b")])).value));
  }

  lemma SoundParts(m: Manifest, remote: Remote)
    requires Sound(m, remote)
    ensures ValidManifest(m) && PlainMembershipNames(m) && ValidRemote(remote)
  {
  }
}
