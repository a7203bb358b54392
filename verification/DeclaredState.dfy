/** What it means for a store to be in the declared state, and that an empty plan means just that. */
module DeclaredState {
  import opened ParentForest
  import opened Outcomes
  import opened Text
  import opened JsonValues
  import opened Indexing
  import opened Manifests
  import opened RemoteStore
  import opened Planner
  import opened PlanShape
  import opened SnapshotFacts
  import opened Executor
  import opened RunFacts
  import opened FinalState
  import opened ReferenceSafety
  import opened RunOfPlan
  import opened Convergence
  import opened FinalMemberships
  import opened SecondPlan
  import opened MembershipsAgain
  import opened SecondApply
  import opened DriftExactness
  import opened PlanErrors

  function IdOf(row: Option<Dict>): Json {
    match row case None => Null case Some(r) => Get(r, "id")
  }

  /** The id of the row an item's parent names; null if it names none. */
  ghost function ParentId(remote: Remote, item: Dict): Json {
    if NonemptyText(Get(item, "parent")) then IdOf(RowBehind(remote, Entities, Fold(Get(item, "parent").s))) else Null
  }

  /** The ids of the rows the declared roles name. */
  ghost function RoleIdList(remote: Remote, roles: seq<Json>): seq<Json> {
    seq(|roles|, i requires 0 <= i < |roles| => IdOf(RowBehind(remote, Roles, Fold(PyStr(roles[i])))))
  }

  /** The row shows everything the item declares. */
  ghost predicate Shows(remote: Remote, r: Resource, item: Dict, row: Dict) {
    && (forall f | f in item && f in ManagedFields(r) :: Canonical(Get(row, f)) == Canonical(item[f]))
    && (r == Entities && "parent" in item ==>
      Canonical(Get(row, "parent_entity_id")) == Canonical(ParentId(remote, item)))
    && (r == Memberships && "roles" in item && item["roles"].List? ==>
          Canonical(Get(row, "role_ids")) == Canonical(List(RoleIdList(remote, item["roles"].items))))
  }

  /** A present item is stored as declared; of an absent one nothing is stored. */
  ghost predicate Satisfied(remote: Remote, r: Resource, item: Dict) {
    var row := RowBehind(remote, r, KeyOf(r, item));
    if Present(item) then row.Some? && Shows(remote, r, item, row.value) else row.None?
  }

  ghost predicate InDeclaredState(m: Manifest, remote: Remote) {
    forall r: Resource, item | item in m.Items(r) :: Satisfied(remote, r, item)
  }

  // ---- dictionaries and rows ------------------------------------------------------------------

  ghost predicate Readable(m: Manifest, remote: Remote, c: Context) {
    ValidManifest(m) && FoldDistinct(m) && PlainMembershipNames(m) && ValidRemote(remote) && ContextOf(m, remote, c)
  }

  lemma ItemRow(m: Manifest, remote: Remote, c: Context, r: Resource, item: Dict)
    requires Readable(m, remote, c) && item in m.Items(r)
    ensures RowBehind(remote, r, KeyOf(r, item)) == Lookup(c.Current(r), KeyOf(r, item))
  {
    hide ValidManifest, FoldDistinct, PlainMembershipNames, ValidRemote, ContextOf, RowBehind, Asks, KeyOf;
    var user, entity := "", "";
    if r == Memberships {
      user, entity := PyStr(Get(item, "user")), PyStr(Get(item, "entity"));
      var i :| 0 <= i < |m.memberships| && m.memberships[i] == item;
      ItemNames(m, i);
      ItemAsks(m, remote, item);
    } else {
      ItemRead(m, r, item);
    }
    ReadIsBehind(m, remote, c, r, KeyOf(r, item), user, entity);
  }

  lemma NamedRow(m: Manifest, remote: Remote, c: Context, r: Resource, key: string)
    requires Readable(m, remote, c) && r != Memberships && Reads(m, r)
    ensures RowBehind(remote, r, key) == Lookup(c.Current(r), key)
  {
    hide ValidManifest, FoldDistinct, PlainMembershipNames, ValidRemote, ContextOf, RowBehind, Asks, Reads;
    ReadIsBehind(m, remote, c, r, key, "", "");
  }

  /** Everything declared present is in the dictionaries. */
  ghost predicate AllStored(m: Manifest, c: Context) {
    forall r: Resource, item | item in m.Items(r) && Present(item) :: KeyOf(r, item) in c.Current(r)
  }

  /** Then a successful lookup is the id of a stored row. */
  lemma StoredLookup(m: Manifest, remote: Remote, c: Context, r: Resource, identity: string)
    requires Readable(m, remote, c) && AllStored(m, c) && r in {Entities, Roles} && Reads(m, r)
    requires LookupOrRef(r, identity, c.Current(r), Declared(c, r)).Success?
    ensures LookupOrRef(r, identity, c.Current(r), Declared(c, r)) ==
      Success(IdOf(RowBehind(remote, r, Fold(identity))))
  {
    hide ValidManifest, FoldDistinct, PlainMembershipNames, ValidRemote, ContextOf, RowBehind, Reads, KeyOf;
    NamedRow(m, remote, c, r, Fold(identity));
    DeclaredIsListed(m, remote, c, r, Fold(identity));
  }

  lemma ParentIs(m: Manifest, remote: Remote, c: Context, item: Dict)
    requires Readable(m, remote, c) && AllStored(m, c) && item in m.entities && ParentValue(c, item).Success?
    ensures ParentValue(c, item) == Success(ParentId(remote, item))
  {
    hide Readable, AllStored, RowBehind, LookupOrRef, IdOf;
    if NonemptyText(Get(item, "parent")) {
      assert Reads(m, Entities);
      StoredLookup(m, remote, c, Entities, Get(item, "parent").s);
    }
  }

  lemma RolesAre(m: Manifest, remote: Remote, c: Context, item: Dict)
    requires Readable(m, remote, c) && AllStored(m, c) && item in m.memberships && PlannedRoleIds(c, item).Success?
    ensures DeclaredRoles(item).List?
    ensures PlannedRoleIds(c, item) == Success(RoleIdList(remote, DeclaredRoles(item).items))
  {
    hide Readable, AllStored, RowBehind, LookupOrRef, IdOf, RoleIds, DeclaredRoles;
    var roles := DeclaredRoles(item).items;
    assert Reads(m, Roles);
    RoleIdsAt(c, roles);
    forall i | 0 <= i < |roles|
      ensures PlannedRoleIds(c, item).value[i] == IdOf(RowBehind(remote, Roles, Fold(PyStr(roles[i])))) {
      assert roles[i] in roles;
      StoredLookup(m, remote, c, Roles, roles[i].s);
    }
    assert PlannedRoleIds(c, item).value == RoleIdList(remote, roles);
  }

  // ---- one item -------------------------------------------------------------------------------

  /** Planning the item yields nothing. */
  ghost predicate Idle(r: Resource, c: Context, item: Dict)
    requires PlanItem(r, c, item).Success?
  {
    PlanItem(r, c, item).value == Planned([], [])
  }

  lemma AbsentIdleIff(m: Manifest, remote: Remote, c: Context, r: Resource, item: Dict)
    requires Readable(m, remote, c) && item in m.Items(r) && !Present(item)
    ensures PlanItem(r, c, item).Success? && (Idle(r, c, item) <==> Satisfied(remote, r, item))
  {
    hide Readable, RowBehind, RowDigest, ElementPath;
    ItemRow(m, remote, c, r, item);
  }

  lemma IdleIsStored(r: Resource, c: Context, item: Dict)
    requires PlanItem(r, c, item).Success? && Present(item) && Idle(r, c, item)
    ensures KeyOf(r, item) in c.Current(r)
  {
    hide PlanItem;
    ItemOperations(r, c, item);
  }

  lemma PlainIdleIff(m: Manifest, remote: Remote, c: Context, r: Resource, item: Dict)
    requires Readable(m, remote, c) && AllStored(m, c) && r != Memberships && item in m.Items(r) && Present(item)
    requires PlanItem(r, c, item).Success?
    ensures Idle(r, c, item) <==> Satisfied(remote, r, item)
  {
    hide Readable, RowBehind, PlanItem, ManagedDiff, ManagedFields, Canonical, ParentValue, ParentId, KeyOf, RowDigest;
    var row := c.Current(r)[KeyOf(r, item)];
    ItemRow(m, remote, c, r, item);
    ItemOperations(r, c, item);
    ExistingChanges(r, c, item);
    NoDiffIff(row, item, ManagedFields(r));
    if r == Entities {
      ParentPlanned(c, item);
      ParentIs(m, remote, c, item);
    }
  }

  lemma MembershipIdleIff(m: Manifest, remote: Remote, c: Context, item: Dict)
    requires Readable(m, remote, c) && AllStored(m, c) && item in m.memberships && Present(item)
    requires PlanItem(Memberships, c, item).Success?
    ensures Idle(Memberships, c, item) <==> Satisfied(remote, Memberships, item)
  {
    hide Readable, RowBehind, PlanItem, PlanMembership, ManagedFields, Canonical, KeyOf, Changed, RoleIdList,
      PlannedRoleIds, PlannedEntity;
    assert item in m.Items(Memberships);
    var row := c.memberships[KeyOf(Memberships, item)];
    ItemRow(m, remote, c, Memberships, item);
    PlansMembership(c, item);
    MembershipReferences(c, item);
    PairPlans(c, item);
    NothingChangedIff(c, item, row);
    RolesAre(m, remote, c, item);
  }

  lemma ItemIdleIff(m: Manifest, remote: Remote, c: Context, r: Resource, item: Dict)
    requires Readable(m, remote, c) && AllStored(m, c) && item in m.Items(r) && PlanItem(r, c, item).Success?
    ensures Idle(r, c, item) <==> Satisfied(remote, r, item)
  {
    hide Readable, AllStored, PlanItem, Satisfied, Idle;
    if !Present(item) {
      AbsentIdleIff(m, remote, c, r, item);
    } else if r == Memberships {
      MembershipIdleIff(m, remote, c, item);
    } else {
      PlainIdleIff(m, remote, c, r, item);
    }
  }

  // ---- the plan -------------------------------------------------------------------------------

  lemma {:induction false} GroupIdleIff(r: Resource, c: Context, items: seq<Dict>)
    requires PlanItems(r, c, items).Success?
    ensures forall item | item in items :: PlanItem(r, c, item).Success?
    ensures PlanItems(r, c, items).value == Planned([], []) <==> forall item | item in items :: Idle(r, c, item)
  {
    hide PlanItem;
    if items != [] {
      FrontMembers(items);
      var n := |items| - 1;
      GroupIdleIff(r, c, items[..n]);
      var front, last := PlanItems(r, c, items[..n]).value, PlanItem(r, c, items[n]).value;
      assert items[n] in items &&
        PlanItems(r, c, items).value == Planned(front.changes + last.changes, front.deletes + last.deletes);
      assert Idle(r, c, items[n]) <==> last == Planned([], []);
      assert (forall item | item in items :: Idle(r, c, item)) <==>
        (forall item | item in items[..n] :: Idle(r, c, item)) && Idle(r, c, items[n]);
      assert front.changes + last.changes == [] <==> front.changes == [] && last.changes == [];
      assert front.deletes + last.deletes == [] <==> front.deletes == [] && last.deletes == [];
    }
  }

  ghost predicate AllIdle(m: Manifest, b: Blueprint) {
    forall r: Resource, item | item in m.Items(r) && PlanItem(r, b.c, item).Success? :: Idle(r, b.c, item)
  }

  lemma NothingJoined<T>(a: seq<T>, b: seq<T>, c: seq<T>, d: seq<T>, e: seq<T>, f: seq<T>, g: seq<T>, h: seq<T>)
    ensures a + b + c + d + e + f + g + h == [] <==> |a| + |b| + |c| + |d| + |e| + |f| + |g| + |h| == 0
  {
    var s := a + b + c + d;
    assert |s| == |a| + |b| + |c| + |d|;
    assert |s + e + f + g + h| == |s| + |e| + |f| + |g| + |h|;
  }

  lemma SortedDeletesKept(links: Parents, deletes: seq<Operation>)
    ensures |SortDeletes(links, deletes)| == |deletes|
  {
    assert |multiset(SortDeletes(links, deletes))| == |multiset(deletes)|;
  }

  lemma NothingAssembled(p: Planned, e: Planned, r: Planned, m: Planned, links: Parents)
    ensures Assemble(p, e, r, m, links) == [] <==> p == e == r == m == Planned([], [])
  {
    hide SortDeletes;
    SortedDeletesKept(links, e.deletes);
    NothingJoined(p.changes, e.changes, r.changes, m.changes, m.deletes, r.deletes, SortDeletes(links, e.deletes),
      p.deletes);
  }

  lemma EmptyGroups(b: Blueprint)
    ensures b.Ops() == [] <==> forall r: Resource :: b.Group(r) == Planned([], [])
  {
    hide Assemble;
    NothingAssembled(b.permissions, b.entities, b.roles, b.memberships, b.links);
    assert b.Group(Permissions) == b.permissions && b.Group(Entities) == b.entities;
    assert b.Group(Roles) == b.roles && b.Group(Memberships) == b.memberships;
    if b.Ops() == [] {
      forall r: Resource ensures b.Group(r) == Planned([], []) {
        assert b.Group(r) in {b.permissions, b.entities, b.roles, b.memberships};
      }
    }
  }

  lemma EmptyPlanIffIdle(m: Manifest, remote: Remote, b: Blueprint)
    requires ValidManifest(m) && FoldDistinct(m) && Compiles(m, remote, b)
    ensures forall r: Resource, item | item in m.Items(r) :: PlanItem(r, b.c, item).Success?
    ensures b.Ops() == [] <==> AllIdle(m, b)
  {
    hide ValidManifest, FoldDistinct, FetchSnapshot, MakeContext, EntitySequence, PlanItem, PlanItems, Assemble, Idle;
    EmptyGroups(b);
    forall r: Resource
      ensures forall item | item in m.Items(r) :: PlanItem(r, b.c, item).Success?
      ensures b.Group(r) == Planned([], []) <==> forall item | item in m.Items(r) :: Idle(r, b.c, item)
    {
      GroupIdleIff(r, b.c, b.Items(m, r));
      forall item ensures item in b.Items(m, r) <==> item in m.Items(r) {
        SequenceMembers(m, remote, b, r, item);
      }
    }
  }

  lemma IdleStoresAll(m: Manifest, b: Blueprint)
    requires AllIdle(m, b) && forall r: Resource, item | item in m.Items(r) :: PlanItem(r, b.c, item).Success?
    ensures AllStored(m, b.c)
  {
    hide PlanItem, Idle, KeyOf;
    forall r: Resource, item | item in m.Items(r) && Present(item) ensures KeyOf(r, item) in b.c.Current(r) {
      IdleIsStored(r, b.c, item);
    }
  }

  lemma SatisfiedStoresAll(m: Manifest, remote: Remote, c: Context)
    requires Readable(m, remote, c) && InDeclaredState(m, remote)
    ensures AllStored(m, c)
  {
    hide Readable, KeyOf, RowBehind, Shows;
    forall r: Resource, item | item in m.Items(r) && Present(item) ensures KeyOf(r, item) in c.Current(r) {
      assert Satisfied(remote, r, item);
      ItemRow(m, remote, c, r, item);
    }
  }

  /** A plan is empty exactly when it can be made and the store is in the declared state already. */
  lemma EmptyPlanIffDeclaredState(m: Manifest, remote: Remote)
    requires ValidManifest(m) && FoldDistinct(m) && PlainMembershipNames(m) && ValidRemote(remote)
    ensures Plan(m, remote) == Success([]) <==> Plan(m, remote).Success? && InDeclaredState(m, remote)
  {
    hide ValidManifest, FoldDistinct, PlainMembershipNames, ValidRemote, Plan, Compiles, Assemble, PlanItem,
      Satisfied, Idle, AllStored;
    if Plan(m, remote).Success? {
      var b := PlanCompiles(m, remote);
      CompiledContext(m, remote, b);
      EmptyPlanIffIdle(m, remote, b);
      if AllIdle(m, b) {
        IdleStoresAll(m, b);
      }
      if InDeclaredState(m, remote) {
        SatisfiedStoresAll(m, remote, b.c);
      }
      if AllStored(m, b.c) {
        forall r: Resource, item | item in m.Items(r) ensures Idle(r, b.c, item) <==> Satisfied(remote, r, item) {
          ItemIdleIff(m, remote, b.c, r, item);
        }
      }
    }
  }

  /** Convergence once more, without a second plan: a complete run leaves the store in the declared state exactly when
      the plan carried no manifest value with a placeholder in it. */
  lemma CompleteRunReachesStateIff(m: Manifest, remote: Remote, run: Run)
    requires CompleteRun(m, remote, run)
    ensures InDeclaredState(m, Final(run)) <==> PlainManaged(run.ops)
  {
    hide CompleteRun, Plan, InDeclaredState, PlainManaged, Final;
    SecondPlanEmptyIff(m, remote, run);
    FinalStoreIsValid(m, remote, run);
    EmptyPlanIffDeclaredState(m, Final(run));
  }

  lemma FinalStoreIsValid(m: Manifest, remote: Remote, run: Run)
    requires CompleteRun(m, remote, run)
    ensures ValidManifest(m) && FoldDistinct(m) && PlainMembershipNames(m) && ValidRemote(Final(run))
  {
    hide Plan, ValidManifest, FoldDistinct, PlainSlugs, PlainMembershipNames, NoAbsentReferences, ValidRemote,
      PlainReferences, IdsMatch, RunTo, Compiles, Assemble;
    RanThroughout(run);
    var b := PlanCompiles(m, remote);
    StaysValid(m, remote, b, run, |run.ops|);
  }
}
