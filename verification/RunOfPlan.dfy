/** What holds at every point of an accepted run of a plan. */
module RunOfPlan {
  import opened Outcomes
  import opened Text
  import opened JsonValues
  import opened Indexing
  import opened Manifests
  import opened RemoteStore
  import opened EntityOrder
  import opened Planner
  import opened PlanShape
  import opened SnapshotFacts
  import opened Executor
  import opened RunFacts
  import opened ReferenceSafety

  /** A run of the plan made for `m` against the very store it was made from. */
  ghost predicate Applies(m: Manifest, remote: Remote, b: Blueprint, run: Run) {
    && ValidManifest(m) && FoldDistinct(m) && ValidRemote(remote)
    && Compiles(m, remote, b)
    && run.ops == b.Ops() && run.start.remote == remote && run.start.failure == None
  }

  // ---- items and keys -------------------------------------------------------------------------

  lemma ManifestKeys(m: Manifest, r: Resource, item: Dict)
    requires ValidManifest(m) && item in m.Items(r)
    ensures FoldedIdentity(r, item) == Some(KeyOf(r, item)) && ValidItem(r, item)
  {
    var i :| 0 <= i < |m.Items(r)| && m.Items(r)[i] == item;
    assert ValidGroup(r, m.Items(r));
    ValidItemIdentity(r, item);
  }

  /** The planning order lists the manifest's items. */
  lemma SequenceMembers(m: Manifest, remote: Remote, b: Blueprint, r: Resource, item: Dict)
    requires ValidManifest(m) && FoldDistinct(m) && Compiles(m, remote, b)
    ensures item in b.Items(m, r) <==> item in m.Items(r)
  {
    hide PlanItems, FetchSnapshot, MakeContext;
    if r == Entities {
      var items := PresentItems(m.entities);
      PresentMembers(m.entities);
      OutputMembers(items);
      PresentDistinct(m);
      IndexFinds(Keyed(Entities), items);
      IndexSound(Keyed(Entities), items);
      if item in m.entities && Present(item) {
        ManifestKeys(m, Entities, item);
        assert item in Pending(items).Values;
      }
    }
  }

  lemma {:induction false} SubsetDistinct(items: seq<Dict>)
    requires Distinct(Keyed(Entities), items)
    ensures Distinct(Keyed(Entities), PresentItems(items)) && Distinct(Keyed(Entities), AbsentItems(items))
  {
    hide Distinct, Keyed, Present;
    if items == [] {
      NothingDistinct(Keyed(Entities));
    } else {
      var n := |items| - 1;
      DistinctFront(Keyed(Entities), items);
      SubsetDistinct(items[..n]);
      PresentMembers(items[..n]);
      DistinctSnoc(Keyed(Entities), if Present(items[n]) then PresentItems(items[..n])
        else AbsentItems(items[..n]), items[n]);
      assert PresentItems(items[..n]) + [] == PresentItems(items[..n]) &&
        AbsentItems(items[..n]) + [] == AbsentItems(items[..n]);
    }
  }

  lemma PresentDistinct(m: Manifest)
    requires FoldDistinct(m)
    ensures Distinct(Keyed(Entities), PresentItems(m.entities)) && Distinct(Keyed(Entities), AbsentItems(m.entities))
  {
    assert Distinct(Keyed(Entities), m.Items(Entities));
    SubsetDistinct(m.entities);
  }

  /** Two entries of one list with the same key are the same entry. */
  lemma SameKeySamePlace(key: Dict -> Option<string>, items: seq<Dict>, i: nat, j: nat)
    requires Distinct(key, items) && i < |items| && j < |items| && key(items[i]).Some? && key(items[i]) == key(items[j])
    ensures i == j
  {
  }

  /** Keys identify places in the planning order. */
  lemma KeysArePlaces(m: Manifest, remote: Remote, b: Blueprint, r: Resource, i: nat, j: nat)
    requires ValidManifest(m) && FoldDistinct(m) && Compiles(m, remote, b)
    requires i < |b.Items(m, r)| && j < |b.Items(m, r)| && KeyOf(r, b.Items(m, r)[i]) == KeyOf(r, b.Items(m, r)[j])
    ensures i == j
  {
    hide ValidManifest, Compiles, FoldedIdentity;
    var items := b.Items(m, r);
    assert items[i] in items && items[j] in items;
    SequenceMembers(m, remote, b, r, items[i]);
    SequenceMembers(m, remote, b, r, items[j]);
    ManifestKeys(m, r, items[i]);
    ManifestKeys(m, r, items[j]);
    assert Distinct(Keyed(r), m.Items(r));
    var i' :| 0 <= i' < |m.Items(r)| && m.Items(r)[i'] == items[i];
    var j' :| 0 <= j' < |m.Items(r)| && m.Items(r)[j'] == items[j];
    SameKeySamePlace(Keyed(r), m.Items(r), i', j');
    if r == Entities {
      EntityPlaces(m, remote, b, i, j);
    }
  }

  lemma JoinedPlaces(present: seq<Dict>, absent: seq<Dict>, i: nat, j: nat)
    requires forall k, l | 0 <= k < l < |present| :: present[k] != present[l]
    requires forall k, l | 0 <= k < l < |absent| :: absent[k] != absent[l]
    requires (forall k | 0 <= k < |present| :: Present(present[k])) &&
      (forall k | 0 <= k < |absent| :: !Present(absent[k]))
    requires i < |present + absent| && j < |present + absent| && (present + absent)[i] == (present + absent)[j]
    ensures i == j
  {
  }

  lemma AbsentPlaces(m: Manifest)
    requires ValidManifest(m) && FoldDistinct(m)
    ensures var absent := AbsentItems(m.entities);
      && (forall k | 0 <= k < |absent| :: !Present(absent[k]))
      && (forall k, l | 0 <= k < l < |absent| :: absent[k] != absent[l])
  {
    var absent := AbsentItems(m.entities);
    PresentMembers(m.entities);
    PresentDistinct(m);
    forall k | 0 <= k < |absent| ensures !Present(absent[k]) && Keyed(Entities)(absent[k]).Some? {
      assert absent[k] in absent;
      ManifestKeys(m, Entities, absent[k]);
    }
  }

  lemma OrderedPlaces(m: Manifest)
    requires TopologicalOrder(PresentItems(m.entities)).Some?
    ensures var out := TopologicalOrder(PresentItems(m.entities)).value;
      && (forall k | 0 <= k < |out| :: Present(out[k]))
      && (forall k, l | 0 <= k < l < |out| :: out[k] != out[l])
  {
    var items := PresentItems(m.entities);
    var out := TopologicalOrder(items).value;
    PresentMembers(m.entities);
    OutputMembers(items);
    IndexSound(Keyed(Entities), items);
    forall k | 0 <= k < |out| ensures Present(out[k]) {
      assert out[k] in out;
    }
  }

  lemma SequenceIs(m: Manifest, remote: Remote, b: Blueprint)
    requires Compiles(m, remote, b)
    ensures TopologicalOrder(PresentItems(m.entities)).Some?
    ensures b.sequence == TopologicalOrder(PresentItems(m.entities)).value + AbsentItems(m.entities)
  {
    hide FetchSnapshot, PlanItems, MakeContext;
  }

  lemma EntityPlaces(m: Manifest, remote: Remote, b: Blueprint, i: nat, j: nat)
    requires ValidManifest(m) && FoldDistinct(m) && Compiles(m, remote, b)
    requires i < |b.sequence| && j < |b.sequence| && b.sequence[i] == b.sequence[j]
    ensures i == j
  {
    hide *;
    SequenceIs(m, remote, b);
    AbsentPlaces(m);
    OrderedPlaces(m);
    JoinedPlaces(TopologicalOrder(PresentItems(m.entities)).value, AbsentItems(m.entities), i, j);
  }

  // ---- which operations concern which row -----------------------------------------------------

  /** A change that bears an item's key stands in the item's slice. */
  lemma ChangeInSlice(m: Manifest, remote: Remote, b: Blueprint, r: Resource, i: nat, q: nat) returns (lo: nat, hi: nat)
    requires ValidManifest(m) && FoldDistinct(m) && Compiles(m, remote, b)
    requires i < |b.Items(m, r)| && q < b.ChangeCount() && q < |b.Ops()|
    requires b.Ops()[q].resource == r && Fold(b.Ops()[q].identity) == KeyOf(r, b.Items(m, r)[i])
    ensures PlanItems(r, b.c, b.Items(m, r)[..i]).Success? && lo == Offset(r, b.c, b.Items(m, r), i)
    ensures lo <= hi <= |b.Group(r).changes| && b.Base(r) + lo <= q < b.Base(r) + hi
    ensures PlanItem(r, b.c, b.Items(m, r)[i]).Success?
    ensures b.Group(r).changes[lo..hi] == PlanItem(r, b.c, b.Items(m, r)[i]).value.changes
    ensures b.Ops()[q] in PlanItem(r, b.c, b.Items(m, r)[i]).value.changes
  {
    hide ValidManifest, FoldDistinct, PlanItem, FetchSnapshot, MakeContext, EntitySequence, Assemble, PlanItems,
      Offset, NameOf;
    var items := b.Items(m, r);
    var r' := ChangePosition(b, q);
    var j := OwnerOfPosition(r', b.c, b.Items(m, r'), q - b.Base(r'));
    ItemOperations(r', b.c, b.Items(m, r')[j]);
    KeysArePlaces(m, remote, b, r, i, j);
    lo, hi := SliceOfItem(r, b.c, items, i);
  }

  /** The operation is a change of an item, or the deletion of an absent one. */
  lemma OwnerOfOperation(m: Manifest, remote: Remote, b: Blueprint, q: nat) returns (r: Resource, i: nat)
    requires Compiles(m, remote, b) && q < |b.Ops()|
    ensures i < |b.Items(m, r)| && PlanItem(r, b.c, b.Items(m, r)[i]).Success?
    ensures b.Ops()[q].resource == r && b.Ops()[q].identity == NameOf(r, b.Items(m, r)[i])
    ensures q < b.ChangeCount() ==> Present(b.Items(m, r)[i]) && ChangeOf(r, b.c, b.Items(m, r)[i], b.Ops()[q])
    ensures q >= b.ChangeCount() ==> DeleteOf(r, b.c, b.Items(m, r)[i], b.Ops()[q])
  {
    hide PlanItem, PlanItems, Assemble, FetchSnapshot, MakeContext, EntitySequence;
    if q < b.ChangeCount() {
      r := ChangePosition(b, q);
      i := OwnerOfPosition(r, b.c, b.Items(m, r), q - b.Base(r));
    } else {
      r := DeletePosition(b, q);
      i := OwnerOfDelete(r, b.c, b.Items(m, r), b.Ops()[q]);
    }
    ItemOperations(r, b.c, b.Items(m, r)[i]);
  }

  lemma CurrentRow(m: Manifest, remote: Remote, b: Blueprint, r: Resource, key: string)
    requires Compiles(m, remote, b) && ValidRemote(remote) && r != Memberships && key in b.c.Current(r)
    ensures var row := b.c.Current(r)[key];
      Get(row, "id").Str? && RowId(row) in remote.Table(r) && remote.Table(r)[RowId(row)] == row &&
        FoldedIdentity(r, row) == Some(key)
  {
    ContextCurrent(m, remote, b, r);
    assert ValidRow(r, RowId(b.c.Current(r)[key]), b.c.Current(r)[key]);
  }

  /** An operation addresses only the row it was planned from. */
  lemma TouchedRow(m: Manifest, remote: Remote, b: Blueprint, q: nat, r: Resource, id: string)
    requires Compiles(m, remote, b) && ValidRemote(remote) && q < |b.Ops()| && r != Memberships
    requires TouchesRow(b.Ops()[q].path, r, id)
    ensures b.Ops()[q].resource == r && id in remote.Table(r)
    ensures FoldedIdentity(r, remote.Table(r)[id]) == Some(Fold(b.Ops()[q].identity))
    ensures b.Ops()[q].before == Some(remote.Table(r)[id])
  {
    hide Compiles, Assemble, PlanItem, FoldedIdentity, ValidRemote;
    var r', i := OwnerOfOperation(m, remote, b, q);
    var key := KeyOf(r', b.Items(m, r')[i]);
    if r' != Memberships && key in b.c.Current(r') {
      CurrentRow(m, remote, b, r', key);
    }
  }

  /** A row whose identity no absent item bears is never deleted by the plan. */
  lemma TouchIsChange(m: Manifest, remote: Remote, b: Blueprint, q: nat, r: Resource, id: string, i: nat)
    requires ValidManifest(m) && FoldDistinct(m) && ValidRemote(remote) && Compiles(m, remote, b)
    requires q < |b.Ops()| && r != Memberships && TouchesRow(b.Ops()[q].path, r, id)
    requires i < |b.Items(m, r)| && Present(b.Items(m, r)[i])
    requires id in remote.Table(r) && FoldedIdentity(r, remote.Table(r)[id]) == Some(KeyOf(r, b.Items(m, r)[i]))
    ensures q < b.ChangeCount()
  {
    hide Compiles, Assemble, ValidManifest, FoldDistinct, FoldedIdentity;
    TouchedRow(m, remote, b, q, r, id);
    var r', i' := OwnerOfOperation(m, remote, b, q);
    KeysArePlaces(m, remote, b, r, i, i');
  }

  // ---- created rows ---------------------------------------------------------------------------

  /** A creation stands where its item's slice begins. */
  lemma CreationPlace(m: Manifest, remote: Remote, b: Blueprint, q: nat, r: Resource, key: string) returns (i: nat)
    requires ValidManifest(m) && FoldDistinct(m) && Compiles(m, remote, b)
    requires q < |b.Ops()| && CreatesKey(b.Ops()[q], r, key)
    ensures i < |b.Items(m, r)| && KeyOf(r, b.Items(m, r)[i]) == key && Present(b.Items(m, r)[i])
    ensures key !in b.c.Current(r)
    ensures PlanItems(r, b.c, b.Items(m, r)[..i]).Success?
    ensures q == b.Base(r) + Offset(r, b.c, b.Items(m, r), i) && q < b.ChangeCount()
    ensures PlanItem(r, b.c, b.Items(m, r)[i]).Success?
    ensures PlanItem(r, b.c, b.Items(m, r)[i]).value.changes == [b.Ops()[q]]
  {
    hide Compiles, ValidManifest, FoldDistinct, PlanItem, PlanItems, Assemble;
    var r', i' := OwnerOfOperation(m, remote, b, q);
    i := i';
    var lo, hi := ChangeInSlice(m, remote, b, r, i, q);
    ItemOperations(r, b.c, b.Items(m, r)[i]);
    assert |b.Group(r).changes[lo..hi]| == hi - lo;
    GroupPosition(b, r, lo);
  }

  lemma CreationUnique(m: Manifest, remote: Remote, b: Blueprint, q: nat, q': nat, r: Resource, key: string)
    requires ValidManifest(m) && FoldDistinct(m) && Compiles(m, remote, b)
    requires q < |b.Ops()| && q' < |b.Ops()| && CreatesKey(b.Ops()[q], r, key) && CreatesKey(b.Ops()[q'], r, key)
    ensures q == q'
  {
    var i := CreationPlace(m, remote, b, q, r, key);
    var i' := CreationPlace(m, remote, b, q', r, key);
    KeysArePlaces(m, remote, b, r, i, i');
  }

  lemma ChangesDoNotDelete(m: Manifest, remote: Remote, b: Blueprint, q: nat)
    requires Compiles(m, remote, b) && q < b.ChangeCount()
    ensures q < |b.Ops()| && b.Ops()[q].verb != Delete
  {
    hide Compiles, Assemble, PlanItem;
    var r := ChangePosition(b, q);
    var r', i := OwnerOfOperation(m, remote, b, q);
  }

  lemma DeletesDoNotCreate(m: Manifest, remote: Remote, b: Blueprint, q: nat, r: Resource)
    requires Compiles(m, remote, b) && b.ChangeCount() <= q < |b.Ops()|
    ensures b.Ops()[q].path != Collection(r)
  {
    hide Compiles, Assemble, PlanItem;
    var r', i := OwnerOfOperation(m, remote, b, q);
  }

  /** Only creations post to a collection. */
  lemma CollectionIsCreation(m: Manifest, remote: Remote, b: Blueprint, q: nat, r: Resource)
    requires Compiles(m, remote, b) && q < |b.Ops()| && b.Ops()[q].path == Collection(r)
    ensures CreatesKey(b.Ops()[q], r, Fold(b.Ops()[q].identity)) && q < b.ChangeCount()
  {
    hide Compiles, Assemble, PlanItem;
    var r', i := OwnerOfOperation(m, remote, b, q);
  }

  lemma ServeNeedsFreshId(s: Remote, op: Operation, body: Option<Dict>, id: string, r: Resource, r': Resource)
    requires op.path == Collection(r) && r' != Memberships && Serve(s, op.verb, op.path, body, id).Some?
    ensures Unused(s, id) && id != "" && id !in s.Table(r')
  {
    hide Mentions;
  }

  /** The id of a created row is new to the original store, so no operation of the plan addresses it. */
  lemma CreatedIdIsNew(m: Manifest, remote: Remote, b: Blueprint, run: Run, q: nat, r: Resource, r': Resource)
    requires Applies(m, remote, b, run) && q < |run.ops| && run.Ran(q + 1) && run.ops[q].path == Collection(r)
    requires r' != Memberships
    ensures run.replies(q).Accepted? && run.replies(q).id != "" && run.replies(q).id !in remote.Table(r')
    ensures forall p | 0 <= p < |run.ops| :: !TouchesRow(run.ops[p].path, r', run.replies(q).id)
  {
    hide Compiles, Assemble, ValidManifest, FoldDistinct, ValidRemote, RunTo, Serve, TouchesRow;
    CollectionIsCreation(m, remote, b, q, r);
    RanStep(run, q + 1, q);
    var id := run.replies(q).id;
    ServeNeedsFreshId(run.Remote(q), run.ops[q], run.Body(q), id, r, r');
    StartOfRun(run);
    if id in remote.Table(r') {
      forall k | 0 <= k < q ensures run.ops[k].verb != Delete {
        ChangesDoNotDelete(m, remote, b, k);
      }
      RowStays(run, q + 1, 0, q, r', id);
    }
    forall p | 0 <= p < |run.ops| ensures !TouchesRow(run.ops[p].path, r', id) {
      if TouchesRow(run.ops[p].path, r', id) {
        TouchedRow(m, remote, b, p, r', id);
      }
    }
  }

  lemma ServeCreates(s: Remote, op: Operation, body: Option<Dict>, id: string, r: Resource)
    requires op.verb == Post && op.path == Collection(r) && r != Memberships
    requires Serve(s, op.verb, op.path, body, id).Some?
    ensures var t := Serve(s, op.verb, op.path, body, id).value.Table(r);
      id in t && t[id] == AttributesOf(body)["id" := Str(id)]
  {
  }

  /** Once created, a row of a plain table stays exactly as it was created. */
  lemma CreatedRowStays(m: Manifest, remote: Remote, b: Blueprint, run: Run, n: nat, q: nat, r: Resource)
    requires Applies(m, remote, b, run) && run.Ran(n) && q < n && run.ops[q].path == Collection(r) && r != Memberships
    ensures run.replies(q).Accepted? && run.replies(q).id in run.Remote(n).Table(r)
    ensures run.Remote(n).Table(r)[run.replies(q).id] == AttributesOf(run.Body(q))["id" := Str(run.replies(q).id)]
  {
    hide ValidManifest, FoldDistinct, Compiles, ValidRemote, RunTo, Serve, ResolveBody, Assemble, TouchesRow;
    RanStep(run, n, q);
    CollectionIsCreation(m, remote, b, q, r);
    ServeCreates(run.Remote(q), run.ops[q], run.Body(q), run.replies(q).id, r);
    CreatedIdIsNew(m, remote, b, run, q, r, r);
    RowKept(run, n, q + 1, n, r, run.replies(q).id);
  }

  // ---- identities -----------------------------------------------------------------------------

  lemma IdentityNotManaged(r: Resource)
    requires r != Memberships
    ensures "id" !in ManagedFields(r) && IdentityField(r) !in ManagedFields(r)
    ensures "id" != "parent_entity_id" && IdentityField(r) != "parent_entity_id"
  {
  }

  /** The operation writes managed fields only, or is a move. */
  ghost predicate WritesManaged(r: Resource, op: Operation) {
    op.body.Some? && (op.path.MoveOf? || op.body.value.Keys <= ManagedFields(r))
  }

  lemma UpdateWritesManaged(r: Resource, identity: string, row: Dict, item: Dict, op: Operation)
    requires op in UpdateOf(r, identity, row, ManagedDiff(row, item, ManagedFields(r)))
    ensures WritesManaged(r, op)
  {
    hide Canonical, ManagedFields, RowDigest, ElementPath;
  }

  lemma EntityUpdateFields(c: Context, item: Dict, op: Operation)
    requires PlanEntity(c, item).Success? && op in PlanEntity(c, item).value.changes && op.action != CreateAction
    ensures WritesManaged(Entities, op)
  {
    hide Canonical, ManagedFields, ManagedDiff, UpdateOf, ParentValue, NameOf, RowDigest, Restrict;
    var row := c.entities[Fold(NameOf(Entities, item))];
    if op in UpdateOf(Entities, NameOf(Entities, item), row, ManagedDiff(row, item, ManagedFields(Entities))) {
      UpdateWritesManaged(Entities, NameOf(Entities, item), row, item, op);
    }
  }

  /** An update of a plain table writes managed fields only, a move the parent. */
  lemma UpdateFields(r: Resource, c: Context, item: Dict, op: Operation)
    requires PlanItem(r, c, item).Success? && op in PlanItem(r, c, item).value.changes && r != Memberships
    requires op.action != CreateAction
    ensures op.body.Some? && (op.path.MoveOf? || op.body.value.Keys <= ManagedFields(r))
  {
    hide Canonical, ManagedFields, ManagedDiff, PlanEntity, NameOf, RowDigest, Restrict, UpdateOf, EntityReference;
    var key := KeyOf(r, item);
    if r == Entities && Present(item) {
      EntityUpdateFields(c, item, op);
    } else if key in c.Current(r) {
      UpdateWritesManaged(r, NameOf(r, item), c.Current(r)[key], item, op);
    }
  }

  lemma NotCreation(m: Manifest, remote: Remote, b: Blueprint, q: nat, r: Resource, id: string)
    requires Compiles(m, remote, b) && q < |b.Ops()| && TouchesRow(b.Ops()[q].path, r, id)
    ensures b.Ops()[q].action != CreateAction
  {
    hide Compiles, Assemble, PlanItem;
    var r', i := OwnerOfOperation(m, remote, b, q);
  }

  /** Neither the id nor the identity of an existing row is ever rewritten. */
  lemma IdentityNotWritten(m: Manifest, remote: Remote, b: Blueprint, q: nat, r: Resource, id: string)
    requires Compiles(m, remote, b) && ValidRemote(remote) && q < |b.Ops()| && r != Memberships
    requires TouchesRow(b.Ops()[q].path, r, id)
    ensures !WritesField(b.Ops()[q], "id") && !WritesField(b.Ops()[q], IdentityField(r))
  {
    IdentityNotManaged(r);
    TouchedRow(m, remote, b, q, r, id);
    NotCreation(m, remote, b, q, r, id);
    if b.Ops()[q].body.Some? {
      var r', i := BodyOwner(m, remote, b, q);
      ItemOperations(r', b.c, b.Items(m, r')[i]);
      UpdateFields(r', b.c, b.Items(m, r')[i], b.Ops()[q]);
    } else {
      MovesHaveBodies(m, remote, b, q);
    }
  }

  lemma MovesHaveBodies(m: Manifest, remote: Remote, b: Blueprint, q: nat)
    requires Compiles(m, remote, b) && q < |b.Ops()| && b.Ops()[q].body == None
    ensures !b.Ops()[q].path.MoveOf?
  {
    hide Compiles, Assemble, PlanItem;
    var r', i := OwnerOfOperation(m, remote, b, q);
  }

  /** The field `f` of a creation's body is the item's own. */
  ghost predicate Carries(op: Operation, item: Dict, f: string) {
    op.body.Some? && f in op.body.value && f in item && op.body.value[f] == item[f]
  }

  lemma CreatedPermissionName(c: Context, item: Dict, op: Operation)
    requires PlanPermission(c, item).Success? && op in PlanPermission(c, item).value.changes
    requires op.action == CreateAction && "name" in item
    ensures Carries(op, item, "name")
  {
    hide ManagedDiff, ManagedFields, NameOf;
  }

  lemma CreatedEntitySlug(c: Context, item: Dict, op: Operation)
    requires PlanEntity(c, item).Success? && op in PlanEntity(c, item).value.changes && op.action == CreateAction
    requires "slug" in item
    ensures Carries(op, item, "slug")
  {
    hide ManagedDiff, ManagedFields, NameOf, ParentValue, Canonical;
  }

  lemma CreatedRoleName(c: Context, item: Dict, op: Operation)
    requires PlanRole(c, item).Success? && op in PlanRole(c, item).value.changes && op.action == CreateAction
    requires "name" in item
    ensures Carries(op, item, "name")
  {
    hide ManagedDiff, ManagedFields, NameOf, EntityReference;
  }

  lemma CreationCarriesIdentity(r: Resource, c: Context, item: Dict, op: Operation)
    requires PlanItem(r, c, item).Success? && op in PlanItem(r, c, item).value.changes && r != Memberships
    requires op.action == CreateAction && IdentityField(r) in item
    ensures Carries(op, item, IdentityField(r))
  {
    hide PlanPermission, PlanEntity, PlanRole, PlanMembership, PlanAbsent, Carries, WellShaped;
    if Present(item) {
      match r
      case Permissions => CreatedPermissionName(c, item, op);
      case Entities => CreatedEntitySlug(c, item, op);
      case Roles => CreatedRoleName(c, item, op);
    } else {
      AbsentChangesNothing(r, c, item);
    }
  }

  lemma AbsentChangesNothing(r: Resource, c: Context, item: Dict)
    ensures PlanAbsent(r, c, item).changes == []
  {
  }

  /** A created row is born with its item's identity. */
  lemma CreatedIdentity(r: Resource, c: Context, item: Dict, op: Operation, ids: Ids)
    requires PlanItem(r, c, item).Success? && op in PlanItem(r, c, item).value.changes && r != Memberships
    requires op.action == CreateAction && ValidItem(r, item) && ResolveBody(op.body, ids).Success?
    ensures var d := AttributesOf(ResolveBody(op.body, ids).value);
      IdentityField(r) in d && d[IdentityField(r)] == Get(item, IdentityField(r)) &&
        NonemptyText(Get(item, IdentityField(r)))
  {
    hide PlanItem;
    var f := IdentityField(r);
    assert IdentityFields(r)[0] == f && f in IdentityFields(r);
    CreationCarriesIdentity(r, c, item, op);
    ResolvedText(op.body.value, ids, f);
  }

  lemma ResolvedText(d: Dict, ids: Ids, f: string)
    requires f in d && d[f].Str? && ResolveDict(d, ids).Success?
    ensures f in ResolveDict(d, ids).value && ResolveDict(d, ids).value[f] == d[f]
  {
  }

  /** Slugs of declared entities carry no '@', so that a membership identity can be taken apart again. */
  ghost predicate PlainSlugs(m: Manifest) {
    forall item | item in m.entities :: '@' !in PyStr(Get(item, "slug"))
  }

  /** Where a row with this key comes from: the original store, or the one creation for the key. */
  ghost predicate Born(run: Run, n: nat, r: Resource, id: string, key: string)
    requires r != Memberships && n <= |run.ops|
  {
    || (id in run.start.remote.Table(r) && FoldedIdentity(r, run.start.remote.Table(r)[id]) == Some(key))
    || (exists q | 0 <= q < n :: CreatesKey(run.ops[q], r, key) && run.replies(q).Accepted? && run.replies(q).id == id)
  }

  lemma SameIdentity(r: Resource, id: string, row: Dict, row': Dict)
    requires r != Memberships && ValidRow(r, id, row)
    requires Get(row', "id") == Get(row, "id") && Get(row', IdentityField(r)) == Get(row, IdentityField(r))
    ensures ValidRow(r, id, row') && FoldedIdentity(r, row') == FoldedIdentity(r, row)
  {
    ValidRowIdentity(r, id, row);
    ValidRowIdentity(r, id, row');
  }

  lemma SurvivorField(m: Manifest, remote: Remote, b: Blueprint, run: Run, n: nat, r: Resource, id: string, f: string)
    requires Applies(m, remote, b, run) && run.Ran(n) && 0 < n && r != Memberships && f in {"id", IdentityField(r)}
    requires id in run.Remote(n - 1).Table(r) && id in run.Remote(n).Table(r)
    ensures Get(run.Remote(n).Table(r)[id], f) == Get(run.Remote(n - 1).Table(r)[id], f)
  {
    hide RunTo, Serve, Compiles, ValidManifest, FoldDistinct, WritesField, TouchesRow, Assemble, ResolveBody,
      ValidRemote;
    RanStep(run, n, n - 1);
    ResolvedKeys(run.ops[n - 1].body, run.At(n - 1).ids);
    if TouchesRow(run.ops[n - 1].path, r, id) {
      IdentityNotWritten(m, remote, b, n - 1, r, id);
    }
    SurvivorKeepsField(run.Remote(n - 1), run.ops[n - 1], run.Body(n - 1), run.replies(n - 1).id, r, id, f);
  }

  lemma SurvivorIdentity(m: Manifest, remote: Remote, b: Blueprint, run: Run, n: nat, r: Resource, id: string)
    requires Applies(m, remote, b, run) && run.Ran(n) && 0 < n && r != Memberships
    requires id in run.Remote(n - 1).Table(r) && id in run.Remote(n).Table(r)
    requires ValidRow(r, id, run.Remote(n - 1).Table(r)[id])
    ensures ValidRow(r, id, run.Remote(n).Table(r)[id])
    ensures FoldedIdentity(r, run.Remote(n).Table(r)[id]) == FoldedIdentity(r, run.Remote(n - 1).Table(r)[id])
  {
    SurvivorField(m, remote, b, run, n, r, id, "id");
    SurvivorField(m, remote, b, run, n, r, id, IdentityField(r));
    SameIdentity(r, id, run.Remote(n - 1).Table(r)[id], run.Remote(n).Table(r)[id]);
  }

  /** The item behind a creation. */
  lemma CreatedItem(m: Manifest, remote: Remote, b: Blueprint, q: nat, r: Resource, key: string) returns (i: nat)
    requires ValidManifest(m) && FoldDistinct(m) && Compiles(m, remote, b)
    requires q < |b.Ops()| && CreatesKey(b.Ops()[q], r, key)
    ensures i < |b.Items(m, r)| && b.Items(m, r)[i] in m.Items(r) && ValidItem(r, b.Items(m, r)[i])
    ensures Present(b.Items(m, r)[i]) && KeyOf(r, b.Items(m, r)[i]) == key && key !in b.c.Current(r)
    ensures PlanItem(r, b.c, b.Items(m, r)[i]).Success?
    ensures PlanItem(r, b.c, b.Items(m, r)[i]).value.changes == [b.Ops()[q]]
  {
    hide Compiles, ValidManifest, FoldDistinct, PlanItem, PlanItems, Assemble;
    i := CreationPlace(m, remote, b, q, r, key);
    var item := b.Items(m, r)[i];
    assert item in b.Items(m, r);
    SequenceMembers(m, remote, b, r, item);
    ManifestKeys(m, r, item);
  }

  lemma NewbornOperation(m: Manifest, remote: Remote, b: Blueprint, run: Run, n: nat, r: Resource, id: string)
    requires Applies(m, remote, b, run) && run.Ran(n) && 0 < n && r != Memberships
    requires id !in run.Remote(n - 1).Table(r) && id in run.Remote(n).Table(r)
    ensures CreatesKey(run.ops[n - 1], r, Fold(run.ops[n - 1].identity)) && run.replies(n - 1).Accepted?
    ensures run.replies(n - 1).id == id
    ensures run.Remote(n).Table(r)[id] == AttributesOf(run.Body(n - 1))["id" := Str(id)] && id != ""
  {
    hide RunTo, Serve, Compiles, ValidManifest, FoldDistinct, Assemble, ResolveBody, CreatesKey;
    RanStep(run, n, n - 1);
    ServeAddsRow(run.Remote(n - 1), run.ops[n - 1].verb, run.ops[n - 1].path, run.Body(n - 1), run.replies(n - 1).id, r,
      id);
    CollectionIsCreation(m, remote, b, n - 1, r);
  }

  lemma NewbornIdentity(m: Manifest, remote: Remote, b: Blueprint, run: Run, n: nat, r: Resource, id: string)
    requires Applies(m, remote, b, run) && PlainSlugs(m) && run.Ran(n) && 0 < n && r != Memberships
    requires id !in run.Remote(n - 1).Table(r) && id in run.Remote(n).Table(r)
    ensures CreatesKey(run.ops[n - 1], r, Fold(run.ops[n - 1].identity)) && run.replies(n - 1).Accepted?
    ensures run.replies(n - 1).id == id
    ensures ValidRow(r, id, run.Remote(n).Table(r)[id])
    ensures FoldedIdentity(r, run.Remote(n).Table(r)[id]) == Some(Fold(run.ops[n - 1].identity))
  {
    hide RunTo, Serve, Compiles, ValidManifest, FoldDistinct, FoldedIdentity, PlanItem, PlanItems, Resolve, ResolveDict;
    NewbornOperation(m, remote, b, run, n, r, id);
    RanStep(run, n, n - 1);
    CreatedRowIdentity(m, remote, b, n - 1, r, run.At(n - 1).ids, id);
  }

  /** Whatever id it gets, the row that a creation's resolved body makes bears the identity it was planned for. */
  lemma CreatedRowIdentity(m: Manifest, remote: Remote, b: Blueprint, q: nat, r: Resource, ids: Ids, id: string)
    requires ValidManifest(m) && FoldDistinct(m) && Compiles(m, remote, b) && PlainSlugs(m) && r != Memberships
    requires id != ""
    requires q < |b.Ops()| && CreatesKey(b.Ops()[q], r, Fold(b.Ops()[q].identity))
    requires ResolveBody(b.Ops()[q].body, ids).Success?
    ensures var row := AttributesOf(ResolveBody(b.Ops()[q].body, ids).value)["id" := Str(id)];
      ValidRow(r, id, row) && FoldedIdentity(r, row) == Some(Fold(b.Ops()[q].identity))
  {
    hide ValidManifest, FoldDistinct, Compiles, Assemble, PlanItem, PlanItems, ResolveBody, FoldedIdentity, ValidRow;
    var i := CreatedItem(m, remote, b, q, r, Fold(b.Ops()[q].identity));
    var item := b.Items(m, r)[i];
    CreatedIdentity(r, b.c, item, b.Ops()[q], ids);
    IdentityNotManaged(r);
    NewRowIdentity(r, AttributesOf(ResolveBody(b.Ops()[q].body, ids).value)["id" := Str(id)], id, item);
  }

  lemma NewRowIdentity(r: Resource, row: Dict, id: string, item: Dict)
    requires r != Memberships && id != "" && Get(row, "id") == Str(id)
    requires Get(row, IdentityField(r)) == Get(item, IdentityField(r)) && NonemptyText(Get(item, IdentityField(r)))
    requires r == Entities ==> '@' !in PyStr(Get(item, "slug"))
    ensures ValidRow(r, id, row) && FoldedIdentity(r, row) == Some(KeyOf(r, item))
  {
    ValidRowIdentity(r, id, row);
  }

  /** Every row of every state is well formed and has a known origin. */
  lemma {:induction false} RowAt(m: Manifest, remote: Remote, b: Blueprint, run: Run, n: nat, r: Resource, id: string)
    requires Applies(m, remote, b, run) && PlainSlugs(m) && run.Ran(n) && r != Memberships
    requires id in run.Remote(n).Table(r)
    ensures ValidRow(r, id, run.Remote(n).Table(r)[id])
    ensures FoldedIdentity(r, run.Remote(n).Table(r)[id]).Some?
    ensures Born(run, n, r, id, FoldedIdentity(r, run.Remote(n).Table(r)[id]).value)
    decreases n
  {
    hide Serve, FetchSnapshot, PlanItem, PlanItems, Compiles, ValidManifest, FoldDistinct, RunTo, FoldedIdentity,
      ResolveBody, CreatesKey;
    if n == 0 {
      StartOfRun(run);
      assert ValidTable(r, remote.Table(r));
      ValidRowIdentity(r, id, remote.Table(r)[id]);
    } else {
      RanStep(run, n, n - 1);
      if id in run.Remote(n - 1).Table(r) {
        RowAt(m, remote, b, run, n - 1, r, id);
        SurvivorIdentity(m, remote, b, run, n, r, id);
      } else {
        NewbornIdentity(m, remote, b, run, n, r, id);
      }
    }
  }

  lemma CreatedIsRead(m: Manifest, remote: Remote, b: Blueprint, q: nat, r: Resource, key: string)
    requires ValidManifest(m) && FoldDistinct(m) && Compiles(m, remote, b)
    requires q < |b.Ops()| && CreatesKey(b.Ops()[q], r, key)
    ensures Reads(m, r) && key !in b.c.Current(r)
  {
    hide Compiles, ValidManifest, FoldDistinct, PlanItem, PlanItems, Assemble;
    var i := CreatedItem(m, remote, b, q, r, key);
    assert m.Items(r) != [];
  }

  lemma StoredIsKnown(m: Manifest, remote: Remote, b: Blueprint, r: Resource, id: string, key: string)
    requires ValidRemote(remote) && Compiles(m, remote, b) && r != Memberships && Reads(m, r)
    requires id in remote.Table(r) && FoldedIdentity(r, remote.Table(r)[id]) == Some(key)
    ensures key in b.c.Current(r) && b.c.Current(r)[key] == remote.Table(r)[id] && RowId(b.c.Current(r)[key]) == id
  {
    hide Compiles, FoldedIdentity;
    ContextCurrent(m, remote, b, r);
    assert ValidTable(r, remote.Table(r));
    assert ValidRow(r, id, remote.Table(r)[id]);
  }

  lemma BirthUnique(m: Manifest, remote: Remote, b: Blueprint, run: Run, n: nat, r: Resource, id: string, id': string,
                    key: string)
    requires Applies(m, remote, b, run) && r != Memberships && n <= |run.ops|
    requires Born(run, n, r, id, key) && Born(run, n, r, id', key)
    ensures id == id'
  {
    hide Compiles, ValidManifest, FoldDistinct, FoldedIdentity, CreatesKey;
    assert ValidTable(r, remote.Table(r));
    if q :| 0 <= q < n && CreatesKey(run.ops[q], r, key) && run.replies(q).Accepted? && run.replies(q).id == id {
      CreatedIsRead(m, remote, b, q, r, key);
      if q' :|
        0 <= q' < n && CreatesKey(run.ops[q'], r, key) && run.replies(q').Accepted? && run.replies(q').id == id' {
        CreationUnique(m, remote, b, q, q', r, key);
      } else {
        StoredIsKnown(m, remote, b, r, id', key);
      }
    } else if q' :|
      0 <= q' < n && CreatesKey(run.ops[q'], r, key) && run.replies(q').Accepted? && run.replies(q').id == id' {
      CreatedIsRead(m, remote, b, q', r, key);
      StoredIsKnown(m, remote, b, r, id, key);
    }
  }

  /** Every state of the run keeps the tables well formed. */
  lemma TableStaysValid(m: Manifest, remote: Remote, b: Blueprint, run: Run, n: nat, r: Resource)
    requires Applies(m, remote, b, run) && PlainSlugs(m) && run.Ran(n) && r != Memberships
    ensures ValidTable(r, run.Remote(n).Table(r))
  {
    hide Applies, PlainSlugs, FoldedIdentity, RunTo, ValidRow;
    var t := run.Remote(n).Table(r);
    forall id | id in t ensures ValidRow(r, id, t[id]) {
      RowAt(m, remote, b, run, n, r, id);
    }
    forall id, id' | id in t && id' in t && FoldedIdentity(r, t[id]) == FoldedIdentity(r, t[id']) ensures id == id' {
      RowAt(m, remote, b, run, n, r, id);
      RowAt(m, remote, b, run, n, r, id');
      BirthUnique(m, remote, b, run, n, r, id, id', FoldedIdentity(r, t[id]).value);
    }
  }
}
