/** Every placeholder the planner writes names a row that an earlier operation of the same plan creates. */
module ReferenceSafety {
  import opened Outcomes
  import opened Text
  import opened JsonValues
  import opened Indexing
  import opened Manifests
  import opened RemoteStore
  import opened EntityOrder
  import opened Planner
  import opened PlanShape
  import opened SnapshotFacts
  import opened Executor
  import opened RunFacts
  import opened References

  /** The body fields the planner fills by looking identities up; every other field is copied from the manifest. */
  const LOOKED_UP: set<string> :=
    {"parent_entity_id", "new_parent_id", "root_entity_id", "scope_entity_id", "entity_id", "user_id", "role_ids"}

  ghost predicate IsRefTo(j: Json, r: Resource, key: string) {
    exists identity :: j == Ref(r, identity) && Fold(identity) == key
  }

  /** A value without placeholders, or a placeholder for something declared present that does not exist yet. */
  ghost predicate LookedUp(c: Context, r: Resource, j: Json) {
    j.Null? || j.Str? ||
    exists key :: IsRefTo(j, r, key) && key !in c.Current(r) && key in Declared(c, r)
  }

  function Declared(c: Context, r: Resource): set<string> {
    if r == Entities then c.presentEntities else if r == Roles then c.presentRoles else {}
  }

  ghost predicate IdsAreText(current: map<string, Dict>) {
    forall k | k in current :: Get(current[k], "id").Str?
  }

  ghost predicate TextContext(c: Context) {
    IdsAreText(c.entities) && IdsAreText(c.roles) && IdsAreText(c.users)
  }

  lemma LookupShape(c: Context, r: Resource, identity: string)
    requires r in {Entities, Roles} && IdsAreText(c.Current(r))
    requires LookupOrRef(r, identity, c.Current(r), Declared(c, r)).Success?
    ensures LookedUp(c, r, LookupOrRef(r, identity, c.Current(r), Declared(c, r)).value)
    ensures !LookupOrRef(r, identity, c.Current(r), Declared(c, r)).value.Null?
  {
    if Fold(identity) !in c.Current(r) {
      assert IsRefTo(Ref(r, identity), r, Fold(identity));
    }
  }

  /** Role lists hold no null. */
  ghost predicate LookedUpRole(c: Context, j: Json) {
    !j.Null? && LookedUp(c, Roles, j)
  }

  lemma {:induction false} RoleIdsShape(c: Context, roles: seq<Json>)
    requires (forall x <- roles :: x.Str?) && IdsAreText(c.roles) && RoleIds(c, roles).Success?
    ensures forall i | 0 <= i < |RoleIds(c, roles).value| :: LookedUpRole(c, RoleIds(c, roles).value[i])
  {
    if roles != [] {
      var n := |roles| - 1;
      assert roles[n] in roles;
      assert forall x <- roles[..n] :: x in roles;
      RoleIdsShape(c, roles[..n]);
      LookupShape(c, Roles, roles[n].s);
    }
  }

  /** The shape of the looked-up fields of a body. */
  ghost predicate LookedUpFields(c: Context, body: Dict) {
    forall f | f in body && f in LOOKED_UP ::
      if f == "role_ids" then
        body[f].List? && forall i | 0 <= i < |body[f].items| :: LookedUpRole(c, body[f].items[i])
      else LookedUp(c, Entities, body[f])
  }

  lemma ManagedNotLookedUp(r: Resource)
    ensures ManagedFields(r) !! LOOKED_UP && "name" !in LOOKED_UP && "slug" !in LOOKED_UP && "reason" !in LOOKED_UP
  {
    hide ManagedFields;
    if r == Entities {
      EntityFieldsNotLookedUp();
    } else {
      OtherFieldsNotLookedUp(r);
    }
  }

  lemma EntityFieldsNotLookedUp()
    ensures ManagedFields(Entities) !! LOOKED_UP
  {
  }

  lemma OtherFieldsNotLookedUp(r: Resource)
    requires r != Entities
    ensures ManagedFields(r) !! LOOKED_UP
  {
  }

  lemma PermissionBodies(c: Context, item: Dict)
    requires PlanPermission(c, item).Success?
    ensures forall op <- PlanPermission(c, item).value.changes :: LookedUpFields(c, op.body.value)
  {
    ManagedNotLookedUp(Permissions);
  }

  lemma ParentLookedUp(c: Context, item: Dict)
    requires ParentValue(c, item).Success? && TextContext(c)
    ensures LookedUp(c, Entities, ParentValue(c, item).value)
  {
    var parent := Get(item, "parent");
    if NonemptyText(parent) {
      LookupShape(c, Entities, parent.s);
    }
  }

  lemma EntityBodies(c: Context, item: Dict)
    requires PlanEntity(c, item).Success? && TextContext(c)
    ensures forall op <- PlanEntity(c, item).value.changes :: LookedUpFields(c, op.body.value)
  {
    hide ParentValue, LookedUp, ManagedFields, Canonical, NameOf, TextContext;
    ManagedNotLookedUp(Entities);
    ParentLookedUp(c, item);
  }

  lemma ReferenceShape(c: Context, value: Json)
    requires EntityReference(c, value).Success? && TextContext(c)
    ensures LookedUp(c, Entities, EntityReference(c, value).value)
  {
    if Truthy(value) {
      LookupShape(c, Entities, PyStr(value));
    }
  }

  lemma WithReferenceShape(c: Context, item: Dict, body: Dict, source: string, destination: string)
    requires WithReference(c, item, body, source, destination).Success? && TextContext(c)
    requires LookedUpFields(c, body) && destination in LOOKED_UP && destination != "role_ids"
    ensures LookedUpFields(c, WithReference(c, item, body, source, destination).value)
  {
    if source in item {
      ReferenceShape(c, item[source]);
    }
  }

  lemma RoleBodies(c: Context, item: Dict)
    requires PlanRole(c, item).Success? && TextContext(c)
    ensures forall op <- PlanRole(c, item).value.changes :: LookedUpFields(c, op.body.value)
  {
    ManagedNotLookedUp(Roles);
    var fields := Restrict(item, {"name"} + ManagedFields(Roles));
    assert LookedUpFields(c, fields);
    WithReferenceShape(c, item, fields, "root_entity", "root_entity_id");
    var rooted := WithReference(c, item, fields, "root_entity", "root_entity_id").value;
    WithReferenceShape(c, item, rooted, "scope_entity", "scope_entity_id");
  }

  ghost predicate LookedUpList(c: Context, j: Json) {
    j.List? && forall i | 0 <= i < |j.items| :: LookedUpRole(c, j.items[i])
  }

  lemma MembershipCreateShape(c: Context, user: Json, entity: Json, ids: Json, extra: Dict)
    requires LookedUp(c, Entities, user) && LookedUp(c, Entities, entity) && LookedUpList(c, ids)
    requires extra.Keys !! LOOKED_UP
    ensures LookedUpFields(c, map["user_id" := user, "entity_id" := entity, "role_ids" := ids] + extra)
  {
  }

  lemma MembershipUpdateShape(c: Context, ids: Json, body: Dict)
    requires LookedUpList(c, ids) && (forall f | f in body && f in LOOKED_UP :: f == "role_ids" && body[f] == ids)
    ensures LookedUpFields(c, body)
  {
  }

  lemma MembershipBodies(c: Context, item: Dict)
    requires PlanMembership(c, item).Success? && TextContext(c)
    ensures forall op <- PlanMembership(c, item).value.changes :: LookedUpFields(c, op.body.value)
  {
    hide LookedUp, LookedUpFields, Canonical, ManagedFields, NameOf, LookupOrRef, RoleIds;
    ManagedNotLookedUp(Memberships);
    var identity := NameOf(Memberships, item);
    var entity := LookupOrRef(Entities, PyStr(Get(item, "entity")), c.entities, c.presentEntities).value;
    var roles := DeclaredRoles(item);
    var ids := List(RoleIds(c, roles.items).value);
    LookupShape(c, Entities, PyStr(Get(item, "entity")));
    RoleIdsShape(c, roles.items);
    assert LookedUpList(c, ids);
    match Lookup(c.memberships, Fold(identity))
    case None =>
      var user := Get(c.users[UserKey(item)], "id");
      MembershipCreateShape(c, user, entity, ids, Restrict(item, ManagedFields(Memberships) + {"reason"}));
    case Some(row) =>
      var desired :=
        Restrict(item, ManagedFields(Memberships)) + if "roles" in item then map["role_ids" := ids] else map[];
      var changes := ManagedDiff(row, desired, desired.Keys);
      var reasoned := if changes != map[] && "reason" in item then changes["reason" := item["reason"]] else changes;
      MembershipUpdateShape(c, ids, reasoned);
  }

  lemma ItemBodies(r: Resource, c: Context, item: Dict)
    requires PlanItem(r, c, item).Success? && TextContext(c)
    ensures forall op <- PlanItem(r, c, item).value.changes :: op.body.Some? && LookedUpFields(c, op.body.value)
  {
    ItemOperations(r, c, item);
    if Present(item) {
      match r
      case Permissions => PermissionBodies(c, item);
      case Entities => EntityBodies(c, item);
      case Roles => RoleBodies(c, item);
      case Memberships => MembershipBodies(c, item);
    }
  }

  lemma IndexedIdsAreText(r: Resource, t: map<string, Dict>, current: map<string, Dict>)
    requires r != Memberships && ValidTable(r, t) && Indexes(r, t, current)
    ensures IdsAreText(current)
  {
    forall k | k in current ensures Get(current[k], "id").Str? {
      assert ValidRow(r, RowId(current[k]), t[RowId(current[k])]);
    }
  }

  lemma CurrentIdsAreText(m: Manifest, remote: Remote, b: Blueprint, r: Resource)
    requires Compiles(m, remote, b) && ValidRemote(remote) && r != Memberships
    ensures IdsAreText(b.c.Current(r))
  {
    ContextCurrent(m, remote, b, r);
    if Reads(m, r) {
      IndexedIdsAreText(r, remote.Table(r), b.c.Current(r));
    }
  }

  lemma UserIdsAreText(m: Manifest, remote: Remote, b: Blueprint)
    requires Compiles(m, remote, b) && ValidRemote(remote)
    ensures IdsAreText(b.c.users)
  {
    ContextUsers(m, remote, b.c);
  }

  lemma ContextIsText(m: Manifest, remote: Remote, b: Blueprint)
    requires Compiles(m, remote, b) && ValidRemote(remote)
    ensures TextContext(b.c)
  {
    CurrentIdsAreText(m, remote, b, Entities);
    CurrentIdsAreText(m, remote, b, Roles);
    UserIdsAreText(m, remote, b);
    assert b.c.Current(Entities) == b.c.entities && b.c.Current(Roles) == b.c.roles;
  }

  // ---- the creation comes first ---------------------------------------------------------------

  /** Operation `q` creates the named row. */
  predicate CreatesKey(op: Operation, r: Resource, key: string) {
    op.action == CreateAction && op.resource == r && Fold(op.identity) == key && op.verb == Post &&
      op.path == Collection(r)
  }

  lemma {:induction false} PresentMembers(items: seq<Dict>)
    ensures forall x :: x in PresentItems(items) <==> x in items && Present(x)
    ensures forall x :: x in AbsentItems(items) <==> x in items && !Present(x)
  {
    if items != [] {
      FrontMembers(items);
      PresentMembers(items[..|items| - 1]);
    }
  }

  /** Whatever key is declared present has an item in the planning order. */
  lemma DeclaredItem(m: Manifest, remote: Remote, b: Blueprint, r: Resource, key: string) returns (i: nat)
    requires Compiles(m, remote, b) && ValidManifest(m) && key in Declared(b.c, r)
    ensures i < |b.Items(m, r)| && Present(b.Items(m, r)[i]) && KeyOf(r, b.Items(m, r)[i]) == key
    ensures r == Entities ==> i < |TopologicalOrder(PresentItems(m.entities)).value|
  {
    hide FetchSnapshot, PlanItem, PlanItems, TopologicalOrder;
    if r == Roles {
      var item :| item in m.roles && Present(item) && Fold(NameOf(r, item)) == key;
      i :| 0 <= i < |m.roles| && m.roles[i] == item;
    } else {
      var item :| item in m.entities && Present(item) && Fold(NameOf(r, item)) == key;
      i := OrderedItem(m, item);
      var out := TopologicalOrder(PresentItems(m.entities)).value;
      assert b.sequence[i] == out[i];
    }
  }

  lemma PresentEntityKeys(m: Manifest, item: Dict)
    requires ValidManifest(m) && item in PresentItems(m.entities)
    ensures FoldedIdentity(Entities, item) == Some(KeyOf(Entities, item))
  {
    PresentMembers(m.entities);
    var j :| 0 <= j < |m.entities| && m.entities[j] == item;
    assert ValidGroup(Entities, m.Items(Entities));
    assert ValidItem(Entities, m.Items(Entities)[j]);
    ValidItemIdentity(Entities, item);
  }

  lemma OrderedItem(m: Manifest, item: Dict) returns (i: nat)
    requires ValidManifest(m) && item in m.entities && Present(item) && TopologicalOrder(PresentItems(m.entities)).Some?
    ensures var out := TopologicalOrder(PresentItems(m.entities)).value;
      i < |out| && Present(out[i]) && KeyOf(Entities, out[i]) == KeyOf(Entities, item)
  {
    hide TopologicalOrder, ValidManifest;
    var items := PresentItems(m.entities);
    var out := TopologicalOrder(items).value;
    PresentMembers(m.entities);
    PresentEntityKeys(m, item);
    IndexComplete(Keyed(Entities), items);
    IndexSound(Keyed(Entities), items);
    var found := Pending(items)[KeyOf(Entities, item)];
    OutputMembers(items);
    assert found in Pending(items).Values && found in out;
    i :| 0 <= i < |out| && out[i] == found;
    assert found in items;
  }

  /** An item that is declared present and does not exist is created at a known place. */
  lemma CreationOf(m: Manifest, remote: Remote, b: Blueprint, r: Resource, i: nat) returns (q: nat)
    requires Compiles(m, remote, b) && i < |b.Items(m, r)|
    requires Present(b.Items(m, r)[i]) && KeyOf(r, b.Items(m, r)[i]) !in b.c.Current(r)
    ensures PlanItems(r, b.c, b.Items(m, r)[..i]).Success? && PlanItems(r, b.c, b.Items(m, r)[..i + 1]).Success?
    ensures q == b.Base(r) + Offset(r, b.c, b.Items(m, r), i)
    ensures q + 1 == b.Base(r) + Offset(r, b.c, b.Items(m, r), i + 1)
    ensures q < b.ChangeCount() && q < |b.Ops()| && CreatesKey(b.Ops()[q], r, KeyOf(r, b.Items(m, r)[i]))
  {
    hide FetchSnapshot, MakeContext, PlanItem, PlanItems, Assemble;
    var items := b.Items(m, r);
    var lo, hi := SliceOfItem(r, b.c, items, i);
    ItemOperations(r, b.c, items[i]);
    var changes := PlanItem(r, b.c, items[i]).value.changes;
    assert changes[0] in changes;
    assert b.Group(r).changes[lo] == b.Group(r).changes[lo..hi][0];
    GroupPosition(b, r, lo);
    q := b.Base(r) + lo;
  }

  /** A placeholder for an entity or a role, written by a group that is planned after its group, is created earlier. */
  lemma EarlierGroup(m: Manifest, remote: Remote, b: Blueprint, r: Resource, key: string, p: nat) returns (q: nat)
    requires Compiles(m, remote, b) && ValidManifest(m) && r in {Entities, Roles}
    requires key in Declared(b.c, r) && key !in b.c.Current(r)
    requires b.Base(if r == Entities then Roles else Memberships) <= p < b.ChangeCount()
    ensures q < p && q < |b.Ops()| && CreatesKey(b.Ops()[q], r, key)
  {
    hide FetchSnapshot, MakeContext, PlanItem, PlanItems, Assemble;
    var i := DeclaredItem(m, remote, b, r, key);
    q := CreationOf(m, remote, b, r, i);
    OffsetsGrow(r, b.c, b.Items(m, r), i + 1, |b.Items(m, r)|);
    assert b.Items(m, r)[..|b.Items(m, r)|] == b.Items(m, r);
  }

  /** A parent placeholder is created by an earlier item of the topological order. */
  lemma EarlierParent(m: Manifest, remote: Remote, b: Blueprint, j: nat, key: string) returns (i: nat, q: nat)
    requires Compiles(m, remote, b) && ValidManifest(m)
    requires j < |b.sequence| && Present(b.sequence[j]) && ParentKey(b.sequence[j]) == Some(key)
    requires key in Declared(b.c, Entities) && key !in b.c.Current(Entities)
    ensures i < j && KeyOf(Entities, b.sequence[i]) == key && Present(b.sequence[i])
    ensures PlanItems(Entities, b.c, b.sequence[..j]).Success?
    ensures q < b.Base(Entities) + Offset(Entities, b.c, b.sequence, j)
    ensures q < |b.Ops()| && CreatesKey(b.Ops()[q], Entities, key)
  {
    hide FetchSnapshot, MakeContext, EntitySequence, ValidManifest, PlanItem, PlanItems, Assemble, ParentKey;
    i := DeclaredBefore(m, remote, b, j, key);
    q := CreationOf(m, remote, b, Entities, i);
    OffsetsGrow(Entities, b.c, b.sequence, i + 1, j);
  }

  lemma OrderedPresent(m: Manifest, b: Blueprint, j: nat)
    requires EntitySequence(m.entities) == Success(b.sequence) && j < |b.sequence| && Present(b.sequence[j])
    ensures var out := TopologicalOrder(PresentItems(m.entities));
      out.Some? && j < |out.value| && out.value[j] == b.sequence[j]
  {
    var out := TopologicalOrder(PresentItems(m.entities)).value;
    PresentMembers(m.entities);
    var absent := AbsentItems(m.entities);
    forall i | 0 <= i < |absent| ensures !Present(absent[i]) {
      assert absent[i] in absent;
    }
  }

  lemma DeclaredBefore(m: Manifest, remote: Remote, b: Blueprint, j: nat, key: string) returns (i: nat)
    requires Compiles(m, remote, b) && ValidManifest(m)
    requires j < |b.sequence| && Present(b.sequence[j]) && ParentKey(b.sequence[j]) == Some(key)
    requires key in Declared(b.c, Entities)
    ensures i < j && KeyOf(Entities, b.sequence[i]) == key && Present(b.sequence[i])
  {
    hide FetchSnapshot, PlanItem, PlanItems, TopologicalOrder;
    var items := PresentItems(m.entities);
    var out := TopologicalOrder(items).value;
    OrderedPresent(m, b, j);
    PresentMembers(m.entities);
    var item :| item in m.entities && Present(item) && Fold(NameOf(Entities, item)) == key;
    PresentEntityKeys(m, item);
    IndexComplete(Keyed(Entities), items);
    i := ParentBeforeChild(items, j);
    OutputMembers(items);
    IndexSound(Keyed(Entities), items);
    assert out[i] in out && out[i] in Pending(items).Values;
    assert out[i] in items;
    assert b.sequence[i] == out[i];
    PresentEntityKeys(m, out[i]);
  }

  /** `j` is the value of the looked-up field `f`, or one of a list of them. */
  ghost predicate Holds(body: Dict, f: string, j: Json) {
    f in body && f in LOOKED_UP && (body[f] == j || (body[f].List? && j in body[f].items))
  }

  lemma RefsDiffer(j: Json, r: Resource, key: string, r': Resource, key': string)
    requires IsRefTo(j, r, key) && IsRefTo(j, r', key')
    ensures r == r' && key == key'
  {
    var i, i' :| j == Ref(r, i) && Fold(i) == key && j == Ref(r', i') && Fold(i') == key';
    assert Ref(r, i).fields[0] == Ref(r', i').fields[0];
    assert Ref(r, i).fields[0].1.fields[0] == Ref(r', i').fields[0].1.fields[0];
    assert Ref(r, i).fields[0].1.fields[1] == Ref(r', i').fields[0].1.fields[1];
    ResourceNamesDiffer(r, r');
  }

  /** A placeholder in a planned body names something declared that does not exist; role placeholders occur in
      memberships only. */
  lemma HeldReference(rp: Resource, c: Context, item: Dict, op: Operation, f: string, j: Json, r: Resource, key: string)
    requires PlanItem(rp, c, item).Success? && TextContext(c) && op in PlanItem(rp, c, item).value.changes
    requires op.body.Some? && Holds(op.body.value, f, j) && IsRefTo(j, r, key)
    ensures r in {Entities, Roles} && key in Declared(c, r) && key !in c.Current(r)
    ensures r == Roles ==> f == "role_ids"
  {
    ItemBodies(rp, c, item);
    var body := op.body.value;
    var expected := if f == "role_ids" then Roles else Entities;
    if f == "role_ids" {
      var i :| 0 <= i < |body[f].items| && body[f].items[i] == j;
      assert LookedUp(c, Roles, j);
    } else {
      assert LookedUp(c, Entities, j);
    }
    var key' :| IsRefTo(j, expected, key') && key' !in c.Current(expected) && key' in Declared(c, expected);
    RefsDiffer(j, r, key, expected, key');
  }

  ghost predicate ListsNoRoles(op: Operation) {
    op.body.Some? ==> "role_ids" !in op.body.value
  }

  lemma PermissionsLookNothingUp(c: Context, item: Dict)
    requires PlanPermission(c, item).Success?
    ensures forall op <- PlanPermission(c, item).value.changes :: op.body.Some? ==> op.body.value.Keys !! LOOKED_UP
  {
    hide Canonical, NameOf, ManagedFields, RowDigest;
    ManagedNotLookedUp(Permissions);
  }

  lemma EntitiesListNoRoles(c: Context, item: Dict)
    requires PlanEntity(c, item).Success?
    ensures forall op <- PlanEntity(c, item).value.changes :: ListsNoRoles(op)
  {
    hide Canonical, NameOf, ManagedFields, ParentValue, RowDigest;
    ManagedNotLookedUp(Entities);
  }

  lemma RolesListNoRoles(c: Context, item: Dict)
    requires PlanRole(c, item).Success?
    ensures forall op <- PlanRole(c, item).value.changes :: ListsNoRoles(op)
  {
    hide Canonical, NameOf, ManagedFields, EntityReference, RowDigest;
    ManagedNotLookedUp(Roles);
  }

  lemma OnlyMembershipsListRoles(rp: Resource, c: Context, item: Dict)
    requires PlanItem(rp, c, item).Success?
    ensures forall op <- PlanItem(rp, c, item).value.changes :: rp != Memberships && op.body.Some? ==>
      "role_ids" !in op.body.value
    ensures rp == Permissions ==> forall op <- PlanItem(rp, c, item).value.changes :: op.body.Some? ==>
      op.body.value.Keys !! LOOKED_UP
  {
    hide PlanPermission, PlanEntity, PlanRole, PlanMembership;
    if Present(item) {
      match rp
      case Permissions => PermissionsLookNothingUp(c, item);
      case Entities => EntitiesListNoRoles(c, item);
      case Roles => RolesListNoRoles(c, item);
      case Memberships =>
    }
  }

  lemma PlansEntity(c: Context, item: Dict)
    requires PlanItem(Entities, c, item).Success? && Present(item)
    ensures PlanEntity(c, item) == PlanItem(Entities, c, item)
  {
    hide PlanEntity, PlanAbsent;
  }

  lemma EntityLookedUpField(c: Context, item: Dict, op: Operation, f: string)
    requires PlanItem(Entities, c, item).Success? && op in PlanItem(Entities, c, item).value.changes
    requires op.body.Some? && f in op.body.value && f in LOOKED_UP
    ensures Present(item) && ParentValue(c, item).Success? && op.body.value[f] == ParentValue(c, item).value
  {
    ManagedNotLookedUp(Entities);
  }

  lemma ReferredParent(c: Context, item: Dict, key: string)
    requires ParentValue(c, item).Success? && IsRefTo(ParentValue(c, item).value, Entities, key)
    requires IdsAreText(c.entities)
    ensures ParentKey(item) == Some(key)
  {
    var parent := Get(item, "parent");
    assert IsRefTo(Ref(Entities, parent.s), Entities, Fold(parent.s));
    RefsDiffer(ParentValue(c, item).value, Entities, key, Entities, Fold(parent.s));
  }

  /** An operation with a body stems from a present item. */
  lemma BodyOwner(m: Manifest, remote: Remote, b: Blueprint, p: nat) returns (r: Resource, i: nat)
    requires Compiles(m, remote, b) && p < |b.Ops()| && b.Ops()[p].body.Some?
    ensures p < b.ChangeCount() && i < |b.Items(m, r)|
    ensures PlanItems(r, b.c, b.Items(m, r)[..i]).Success? && PlanItem(r, b.c, b.Items(m, r)[i]).Success?
    ensures b.Base(r) + Offset(r, b.c, b.Items(m, r), i) <= p
    ensures b.Ops()[p] in PlanItem(r, b.c, b.Items(m, r)[i]).value.changes
  {
    assert p < b.ChangeCount() by {
      if b.ChangeCount() <= p {
        DeletesCarryNoBody(m, remote, b, p);
      }
    }
    r := ChangePosition(b, p);
    i := OwnerOfPosition(r, b.c, b.Items(m, r), p - b.Base(r));
  }

  lemma EntityPlaceholder(m: Manifest, remote: Remote, b: Blueprint, i: nat, op: Operation, f: string, j: Json,
                          key: string)
    returns (q: nat)
    requires Compiles(m, remote, b) && ValidManifest(m) && TextContext(b.c) && i < |b.sequence|
    requires PlanItem(Entities, b.c, b.sequence[i]).Success?
    requires op in PlanItem(Entities, b.c, b.sequence[i]).value.changes
    requires op.body.Some? && Holds(op.body.value, f, j) && IsRefTo(j, Entities, key)
    requires key in Declared(b.c, Entities) && key !in b.c.Current(Entities)
    ensures PlanItems(Entities, b.c, b.sequence[..i]).Success?
    ensures q < b.Base(Entities) + Offset(Entities, b.c, b.sequence, i) && q < |b.Ops()|
    ensures CreatesKey(b.Ops()[q], Entities, key)
  {
    hide Compiles, ValidManifest, PlanEntity, PlanItems, Assemble, ParentKey;
    EntityLookedUpField(b.c, b.sequence[i], op, f);
    PlansEntity(b.c, b.sequence[i]);
    EntityBodies(b.c, b.sequence[i]);
    ReferredParent(b.c, b.sequence[i], key);
    var _, q' := EarlierParent(m, remote, b, i, key);
    q := q';
  }

  lemma PlannedAfter(m: Manifest, b: Blueprint, rp: Resource, i: nat, op: Operation, f: string, r: Resource, p: nat)
    requires i < |b.Items(m, rp)| && PlanItem(rp, b.c, b.Items(m, rp)[i]).Success?
    requires op in PlanItem(rp, b.c, b.Items(m, rp)[i]).value.changes && b.Base(rp) <= p
    requires op.body.Some? && f in op.body.value && f in LOOKED_UP && r in {Entities, Roles}
    requires (r == Roles ==> f == "role_ids")
    ensures rp == Entities ==> r == Entities
    ensures rp != Entities ==> b.Base(if r == Entities then Roles else Memberships) <= p
  {
    OnlyMembershipsListRoles(rp, b.c, b.Items(m, rp)[i]);
  }

  /** Reference safety of a plan: whatever placeholder a looked-up field holds, its row is created strictly earlier. */
  lemma PlaceholderCreatedEarlier(m: Manifest, remote: Remote, ops: seq<Operation>, p: nat, f: string, j: Json,
                                  r: Resource, key: string)
    returns (q: nat)
    requires ValidManifest(m) && ValidRemote(remote) && Plan(m, remote) == Success(ops)
    requires p < |ops| && ops[p].body.Some? && Holds(ops[p].body.value, f, j) && IsRefTo(j, r, key)
    ensures q < p && CreatesKey(ops[q], r, key)
  {
    var b := PlanCompiles(m, remote);
    ContextIsText(m, remote, b);
    var rp, i := BodyOwner(m, remote, b, p);
    HeldReference(rp, b.c, b.Items(m, rp)[i], ops[p], f, j, r, key);
    PlannedAfter(m, b, rp, i, ops[p], f, r, p);
    if rp == Entities {
      q := EntityPlaceholder(m, remote, b, i, ops[p], f, j, key);
    } else {
      q := EarlierGroup(m, remote, b, r, key, p);
    }
  }

  lemma DeletesCarryNoBody(m: Manifest, remote: Remote, b: Blueprint, p: nat)
    requires Compiles(m, remote, b) && b.ChangeCount() <= p < |b.Ops()|
    ensures b.Ops()[p].body == None && b.Ops()[p].verb == Delete
  {
    hide FetchSnapshot, MakeContext, EntitySequence, PlanItem, PlanItems, Assemble;
    var r := DeletePosition(b, p);
    var i := OwnerOfDelete(r, b.c, b.Items(m, r), b.Ops()[p]);
    ItemOperations(r, b.c, b.Items(m, r)[i]);
  }

  // ---- so looked-up fields always resolve -----------------------------------------------------

  /** The server returns the id of everything it creates. */
  ghost predicate Echoes(run: Run) {
    forall i: nat | i < |run.ops| && run.replies(i).Accepted? :: run.replies(i).echoed
  }

  lemma KnownOnceCreated(run: Run, n: nat, q: nat, r: Resource, key: string)
    requires run.Ran(n) && q < n && Echoes(run) && CreatesKey(run.ops[q], r, key)
    ensures IdFor(run.At(n).ids, ResourceName(r), key).Some?
  {
    RanStep(run, n, q);
    LearnFrame(run.At(q).ids, run.ops[q], run.replies(q), ResourceName(r), key);
    IdsStayKnown(run, n, q + 1, n, ResourceName(r), key);
  }

  lemma ResolveRef(r: Resource, identity: string, ids: Ids)
    ensures Resolve(Ref(r, identity), ids) ==
      match IdFor(ids, ResourceName(r), Fold(identity))
      case None => Failure(UnresolvedReference(ResourceName(r), identity))
      case Some(id) => Success(Str(id))
  {
    var fields := [("resource", Str(ResourceName(r))), ("identity", Str(identity))];
    assert FieldOf(fields, "resource") == Str(ResourceName(r));
    assert fields[1..] == [("identity", Str(identity))];
    assert FieldOf(fields, "identity") == FieldOf(fields[1..], "identity") == Str(identity);
  }

  lemma LookedUpResolves(c: Context, r: Resource, j: Json, ids: Ids)
    requires LookedUp(c, r, j)
    requires forall key | IsRefTo(j, r, key) :: IdFor(ids, ResourceName(r), key).Some?
    ensures Resolve(j, ids).Success?
  {
    if !j.Null? && !j.Str? {
      var key :| IsRefTo(j, r, key);
      var identity :| j == Ref(r, identity) && Fold(identity) == key;
      ResolveRef(r, identity, ids);
    }
  }

  lemma {:induction false} ItemsResolve(j: Json, n: nat, ids: Ids)
    requires j.List? && n <= |j.items| && forall i | 0 <= i < n :: Resolve(j.items[i], ids).Success?
    ensures ResolveItems(j, n, ids).Success?
    decreases n
  {
    if n > 0 {
      ItemsResolve(j, n - 1, ids);
    }
  }

  lemma PlaceholderKnown(m: Manifest, remote: Remote, run: Run, p: nat, f: string, j: Json, r: Resource, key: string)
    requires ValidManifest(m) && ValidRemote(remote) && Plan(m, remote) == Success(run.ops)
    requires p < |run.ops| && run.Ran(p) && Echoes(run)
    requires run.ops[p].body.Some? && Holds(run.ops[p].body.value, f, j) && IsRefTo(j, r, key)
    ensures IdFor(run.At(p).ids, ResourceName(r), key).Some?
  {
    var q := PlaceholderCreatedEarlier(m, remote, run.ops, p, f, j, r, key);
    KnownOnceCreated(run, p, q, r, key);
  }

  lemma PlannedBodyShape(m: Manifest, remote: Remote, ops: seq<Operation>, p: nat) returns (b: Blueprint)
    requires ValidRemote(remote) && Plan(m, remote) == Success(ops)
    requires p < |ops| && ops[p].body.Some?
    ensures Compiles(m, remote, b) && b.Ops() == ops && TextContext(b.c) && LookedUpFields(b.c, ops[p].body.value)
  {
    b := PlanCompiles(m, remote);
    ContextIsText(m, remote, b);
    var r, i := BodyOwner(m, remote, b, p);
    ItemBodies(r, b.c, b.Items(m, r)[i]);
  }

  lemma HeldValueResolves(m: Manifest, remote: Remote, run: Run, p: nat, c: Context, f: string, j: Json, r: Resource)
    requires ValidManifest(m) && ValidRemote(remote) && Plan(m, remote) == Success(run.ops)
    requires p < |run.ops| && run.Ran(p) && Echoes(run)
    requires run.ops[p].body.Some? && Holds(run.ops[p].body.value, f, j) && LookedUp(c, r, j)
    ensures Resolve(j, run.At(p).ids).Success?
  {
    forall key | IsRefTo(j, r, key) ensures IdFor(run.At(p).ids, ResourceName(r), key).Some? {
      PlaceholderKnown(m, remote, run, p, f, j, r, key);
    }
    LookedUpResolves(c, r, j, run.At(p).ids);
  }

  /** At its turn, each looked-up field of each operation resolves, whatever the server's tables look like by then. */
  lemma LookedUpFieldResolves(m: Manifest, remote: Remote, run: Run, p: nat, f: string)
    requires ValidManifest(m) && ValidRemote(remote) && Plan(m, remote) == Success(run.ops)
    requires p < |run.ops| && run.Ran(p) && Echoes(run)
    requires run.ops[p].body.Some? && f in run.ops[p].body.value && f in LOOKED_UP
    ensures Resolve(run.ops[p].body.value[f], run.At(p).ids).Success?
  {
    var value := run.ops[p].body.value[f];
    var b := PlannedBodyShape(m, remote, run.ops, p);
    if f == "role_ids" {
      forall k | 0 <= k < |value.items| ensures Resolve(value.items[k], run.At(p).ids).Success? {
        assert LookedUpRole(b.c, value.items[k]);
        HeldValueResolves(m, remote, run, p, b.c, f, value.items[k], Roles);
      }
      ListResolves(value, run.At(p).ids);
    } else {
      HeldValueResolves(m, remote, run, p, b.c, f, value, Entities);
    }
  }

  lemma ListResolves(j: Json, ids: Ids)
    requires j.List? && forall i | 0 <= i < |j.items| :: Resolve(j.items[i], ids).Success?
    ensures Resolve(j, ids).Success?
  {
    ItemsResolve(j, |j.items|, ids);
  }

  /** Resolving fails at an operation exactly when a value the manifest itself supplied holds a placeholder that does
      not resolve: the planner's own placeholders never fail. */
  lemma ResolutionFailsIff(m: Manifest, remote: Remote, run: Run, p: nat)
    requires ValidManifest(m) && ValidRemote(remote) && Plan(m, remote) == Success(run.ops)
    requires p < |run.ops| && run.Ran(p) && Echoes(run)
    ensures ResolveBody(run.ops[p].body, run.At(p).ids).Failure? <==>
      run.ops[p].body.Some? &&
      exists f ::
        f in run.ops[p].body.value && f !in LOOKED_UP && Resolve(run.ops[p].body.value[f], run.At(p).ids).Failure?
  {
    if run.ops[p].body.Some? {
      var body, ids := run.ops[p].body.value, run.At(p).ids;
      forall f | f in body && f in LOOKED_UP ensures Resolve(body[f], ids).Success? {
        LookedUpFieldResolves(m, remote, run, p, f);
      }
      if f :| f in Unresolvable(body, ids) {
        assert f !in LOOKED_UP;
      }
    }
  }

  /** The manifest's own values hold no placeholder. */
  ghost predicate PlainLiterals(ops: seq<Operation>) {
    forall p, f | 0 <= p < |ops| && ops[p].body.Some? && f in ops[p].body.value && f !in LOOKED_UP ::
      RefFree(ops[p].body.value[f])
  }

  lemma StepFails(run: Run, p: nat)
    requires p < |run.ops| && run.Ran(p)
    ensures ResolveBody(run.ops[p].body, run.At(p).ids).Success? && run.At(p + 1).failure.Some? ==>
      run.At(p + 1).failure.value.RequestFailed?
  {
  }

  /** With plain literals a run only ever stops because the server refused a request. */
  lemma PlainPlanNeverFailsToResolve(m: Manifest, remote: Remote, run: Run, p: nat)
    requires ValidManifest(m) && ValidRemote(remote) && Plan(m, remote) == Success(run.ops)
    requires p < |run.ops| && run.Ran(p) && Echoes(run) && PlainLiterals(run.ops)
    ensures run.At(p + 1).failure.Some? ==> run.At(p + 1).failure.value.RequestFailed?
  {
    ResolutionFailsIff(m, remote, run, p);
    if run.ops[p].body.Some? {
      var body, ids := run.ops[p].body.value, run.At(p).ids;
      forall f | f in body && f !in LOOKED_UP ensures Resolve(body[f], ids).Success? {
        RefFreeResolves(body[f], ids);
      }
    }
    StepFails(run, p);
  }

  // ---- for whole plans ------------------------------------------------------------------------

  ghost predicate CreatedBefore(ops: seq<Operation>, p: nat, r: Resource, key: string)
    requires p <= |ops|
  {
    exists q | 0 <= q < p :: CreatesKey(ops[q], r, key)
  }

  /** Every placeholder in a looked-up field names a row that a strictly earlier operation creates. */
  ghost predicate ReferenceSafe(ops: seq<Operation>) {
    forall p, f, j, r, key |
      0 <= p < |ops| && ops[p].body.Some? && Holds(ops[p].body.value, f, j) && IsRefTo(j, r, key) ::
      CreatedBefore(ops, p, r, key)
  }

  /** Reference safety: whatever plan the planner makes. */
  lemma PlansAreReferenceSafe(m: Manifest, remote: Remote, ops: seq<Operation>)
    requires ValidManifest(m) && ValidRemote(remote) && Plan(m, remote) == Success(ops)
    ensures ReferenceSafe(ops)
  {
    hide ValidManifest, ValidRemote, Plan, Holds, IsRefTo, CreatesKey;
    forall p, f, j, r, key | 0 <= p < |ops| && ops[p].body.Some? && Holds(ops[p].body.value, f, j) && IsRefTo(j, r, key)
      ensures CreatedBefore(ops, p, r, key)
    {
      var q := PlaceholderCreatedEarlier(m, remote, ops, p, f, j, r, key);
    }
  }

  /** With plain literals only a refusal stops a run. */
  lemma OnlyRefusalsStopPlainRuns(m: Manifest, remote: Remote, run: Run)
    requires ValidManifest(m) && ValidRemote(remote) && Plan(m, remote) == Success(run.ops)
    requires Echoes(run) && PlainLiterals(run.ops)
    ensures forall p | 0 <= p < |run.ops| && run.Ran(p) && run.At(p + 1).failure.Some? ::
      run.At(p + 1).failure.value.RequestFailed?
  {
    hide ValidManifest, ValidRemote, Plan, Echoes, PlainLiterals, RunTo;
    forall p | 0 <= p < |run.ops| && run.Ran(p) && run.At(p + 1).failure.Some?
      ensures run.At(p + 1).failure.value.RequestFailed?
    {
      PlainPlanNeverFailsToResolve(m, remote, run, p);
    }
  }
}
