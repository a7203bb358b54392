/** What each operation of a plan sends, said of manifest and store: every field of every body, and nothing else. */
module PlannedRequests {
  import opened Outcomes
  import opened Text
  import opened JsonValues
  import opened Manifests
  import opened RemoteStore
  import opened Planner
  import opened PlanShape
  import opened SnapshotFacts
  import opened ReferenceSafety
  import opened Convergence
  import opened FinalMemberships
  import opened SecondPlan
  import opened MembershipsAgain
  import opened Drift
  import opened DriftExactness
  import opened DeclaredState

  // ---- what is meant to be sent ---------------------------------------------------------------

  /** The value names the row: its id where it is stored, the placeholder for it where it is still to be created. */
  ghost predicate RefersTo(remote: Remote, r: Resource, identity: string, j: Json) {
    match RowBehind(remote, r, Fold(identity))
    case Some(row) => j == Get(row, "id")
    case None => j == Obj([("$outlabs_ref", Obj([("resource", Str(ResourceName(r))), ("identity", Str(identity))]))])
  }

  /** Null, unless the item names a parent. */
  ghost predicate ParentSent(remote: Remote, item: Dict, j: Json) {
    if NonemptyText(Get(item, "parent")) then RefersTo(remote, Entities, Get(item, "parent").s, j) else j == Null
  }

  /** The body carries these fields of the item as they are. */
  predicate Copies(item: Dict, fields: set<string>, body: Dict) {
    forall f | f in fields :: (f in body <==> f in item) && (f in item ==> f in body && body[f] == item[f])
  }

  /** A field of the item that names an entity is sent under another name, and only if it is there. */
  ghost predicate ReferenceSent(remote: Remote, item: Dict, source: string, body: Dict, destination: string) {
    if source !in item then destination !in body
    else
      && destination in body
      && if Truthy(item[source]) then RefersTo(remote, Entities, PyStr(item[source]), body[destination])
         else body[destination] == Null
  }

  /** One reference for each declared role, in order. */
  ghost predicate RolesSent(remote: Remote, item: Dict, j: Json) {
    var roles := if "roles" in item then item["roles"] else List([]);
    && roles.List? && j.List? && |j.items| == |roles.items|
    && forall i | 0 <= i < |roles.items| ::
         roles.items[i].Str? && RefersTo(remote, Roles, roles.items[i].s, j.items[i])
  }

  ghost predicate UserSent(remote: Remote, item: Dict, j: Json) {
    exists u :: u in remote.users && EmailKey(remote.users[u]) == Some(UserKey(item)) && j == Str(u)
  }

  /** The body that creates the item's row. */
  ghost predicate Creates(remote: Remote, r: Resource, item: Dict, body: Dict) {
    match r
    case Permissions =>
      body.Keys <= {"name"} + ManagedFields(r) && Copies(item, {"name"} + ManagedFields(r), body)
    case Entities =>
      && body.Keys <= {"slug", "parent_entity_id"} + ManagedFields(r) && Copies(item, {"slug"} + ManagedFields(r), body)
      && ("parent_entity_id" in body <==> Get(item, "parent") != Null)
      && ("parent_entity_id" in body ==> ParentSent(remote, item, body["parent_entity_id"]))
    case Roles =>
      && body.Keys <= {"name", "root_entity_id", "scope_entity_id"} + ManagedFields(r)
      && Copies(item, {"name"} + ManagedFields(r), body)
      && ReferenceSent(remote, item, "root_entity", body, "root_entity_id")
      && ReferenceSent(remote, item, "scope_entity", body, "scope_entity_id")
    case Memberships =>
      && body.Keys <= {"user_id", "entity_id", "role_ids", "reason"} + ManagedFields(r)
      && Copies(item, {"reason"} + ManagedFields(r), body)
      && {"user_id", "entity_id", "role_ids"} <= body.Keys
      && UserSent(remote, item, body["user_id"])
      && RefersTo(remote, Entities, PyStr(Get(item, "entity")), body["entity_id"])
      && RolesSent(remote, item, body["role_ids"])
  }

  /** The declared value of a managed field differs from the stored one. */
  predicate Differs(row: Dict, item: Dict, f: string) {
    f in item && Canonical(Get(row, f)) != Canonical(item[f])
  }

  /** The roles are declared and differ from the stored ones. */
  ghost predicate RolesDiffer(remote: Remote, row: Dict, item: Dict) {
    "roles" in item &&
    exists j :: RolesSent(remote, item, j) && Canonical(Get(row, "role_ids")) != Canonical(j)
  }

  /** The body that updates the item's row: exactly the fields that differ, and with them the reason for it. */
  ghost predicate Updates(remote: Remote, r: Resource, item: Dict, row: Dict, body: Dict) {
    && (forall f | f in ManagedFields(r) :: f in body <==> Differs(row, item, f))
    && (forall f | f in ManagedFields(r) && f in body :: f in item && body[f] == item[f])
    && (r != Memberships ==> body != map[] && body.Keys <= ManagedFields(r))
    && (r == Memberships ==>
          && body.Keys <= ManagedFields(r) + {"role_ids", "reason"} && body.Keys - {"reason"} != {}
          && ("role_ids" in body <==> RolesDiffer(remote, row, item))
          && ("role_ids" in body ==> RolesSent(remote, item, body["role_ids"]))
          && Copies(item, {"reason"}, body))
  }

  /** The body that moves the item's entity. */
  ghost predicate MovesTo(remote: Remote, item: Dict, row: Dict, body: Dict) {
    && body.Keys == {"new_parent_id"} && "parent" in item && ParentSent(remote, item, body["new_parent_id"])
    && Canonical(Get(row, "parent_entity_id")) != Canonical(body["new_parent_id"])
  }

  /** Where a stored row is addressed. */
  function AddressOf(r: Resource, row: Dict): Path {
    if r == Memberships then MembershipOf(PyStr(Get(row, "entity_id")), PyStr(Get(row, "user_id")))
    else Element(r, PyStr(Get(row, "id")))
  }

  /** The operation is one the item calls for, in all its parts; only deletions count as destructive. */
  ghost predicate Intended(remote: Remote, r: Resource, item: Dict, op: Operation) {
    && op.resource == r && op.identity == NameOf(r, item)
    && op.before == RowBehind(remote, r, KeyOf(r, item)) && op.beforeHash == DigestOf(op.before)
    && (op.destructive <==> op.verb == Delete)
    && match op.action
       case CreateAction =>
         && Present(item) && op.before == None && op.verb == Post && op.path == Collection(r)
         && op.body.Some? && Creates(remote, r, item, op.body.value)
       case UpdateAction =>
         && Present(item) && op.before.Some? && op.verb == Patch && op.path == AddressOf(r, op.before.value)
         && op.body.Some? && Updates(remote, r, item, op.before.value, op.body.value)
       case MoveAction =>
         && Present(item) && r == Entities && op.before.Some? && op.verb == Post
         && op.path == MoveOf(PyStr(Get(op.before.value, "id")))
         && op.body.Some? && MovesTo(remote, item, op.before.value, op.body.value)
       case DeleteAction =>
         && !Present(item) && op.before.Some? && op.verb == Delete && op.path == AddressOf(r, op.before.value)
         && op.body == None
  }

  // ---- references -----------------------------------------------------------------------------

  lemma LookupRefers(m: Manifest, remote: Remote, c: Context, r: Resource, identity: string)
    requires Readable(m, remote, c) && r in {Entities, Roles} && Reads(m, r)
    requires LookupOrRef(r, identity, c.Current(r), Declared(c, r)).Success?
    ensures forall j :: RefersTo(remote, r, identity, j) <==>
      j == LookupOrRef(r, identity, c.Current(r), Declared(c, r)).value
  {
    hide Readable, RowBehind, Reads, ResourceName;
    NamedRow(m, remote, c, r, Fold(identity));
  }

  lemma ParentRefers(m: Manifest, remote: Remote, c: Context, item: Dict)
    requires Readable(m, remote, c) && item in m.entities && ParentValue(c, item).Success?
    ensures forall j :: ParentSent(remote, item, j) <==> j == ParentValue(c, item).value
  {
    hide Readable, RefersTo, LookupOrRef;
    if NonemptyText(Get(item, "parent")) {
      assert Reads(m, Entities);
      LookupRefers(m, remote, c, Entities, Get(item, "parent").s);
    }
  }

  lemma EntityRefers(m: Manifest, remote: Remote, c: Context, item: Dict, f: string)
    requires Readable(m, remote, c) && item in m.roles && f in {"root_entity", "scope_entity"} && f in item
    requires EntityReference(c, item[f]).Success? && Truthy(item[f])
    ensures RefersTo(remote, Entities, PyStr(item[f]), EntityReference(c, item[f]).value)
  {
    hide Readable, RefersTo, LookupOrRef;
    assert Get(item, f) == item[f];
    assert Reads(m, Entities);
    LookupRefers(m, remote, c, Entities, PyStr(item[f]));
  }

  lemma RolesRefer(m: Manifest, remote: Remote, c: Context, item: Dict)
    requires Readable(m, remote, c) && item in m.memberships && PlannedRoleIds(c, item).Success?
    ensures forall j :: RolesSent(remote, item, j) <==> j == List(PlannedRoleIds(c, item).value)
  {
    hide Readable, RefersTo, LookupOrRef, RoleIds;
    var roles := DeclaredRoles(item).items;
    var ids := PlannedRoleIds(c, item).value;
    assert Reads(m, Roles);
    RoleIdsAt(c, roles);
    forall i | 0 <= i < |roles|
      ensures roles[i].Str? && forall j :: RefersTo(remote, Roles, roles[i].s, j) <==> j == ids[i]
    {
      assert roles[i] in roles;
      LookupRefers(m, remote, c, Roles, roles[i].s);
    }
    forall j | RolesSent(remote, item, j) ensures j == List(ids) {
      assert j.items == ids;
    }
  }

  // ---- one item -------------------------------------------------------------------------------

  lemma PermissionCreates(c: Context, item: Dict)
    requires Present(item) && PlanItem(Permissions, c, item).Success? && KeyOf(Permissions, item) !in c.permissions
    ensures var changes := PlanItem(Permissions, c, item).value.changes;
      && |changes| == 1 && changes[0].body.Some? && !changes[0].destructive
      && changes[0].body.value == Restrict(item, {"name"} + ManagedFields(Permissions))
  {
    hide ManagedFields, Restrict, ManagedDiff, NameOf;
  }

  lemma RestrictCarries(item: Dict, fields: set<string>)
    ensures Restrict(item, fields).Keys <= fields && Copies(item, fields, Restrict(item, fields))
  {
  }

  lemma EntityCreates(c: Context, item: Dict)
    requires Present(item) && PlanItem(Entities, c, item).Success? && KeyOf(Entities, item) !in c.entities
    ensures ParentValue(c, item).Success?
    ensures var changes := PlanItem(Entities, c, item).value.changes;
      && |changes| == 1 && changes[0].body.Some? && !changes[0].destructive
      && var fields := Restrict(item, {"slug"} + ManagedFields(Entities));
         changes[0].body.value ==
           if Get(item, "parent") != Null then fields["parent_entity_id" := ParentValue(c, item).value] else fields
  {
    hide ManagedFields, Restrict, ManagedDiff, ParentValue, Canonical, NameOf;
  }

  /** The value sent for a field that names an entity. */
  function Referred(c: Context, item: Dict, f: string): Json {
    if f in item && EntityReference(c, item[f]).Success? then EntityReference(c, item[f]).value else Null
  }

  lemma Referenced(c: Context, item: Dict, body: Dict, source: string, destination: string)
    requires WithReference(c, item, body, source, destination).Success?
    ensures source in item ==> EntityReference(c, item[source]).Success?
    ensures WithReference(c, item, body, source, destination).value ==
      body + if source in item then map[destination := Referred(c, item, source)] else map[]
  {
    hide EntityReference;
  }

  lemma RoleBody(c: Context, item: Dict)
    requires Present(item) && PlanItem(Roles, c, item).Success? && KeyOf(Roles, item) !in c.roles
    ensures var fields := Restrict(item, {"name"} + ManagedFields(Roles));
      && WithReference(c, item, fields, "root_entity", "root_entity_id").Success?
      && var rooted := WithReference(c, item, fields, "root_entity", "root_entity_id").value;
         && WithReference(c, item, rooted, "scope_entity", "scope_entity_id").Success?
         && PlanItem(Roles, c, item).value.changes ==
              [CreateOf(Roles, NameOf(Roles, item),
                        WithReference(c, item, rooted, "scope_entity", "scope_entity_id").value)]
  {
    hide ManagedFields, Restrict, ManagedDiff, WithReference, NameOf, RowDigest;
  }

  lemma RoleCreates(c: Context, item: Dict)
    requires Present(item) && PlanItem(Roles, c, item).Success? && KeyOf(Roles, item) !in c.roles
    ensures forall f | f in {"root_entity", "scope_entity"} && f in item :: EntityReference(c, item[f]).Success?
    ensures var changes := PlanItem(Roles, c, item).value.changes;
      && |changes| == 1 && changes[0].body.Some? && !changes[0].destructive
      && var fields := Restrict(item, {"name"} + ManagedFields(Roles));
         changes[0].body.value == fields
           + (if "root_entity" in item then map["root_entity_id" := Referred(c, item, "root_entity")] else map[])
           + (if "scope_entity" in item then map["scope_entity_id" := Referred(c, item, "scope_entity")] else map[])
  {
    hide ManagedFields, Restrict, PlanItem, EntityReference, Referred, WithReference, NameOf, KeyOf;
    RoleBody(c, item);
    var fields := Restrict(item, {"name"} + ManagedFields(Roles));
    Referenced(c, item, fields, "root_entity", "root_entity_id");
    Referenced(c, item, WithReference(c, item, fields, "root_entity", "root_entity_id").value,
               "scope_entity", "scope_entity_id");
  }

  lemma MembershipCreates(c: Context, item: Dict)
    requires Present(item) && PlanItem(Memberships, c, item).Success? && KeyOf(Memberships, item) !in c.memberships
    ensures UserKey(item) in c.users && PlannedEntity(c, item).Success? && PlannedRoleIds(c, item).Success?
    ensures var changes := PlanItem(Memberships, c, item).value.changes;
      && |changes| == 1 && changes[0].body.Some? && !changes[0].destructive
      && changes[0].body.value ==
           map["user_id" := Get(c.users[UserKey(item)], "id"), "entity_id" := PlannedEntity(c, item).value,
               "role_ids" := List(PlannedRoleIds(c, item).value)]
           + Restrict(item, ManagedFields(Memberships) + {"reason"})
  {
    hide ManagedFields, Restrict, ManagedDiff, RoleIds, LookupOrRef, NameOf, UserKey;
    PlansMembership(c, item);
    MembershipReferences(c, item);
  }

  lemma PlainCreates(m: Manifest, remote: Remote, c: Context, r: Resource, item: Dict)
    requires Readable(m, remote, c) && r in {Permissions, Entities} && item in m.Items(r) && Present(item)
    requires PlanItem(r, c, item).Success? && KeyOf(r, item) !in c.Current(r)
    ensures var changes := PlanItem(r, c, item).value.changes;
      |changes| == 1 && !changes[0].destructive && changes[0].body.Some? &&
        Creates(remote, r, item, changes[0].body.value)
  {
    hide Readable, PlanItem, KeyOf, ParentValue, ParentSent, ManagedFields, Restrict;
    ManagedNotLookedUp(r);
    if r == Permissions {
      PermissionCreates(c, item);
      RestrictCarries(item, {"name"} + ManagedFields(r));
    } else {
      EntityCreates(c, item);
      RestrictCarries(item, {"slug"} + ManagedFields(r));
      ParentRefers(m, remote, c, item);
    }
  }

  /** Adding references beside the carried fields. */
  lemma TwoReferences(item: Dict, fields: set<string>, carried: Dict, root: Json, scope: Json, body: Dict)
    requires carried.Keys <= fields && Copies(item, fields, carried)
    requires "root_entity_id" !in fields && "scope_entity_id" !in fields
    requires body == carried + (if "root_entity" in item then map["root_entity_id" := root] else map[])
      + (if "scope_entity" in item then map["scope_entity_id" := scope] else map[])
    ensures body.Keys <= fields + {"root_entity_id", "scope_entity_id"} && Copies(item, fields, body)
    ensures "root_entity_id" in body <==> "root_entity" in item
    ensures "scope_entity_id" in body <==> "scope_entity" in item
    ensures "root_entity_id" in body ==> body["root_entity_id"] == root
    ensures "scope_entity_id" in body ==> body["scope_entity_id"] == scope
  {
    var with := if "root_entity" in item then map["root_entity_id" := root] else map[];
    assert body.Keys == carried.Keys + with.Keys + if "scope_entity" in item then {"scope_entity_id"} else {};
  }

  lemma RoleFieldsOf(m: Manifest, remote: Remote, c: Context, item: Dict, body: Dict, f: string, destination: string)
    requires Readable(m, remote, c) && item in m.roles && f in {"root_entity", "scope_entity"}
    requires f in item ==> EntityReference(c, item[f]).Success?
    requires (destination in body <==> f in item) && (destination in body ==> body[destination] == Referred(c, item, f))
    ensures ReferenceSent(remote, item, f, body, destination)
  {
    hide Readable, LookupOrRef, RefersTo;
    if f in item && Truthy(item[f]) {
      EntityRefers(m, remote, c, item, f);
    }
  }

  lemma RoleCreatesIt(m: Manifest, remote: Remote, c: Context, item: Dict)
    requires Readable(m, remote, c) && item in m.roles && Present(item)
    requires PlanItem(Roles, c, item).Success? && KeyOf(Roles, item) !in c.roles
    ensures var changes := PlanItem(Roles, c, item).value.changes;
      && |changes| == 1 && !changes[0].destructive && changes[0].body.Some?
      && Creates(remote, Roles, item, changes[0].body.value)
  {
    hide Readable, PlanItem, KeyOf, EntityReference, Referred, ReferenceSent, ManagedFields, Restrict, Copies;
    var fields := {"name"} + ManagedFields(Roles);
    ManagedNotLookedUp(Roles);
    RoleCreates(c, item);
    RestrictCarries(item, fields);
    var body := PlanItem(Roles, c, item).value.changes[0].body.value;
    TwoReferences(item, fields, Restrict(item, fields), Referred(c, item, "root_entity"),
      Referred(c, item, "scope_entity"), body);
    RoleFieldsOf(m, remote, c, item, body, "root_entity", "root_entity_id");
    RoleFieldsOf(m, remote, c, item, body, "scope_entity", "scope_entity_id");
  }

  lemma ThreeReferences(item: Dict, fields: set<string>, carried: Dict, user: Json, entity: Json, ids: Json, body: Dict)
    requires carried.Keys <= fields && Copies(item, fields, carried) && fields !! {"user_id", "entity_id", "role_ids"}
    requires body == map["user_id" := user, "entity_id" := entity, "role_ids" := ids] + carried
    ensures body.Keys <= fields + {"user_id", "entity_id", "role_ids"} && Copies(item, fields, body)
    ensures {"user_id", "entity_id", "role_ids"} <= body.Keys
    ensures body["user_id"] == user && body["entity_id"] == entity && body["role_ids"] == ids
  {
  }

  lemma MembershipCreatesIt(m: Manifest, remote: Remote, c: Context, item: Dict)
    requires Readable(m, remote, c) && item in m.memberships && Present(item)
    requires PlanItem(Memberships, c, item).Success? && KeyOf(Memberships, item) !in c.memberships
    ensures var changes := PlanItem(Memberships, c, item).value.changes;
      && |changes| == 1 && !changes[0].destructive && changes[0].body.Some?
      && Creates(remote, Memberships, item, changes[0].body.value)
  {
    hide Readable, PlanItem, KeyOf, LookupOrRef, RefersTo, ManagedFields, Restrict, RolesSent, PlannedRoleIds,
      UserSent, Copies;
    var fields := ManagedFields(Memberships) + {"reason"};
    ManagedNotLookedUp(Memberships);
    MembershipCreates(c, item);
    RestrictCarries(item, fields);
    RolesRefer(m, remote, c, item);
    SentUser(m, remote, c, item);
    assert Reads(m, Entities);
    LookupRefers(m, remote, c, Entities, PyStr(Get(item, "entity")));
    ThreeReferences(item, fields, Restrict(item, fields), Get(c.users[UserKey(item)], "id"),
      PlannedEntity(c, item).value,
                    List(PlannedRoleIds(c, item).value), PlanItem(Memberships, c, item).value.changes[0].body.value);
    assert fields == {"reason"} + ManagedFields(Memberships);
  }

  lemma SentUser(m: Manifest, remote: Remote, c: Context, item: Dict)
    requires Readable(m, remote, c) && item in m.memberships && UserKey(item) in c.users
    ensures UserSent(remote, item, Get(c.users[UserKey(item)], "id"))
  {
    hide ValidManifest, FoldDistinct, PlainMembershipNames, ValidRemote, ContextOf, EmailKey, UserKey;
    var i :| 0 <= i < |m.memberships| && m.memberships[i] == item;
    var u := ItemUser(m, remote, c, i);
  }

  lemma PlainUpdates(r: Resource, row: Dict, item: Dict)
    requires r != Memberships
    ensures var changes := ManagedDiff(row, item, ManagedFields(r));
      changes != map[] ==> forall remote :: Updates(remote, r, item, row, changes)
  {
    hide ManagedFields, Canonical, RolesDiffer, RolesSent;
  }

  /** The comparison of a membership, and the reason that goes with a difference. */
  lemma ChangedFields(c: Context, item: Dict, row: Dict)
    requires PlannedRoleIds(c, item).Success?
    ensures var changes := Changed(c, item, row);
      && changes.Keys <= ManagedFields(Memberships) + {"role_ids", "reason"}
      && (forall f | f in ManagedFields(Memberships) :: f in changes <==> Differs(row, item, f))
      && (forall f | f in ManagedFields(Memberships) && f in changes :: f in item && changes[f] == item[f])
      && ("role_ids" in changes <==>
            "roles" in item && Canonical(Get(row, "role_ids")) != Canonical(List(PlannedRoleIds(c, item).value)))
      && ("role_ids" in changes ==> changes["role_ids"] == List(PlannedRoleIds(c, item).value))
      && (changes != map[] ==> changes.Keys - {"reason"} != {} && Copies(item, {"reason"}, changes))
  {
    hide Canonical, PlannedRoleIds, ManagedFields;
    ComparedFields();
    var diff := ManagedDiff(row, Wanted(c, item), Wanted(c, item).Keys);
    if diff != map[] {
      var f :| f in diff;
      assert f in Changed(c, item, row).Keys - {"reason"};
    }
  }

  lemma MembershipUpdates(m: Manifest, remote: Remote, c: Context, item: Dict, row: Dict)
    requires Readable(m, remote, c) && item in m.memberships && PlannedRoleIds(c, item).Success?
    ensures Changed(c, item, row) != map[] ==> Updates(remote, Memberships, item, row, Changed(c, item, row))
  {
    hide Readable, ManagedFields, Canonical, RolesSent, PlannedRoleIds, Changed, Differs, Copies;
    ChangedFields(c, item, row);
    RolesRefer(m, remote, c, item);
    assert RolesSent(remote, item, List(PlannedRoleIds(c, item).value));
  }

  // ---- each item's operations -----------------------------------------------------------------

  /** What an item calls for. */
  ghost predicate CallsFor(remote: Remote, r: Resource, item: Dict, action: Action) {
    var row := RowBehind(remote, r, KeyOf(r, item));
    match action
    case CreateAction => Present(item) && row == None
    case UpdateAction =>
      && Present(item) && row.Some?
      && ((exists f :: f in ManagedFields(r) && Differs(row.value, item, f))
          || (r == Memberships && RolesDiffer(remote, row.value, item)))
    case MoveAction =>
      && Present(item) && row.Some? && r == Entities && "parent" in item
      && exists j :: ParentSent(remote, item, j) && Canonical(Get(row.value, "parent_entity_id")) != Canonical(j)
    case DeleteAction => !Present(item) && row.Some?
  }

  /** The operations are those the item calls for, one each. */
  ghost predicate MeetsCall(remote: Remote, r: Resource, item: Dict, ops: seq<Operation>) {
    && (forall k | 0 <= k < |ops| :: Intended(remote, r, item, ops[k]))
    && (forall k, l | 0 <= k < l < |ops| :: ops[k].action != ops[l].action)
    && (forall action :: CallsFor(remote, r, item, action) <==> exists k :: 0 <= k < |ops| && ops[k].action == action)
  }

  lemma AbsentAnswers(m: Manifest, remote: Remote, c: Context, r: Resource, item: Dict)
    requires Readable(m, remote, c) && item in m.Items(r) && !Present(item)
    ensures MeetsCall(remote, r, item, PlanAbsent(r, c, item).changes + PlanAbsent(r, c, item).deletes)
  {
    hide Readable, RowBehind, RowDigest, NameOf, ManagedFields, RolesDiffer, Differs, ParentSent;
    ItemRow(m, remote, c, r, item);
    var planned := PlanAbsent(r, c, item);
    if planned.deletes != [] {
      assert (planned.changes + planned.deletes)[0] == planned.deletes[0];
    }
  }

  /** A single creation. */
  lemma CreationAnswers(m: Manifest, remote: Remote, c: Context, r: Resource, item: Dict)
    requires Readable(m, remote, c) && item in m.Items(r) && Present(item)
    requires PlanItem(r, c, item).Success? && KeyOf(r, item) !in c.Current(r)
    ensures MeetsCall(remote, r, item, PlanItem(r, c, item).value.changes)
  {
    hide Readable, RowBehind, PlanItem, KeyOf, NameOf, Creates, ManagedFields, RolesDiffer, Differs, ParentSent;
    ItemRow(m, remote, c, r, item);
    ItemOperations(r, c, item);
    match r {
      case Permissions => PlainCreates(m, remote, c, r, item);
      case Entities => PlainCreates(m, remote, c, r, item);
      case Roles => RoleCreatesIt(m, remote, c, item);
      case Memberships => MembershipCreatesIt(m, remote, c, item);
    }
    var changes := PlanItem(r, c, item).value.changes;
    assert changes[0] in changes && changes[0].beforeHash == DigestOf(changes[0].before) by {
      DigestRemembered(r, c, item);
      assert changes[0] in changes;
    }
    assert changes[0].action == CreateAction;
  }

  lemma DigestRemembered(r: Resource, c: Context, item: Dict)
    requires PlanItem(r, c, item).Success?
    ensures forall op | op in PlanItem(r, c, item).value.changes :: op.beforeHash == DigestOf(op.before)
  {
    hide PlanItem;
    forall op | op in PlanItem(r, c, item).value.changes ensures op.beforeHash == DigestOf(op.before) {
      PlannedBefore(r, c, item, op);
    }
  }

  lemma UpdateIntended(remote: Remote, r: Resource, item: Dict, row: Dict, changes: Dict)
    requires Present(item) && RowBehind(remote, r, KeyOf(r, item)) == Some(row)
    requires changes != map[] ==> Updates(remote, r, item, row, changes)
    ensures forall op <- UpdateOf(r, NameOf(r, item), row, changes) ::
      Intended(remote, r, item, op) && op.action == UpdateAction
    ensures |UpdateOf(r, NameOf(r, item), row, changes)| == if changes == map[] then 0 else 1
  {
    hide RowBehind, Updates, NameOf, RowDigest, KeyOf;
  }

  lemma MoveIntended(m: Manifest, remote: Remote, c: Context, item: Dict, row: Dict)
    requires Readable(m, remote, c) && item in m.entities && Present(item) && ParentValue(c, item).Success?
    requires RowBehind(remote, Entities, KeyOf(Entities, item)) == Some(row)
    ensures forall op <- Moves(c, item, row) :: Intended(remote, Entities, item, op) && op.action == MoveAction
    ensures |Moves(c, item, row)| == if CallsFor(remote, Entities, item, MoveAction) then 1 else 0
  {
    hide Readable, RowBehind, ParentValue, ParentSent, NameOf, RowDigest, KeyOf, Canonical;
    ParentRefers(m, remote, c, item);
    assert ParentSent(remote, item, ParentValue(c, item).value);
  }

  lemma PlainAnswers(m: Manifest, remote: Remote, c: Context, r: Resource, item: Dict)
    requires Readable(m, remote, c) && r != Memberships && item in m.Items(r) && Present(item)
    requires PlanItem(r, c, item).Success? && KeyOf(r, item) in c.Current(r)
    ensures MeetsCall(remote, r, item, PlanItem(r, c, item).value.changes)
  {
    hide Readable, RowBehind, PlanItem, KeyOf, NameOf, Intended, Updates, ManagedFields, ManagedDiff, Moves, UpdateOf,
      Differs, RolesDiffer, ParentSent, Canonical;
    var row := c.Current(r)[KeyOf(r, item)];
    var diff := ManagedDiff(row, item, ManagedFields(r));
    ItemRow(m, remote, c, r, item);
    ExistingChanges(r, c, item);
    PlainUpdates(r, row, item);
    UpdateIntended(remote, r, item, row, diff);
    DiffIsDifference(row, item, ManagedFields(r));
    if r == Entities {
      ParentPlanned(c, item);
      MoveIntended(m, remote, c, item, row);
    }
    JoinedAnswers(remote, r, item, UpdateOf(r, NameOf(r, item), row, diff), if r == Entities then Moves(c, item, row)
      else []);
  }

  lemma DiffIsDifference(row: Dict, item: Dict, fields: set<string>)
    ensures ManagedDiff(row, item, fields) != map[] <==> exists f :: f in fields && Differs(row, item, f)
  {
    hide Canonical;
    var diff := ManagedDiff(row, item, fields);
    if f :| f in fields && Differs(row, item, f) {
      assert f in diff;
    }
    if diff != map[] {
      var f :| f in diff;
      assert f in fields && Differs(row, item, f);
    }
  }

  lemma JoinedAnswers(remote: Remote, r: Resource, item: Dict, updates: seq<Operation>, moves: seq<Operation>)
    requires forall op <- updates :: Intended(remote, r, item, op) && op.action == UpdateAction
    requires forall op <- moves :: Intended(remote, r, item, op) && op.action == MoveAction
    requires |updates| == if CallsFor(remote, r, item, UpdateAction) then 1 else 0
    requires |moves| == if CallsFor(remote, r, item, MoveAction) then 1 else 0
    requires !CallsFor(remote, r, item, CreateAction) && !CallsFor(remote, r, item, DeleteAction)
    ensures MeetsCall(remote, r, item, updates + moves)
  {
    hide Intended, CallsFor;
    var ops := updates + moves;
    assert forall k | 0 <= k < |ops| :: ops[k] in updates || ops[k] in moves;
    forall action ensures CallsFor(remote, r, item, action) <==> exists k :: 0 <= k < |ops| && ops[k].action == action {
      if |updates| == 1 {
        assert ops[0] == updates[0] && updates[0] in updates;
      }
      if |moves| == 1 {
        assert ops[|updates|] == moves[0] && moves[0] in moves;
      }
      match action case CreateAction => case UpdateAction => case MoveAction => case DeleteAction =>
    }
  }

  lemma MembershipAnswers(m: Manifest, remote: Remote, c: Context, item: Dict)
    requires Readable(m, remote, c) && item in m.memberships && Present(item)
    requires PlanItem(Memberships, c, item).Success? && KeyOf(Memberships, item) in c.memberships
    ensures MeetsCall(remote, Memberships, item, PlanItem(Memberships, c, item).value.changes)
  {
    hide Readable, RowBehind, PlanItem, PlanMembership, KeyOf, NameOf, Intended, Updates, ManagedFields, UpdateOf,
      Differs, RolesSent, Canonical, WithReason, ManagedDiff, Wanted, PlannedRoleIds, PlannedEntity;
    var row := c.memberships[KeyOf(Memberships, item)];
    assert item in m.Items(Memberships);
    ItemRow(m, remote, c, Memberships, item);
    PlansMembership(c, item);
    MembershipReferences(c, item);
    MembershipPlanned(c, item);
    MembershipUpdates(m, remote, c, item, row);
    UpdateIntended(remote, Memberships, item, row, Changed(c, item, row));
    RolesRefer(m, remote, c, item);
    MembershipChanges(c, item, row);
    assert RolesSent(remote, item, List(PlannedRoleIds(c, item).value));
    JoinedAnswers(remote, Memberships, item,
      UpdateOf(Memberships, NameOf(Memberships, item), row, Changed(c, item, row)), []);
    var updates := UpdateOf(Memberships, NameOf(Memberships, item), row, Changed(c, item, row));
    assert updates + [] == updates;
  }

  lemma MembershipChanges(c: Context, item: Dict, row: Dict)
    requires PlannedRoleIds(c, item).Success?
    ensures Changed(c, item, row) != map[] <==>
      || (exists f :: f in ManagedFields(Memberships) && Differs(row, item, f))
      || ("roles" in item && Canonical(Get(row, "role_ids")) != Canonical(List(PlannedRoleIds(c, item).value)))
  {
    hide Canonical, PlannedRoleIds, ManagedFields, Changed;
    NothingChangedIff(c, item, row);
  }

  /** Planning an item yields exactly the operations it calls for, each of them in all its parts. */
  lemma ItemAnswers(m: Manifest, remote: Remote, c: Context, r: Resource, item: Dict)
    requires Readable(m, remote, c) && item in m.Items(r) && PlanItem(r, c, item).Success?
    ensures MeetsCall(remote, r, item, PlanItem(r, c, item).value.changes + PlanItem(r, c, item).value.deletes)
  {
    hide Readable, PlanAbsent, PlanPermission, PlanEntity, PlanRole, PlanMembership, MeetsCall, KeyOf;
    ItemOperations(r, c, item);
    if !Present(item) {
      AbsentAnswers(m, remote, c, r, item);
    } else {
      var changes := PlanItem(r, c, item).value.changes;
      assert changes + [] == changes;
      if KeyOf(r, item) !in c.Current(r) {
        CreationAnswers(m, remote, c, r, item);
      } else if r == Memberships {
        MembershipAnswers(m, remote, c, item);
      } else {
        PlainAnswers(m, remote, c, r, item);
      }
    }
  }
}
