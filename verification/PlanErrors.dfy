/** When planning succeeds: said of the manifest and the store, without the planner's dictionaries. */
module PlanErrors {
  import opened Outcomes
  import opened Text
  import opened JsonValues
  import opened Indexing
  import opened Manifests
  import opened RemoteStore
  import opened EntityOrder
  import opened Planner
  import opened PlanShape
  import opened SnapshotFacts
  import opened ReferenceSafety
  import opened RunOfPlan
  import opened FinalMemberships
  import opened MembershipsAgain

  /** The store holds a row of this folded identity. */
  ghost predicate Stored(remote: Remote, r: Resource, key: string)
    requires r != Memberships
  {
    exists id :: id in remote.Table(r) && FoldedIdentity(r, remote.Table(r)[id]) == Some(key)
  }

  ghost predicate DeclaredPresent(m: Manifest, r: Resource, key: string) {
    exists item :: item in m.Items(r) && Present(item) && KeyOf(r, item) == key
  }

  /** What an item may refer to. */
  ghost predicate Known(m: Manifest, remote: Remote, r: Resource, identity: string)
    requires r != Memberships
  {
    Stored(remote, r, Fold(identity)) || DeclaredPresent(m, r, Fold(identity))
  }

  function RequiredFields(r: Resource): set<string> {
    match r
    case Permissions => {"display_name"}
    case Entities => ENTITY_CREATE_FIELDS
    case Roles => {"display_name"}
    case Memberships => {}
  }

  /** A row that has to be created brings the required fields. */
  ghost predicate CanCreate(remote: Remote, r: Resource, item: Dict)
    requires r != Memberships
  {
    Stored(remote, r, KeyOf(r, item)) || RequiredFields(r) <= item.Keys
  }

  ghost predicate RefersToKnown(m: Manifest, remote: Remote, item: Dict, f: string) {
    f in item && Truthy(item[f]) ==> Known(m, remote, Entities, PyStr(item[f]))
  }

  ghost predicate RolesKnown(m: Manifest, remote: Remote, item: Dict) {
    var roles := DeclaredRoles(item);
    roles.List? && forall x | x in roles.items :: x.Str? && Known(m, remote, Roles, x.s)
  }

  /** What planning demands of a present item. */
  ghost predicate Plannable(m: Manifest, remote: Remote, r: Resource, item: Dict) {
    match r
    case Permissions => CanCreate(remote, r, item)
    case Entities =>
      && (NonemptyText(Get(item, "parent")) ==> Known(m, remote, Entities, Get(item, "parent").s))
      && CanCreate(remote, r, item)
    case Roles =>
      && RefersToKnown(m, remote, item, "root_entity") && RefersToKnown(m, remote, item, "scope_entity")
      && CanCreate(remote, r, item)
    case Memberships =>
      && UserExists(remote, item) && Known(m, remote, Entities, PyStr(Get(item, "entity"))) &&
        RolesKnown(m, remote, item)
  }

  // ---- the dictionaries -----------------------------------------------------------------------

  lemma StoredIsFiled(m: Manifest, remote: Remote, c: Context, r: Resource, key: string)
    requires ContextOf(m, remote, c) && ValidRemote(remote) && r != Memberships && Reads(m, r)
    ensures key in c.Current(r) <==> Stored(remote, r, key)
  {
    hide ContextOf, FoldedIdentity, Reads, ValidRow;
    ContextRows(m, remote, c, r);
  }

  lemma DeclaredIsListed(m: Manifest, remote: Remote, c: Context, r: Resource, key: string)
    requires ContextOf(m, remote, c) && r in {Entities, Roles}
    ensures key in Declared(c, r) <==> DeclaredPresent(m, r, key)
  {
    hide FetchSnapshot, ItemsByIdentity, UsersByEmail, NameOf;
  }

  lemma LookupSucceedsIff(m: Manifest, remote: Remote, c: Context, r: Resource, identity: string)
    requires ContextOf(m, remote, c) && ValidRemote(remote) && r in {Entities, Roles} && Reads(m, r)
    ensures LookupOrRef(r, identity, c.Current(r), Declared(c, r)).Success? <==> Known(m, remote, r, identity)
  {
    hide ContextOf, ValidRemote, Stored, DeclaredPresent, Reads;
    StoredIsFiled(m, remote, c, r, Fold(identity));
    DeclaredIsListed(m, remote, c, r, Fold(identity));
  }

  lemma UserFiledIff(m: Manifest, remote: Remote, c: Context, item: Dict)
    requires ContextOf(m, remote, c) && ValidRemote(remote) && item in m.memberships
    ensures UserKey(item) in c.users <==> UserExists(remote, item)
  {
    hide ContextOf, EmailKey, UserKey;
    ContextUsers(m, remote, c);
  }

  // ---- one item -------------------------------------------------------------------------------

  lemma PermissionPlansIff(c: Context, item: Dict)
    ensures PlanPermission(c, item).Success? <==> KeyOf(Permissions, item) in c.permissions || "display_name" in item
  {
    hide ManagedDiff, NameOf, RowDigest;
  }

  lemma EntityPlansIff(c: Context, item: Dict)
    ensures PlanEntity(c, item).Success? <==>
      ParentValue(c, item).Success? && (KeyOf(Entities, item) in c.entities || ENTITY_CREATE_FIELDS <= item.Keys)
  {
    hide ManagedDiff, NameOf, RowDigest, ParentValue, Canonical;
    var body := Restrict(item, {"slug"} + ManagedFields(Entities));
    assert ENTITY_CREATE_FIELDS <= body.Keys <==> ENTITY_CREATE_FIELDS <= item.Keys;
  }

  lemma RolePlansIff(c: Context, item: Dict)
    ensures PlanRole(c, item).Success? <==>
      && ("root_entity" in item ==> EntityReference(c, item["root_entity"]).Success?)
      && ("scope_entity" in item ==> EntityReference(c, item["scope_entity"]).Success?)
      && (KeyOf(Roles, item) in c.roles || "display_name" in item)
  {
    hide ManagedDiff, NameOf, RowDigest, EntityReference;
  }

  lemma MembershipPlansIff(c: Context, item: Dict)
    ensures PlanMembership(c, item).Success? <==>
      UserKey(item) in c.users && PlannedEntity(c, item).Success? && PlannedRoleIds(c, item).Success?
  {
    hide ManagedDiff, NameOf, RowDigest, RoleIds, LookupOrRef, ManagedFields, Restrict;
  }

  lemma PermissionPlannable(m: Manifest, remote: Remote, c: Context, item: Dict)
    requires ContextOf(m, remote, c) && ValidRemote(remote) && item in m.permissions && Present(item)
    ensures PlanPermission(c, item).Success? <==> Plannable(m, remote, Permissions, item)
  {
    hide ContextOf, ValidRemote, Stored, PlanPermission, KeyOf;
    PermissionPlansIff(c, item);
    StoredIsFiled(m, remote, c, Permissions, KeyOf(Permissions, item));
  }

  lemma EntityPlannable(m: Manifest, remote: Remote, c: Context, item: Dict)
    requires ContextOf(m, remote, c) && ValidRemote(remote) && item in m.entities && Present(item)
    ensures PlanEntity(c, item).Success? <==> Plannable(m, remote, Entities, item)
  {
    hide ContextOf, ValidRemote, Stored, PlanEntity, KeyOf, Known, LookupOrRef;
    EntityPlansIff(c, item);
    assert Reads(m, Entities);
    StoredIsFiled(m, remote, c, Entities, KeyOf(Entities, item));
    if NonemptyText(Get(item, "parent")) {
      LookupSucceedsIff(m, remote, c, Entities, Get(item, "parent").s);
    }
  }

  lemma ReferenceKnownIff(m: Manifest, remote: Remote, c: Context, item: Dict, f: string)
    requires ContextOf(m, remote, c) && ValidRemote(remote) && item in m.roles && f in {"root_entity", "scope_entity"}
    ensures (f in item ==> EntityReference(c, item[f]).Success?) <==> RefersToKnown(m, remote, item, f)
  {
    hide ContextOf, ValidRemote, Known, LookupOrRef;
    if f in item && Truthy(item[f]) {
      assert Get(item, f) == item[f];
      assert Reads(m, Entities);
      LookupSucceedsIff(m, remote, c, Entities, PyStr(item[f]));
    }
  }

  lemma RolePlannable(m: Manifest, remote: Remote, c: Context, item: Dict)
    requires ContextOf(m, remote, c) && ValidRemote(remote) && item in m.roles && Present(item)
    ensures PlanRole(c, item).Success? <==> Plannable(m, remote, Roles, item)
  {
    hide ContextOf, ValidRemote, Stored, PlanRole, KeyOf, RefersToKnown, EntityReference;
    RolePlansIff(c, item);
    StoredIsFiled(m, remote, c, Roles, KeyOf(Roles, item));
    ReferenceKnownIff(m, remote, c, item, "root_entity");
    ReferenceKnownIff(m, remote, c, item, "scope_entity");
  }

  lemma RolesKnownIff(m: Manifest, remote: Remote, c: Context, item: Dict)
    requires ContextOf(m, remote, c) && ValidRemote(remote) && item in m.memberships
    ensures PlannedRoleIds(c, item).Success? <==> RolesKnown(m, remote, item)
  {
    hide ContextOf, ValidRemote, Known, LookupOrRef, RoleIds, DeclaredRoles;
    var roles := DeclaredRoles(item);
    if roles.List? && forall x <- roles.items :: x.Str? {
      RoleIdsAt(c, roles.items);
      assert Reads(m, Roles);
      forall i | 0 <= i < |roles.items|
        ensures LookupOrRef(Roles, roles.items[i].s, c.roles, c.presentRoles).Success? <==>
          Known(m, remote, Roles, roles.items[i].s)
      {
        LookupSucceedsIff(m, remote, c, Roles, roles.items[i].s);
      }
      EachRole(m, remote, roles.items);
    }
  }

  lemma EachRole(m: Manifest, remote: Remote, roles: seq<Json>)
    requires forall x | x in roles :: x.Str?
    ensures (forall x | x in roles :: Known(m, remote, Roles, x.s)) <==>
      forall i | 0 <= i < |roles| :: Known(m, remote, Roles, roles[i].s)
  {
    hide Known;
    if forall i | 0 <= i < |roles| :: Known(m, remote, Roles, roles[i].s) {
      forall x | x in roles ensures Known(m, remote, Roles, x.s) {
        var i :| 0 <= i < |roles| && roles[i] == x;
      }
    }
  }

  lemma MembershipPlannable(m: Manifest, remote: Remote, c: Context, item: Dict)
    requires ContextOf(m, remote, c) && ValidRemote(remote) && item in m.memberships && Present(item)
    ensures PlanMembership(c, item).Success? <==> Plannable(m, remote, Memberships, item)
  {
    hide ContextOf, ValidRemote, Known, PlanMembership, RolesKnown, UserExists, UserKey, PlannedRoleIds, LookupOrRef;
    MembershipPlansIff(c, item);
    UserFiledIff(m, remote, c, item);
    assert Reads(m, Entities);
    LookupSucceedsIff(m, remote, c, Entities, PyStr(Get(item, "entity")));
    RolesKnownIff(m, remote, c, item);
  }

  lemma ItemPlannable(m: Manifest, remote: Remote, c: Context, r: Resource, item: Dict)
    requires ContextOf(m, remote, c) && ValidRemote(remote) && item in m.Items(r)
    ensures PlanItem(r, c, item).Success? <==> (Present(item) ==> Plannable(m, remote, r, item))
  {
    hide ContextOf, ValidRemote, Plannable, PlanPermission, PlanEntity, PlanRole, PlanMembership;
    if Present(item) {
      match r
      case Permissions => PermissionPlannable(m, remote, c, item);
      case Entities => EntityPlannable(m, remote, c, item);
      case Roles => RolePlannable(m, remote, c, item);
      case Memberships => MembershipPlannable(m, remote, c, item);
    }
  }

  // ---- the whole manifest ---------------------------------------------------------------------

  lemma {:induction false} GroupPlansIff(r: Resource, c: Context, items: seq<Dict>)
    ensures PlanItems(r, c, items).Success? <==> forall item | item in items :: PlanItem(r, c, item).Success?
  {
    hide PlanItem;
    if items != [] {
      FrontMembers(items);
      GroupPlansIff(r, c, items[..|items| - 1]);
    }
  }

  /** The planning order lists the manifest's entities. */
  lemma OrderedMembers(m: Manifest, sequence: seq<Dict>)
    requires ValidManifest(m) && FoldDistinct(m) && EntitySequence(m.entities) == Success(sequence)
    ensures forall item :: item in sequence <==> item in m.entities
  {
    hide ValidManifest, FoldDistinct, TopologicalOrder, FoldedIdentity;
    var items := PresentItems(m.entities);
    PresentMembers(m.entities);
    OutputMembers(items);
    PresentDistinct(m);
    IndexFinds(Keyed(Entities), items);
    IndexSound(Keyed(Entities), items);
    forall item | item in m.entities && Present(item) ensures item in Pending(items).Values {
      ManifestKeys(m, Entities, item);
    }
  }

  /** Every present item of the group is plannable. */
  ghost predicate PlannableGroup(m: Manifest, remote: Remote, r: Resource) {
    forall item | item in m.Items(r) && Present(item) :: Plannable(m, remote, r, item)
  }

  lemma GroupPlannableIff(m: Manifest, remote: Remote, c: Context, r: Resource, items: seq<Dict>)
    requires ContextOf(m, remote, c) && ValidRemote(remote) && forall item :: item in items <==> item in m.Items(r)
    ensures PlanItems(r, c, items).Success? <==> PlannableGroup(m, remote, r)
  {
    hide ContextOf, ValidRemote, Plannable, PlanItem, PlanItems, Present;
    GroupPlansIff(r, c, items);
    forall item | item in m.Items(r)
      ensures PlanItem(r, c, item).Success? <==> (Present(item) ==> Plannable(m, remote, r, item))
    {
      ItemPlannable(m, remote, c, r, item);
    }
  }

  lemma SnapshotPlansIff(m: Manifest, remote: Remote, c: Context)
    requires ValidManifest(m) && FoldDistinct(m) && ValidRemote(remote) && ContextOf(m, remote, c)
    ensures Plan(m, remote).Success? <==>
      TopologicalOrder(PresentItems(m.entities)).Some? && forall r: Resource :: PlannableGroup(m, remote, r)
  {
    hide ValidManifest, FoldDistinct, ValidRemote, PlanItems, TopologicalOrder, PlannableGroup, Assemble,
      FetchSnapshot, ItemsByIdentity, UsersByEmail, PresentKeys;
    GroupPlannableIff(m, remote, c, Permissions, m.permissions);
    GroupPlannableIff(m, remote, c, Roles, m.roles);
    GroupPlannableIff(m, remote, c, Memberships, m.memberships);
    if TopologicalOrder(PresentItems(m.entities)).Some? {
      OrderedMembers(m, EntitySequence(m.entities).value);
      GroupPlannableIff(m, remote, c, Entities, EntitySequence(m.entities).value);
    }
    EveryResource(m, remote);
  }

  lemma EveryResource(m: Manifest, remote: Remote)
    ensures (forall r: Resource :: PlannableGroup(m, remote, r)) <==>
      && PlannableGroup(m, remote, Permissions) && PlannableGroup(m, remote, Entities)
      && PlannableGroup(m, remote, Roles) && PlannableGroup(m, remote, Memberships)
  {
    hide PlannableGroup;
    if PlannableGroup(m, remote, Permissions) && PlannableGroup(m, remote, Entities)
       && PlannableGroup(m, remote, Roles) && PlannableGroup(m, remote, Memberships) {
      forall r: Resource ensures PlannableGroup(m, remote, r) {
        match r case Permissions => case Entities => case Roles => case Memberships =>
      }
    }
  }

  /** Planning succeeds exactly when declared parents run in no circle and every present item refers only to what is
      stored or declared present, names an existing user, lists role names, and brings the fields its creation needs. */
  lemma PlanSucceedsIff(m: Manifest, remote: Remote)
    requires ValidManifest(m) && FoldDistinct(m) && ValidRemote(remote)
    ensures Plan(m, remote).Success? <==>
      TopologicalOrder(PresentItems(m.entities)).Some? && forall r: Resource :: PlannableGroup(m, remote, r)
  {
    hide ValidManifest, FoldDistinct, ValidRemote, TopologicalOrder, FetchSnapshot, MakeContext, PlanFromSnapshot,
      Present;
    SnapshotFailsIff(remote, m);
    if FetchSnapshot(remote, m).Success? {
      SnapshotPlansIff(m, remote, MakeContext(m, FetchSnapshot(remote, m).value));
    } else {
      MissingUser(m, remote);
    }
  }

  lemma MissingUser(m: Manifest, remote: Remote)
    requires exists item :: item in m.memberships && Present(item) && !UserExists(remote, item)
    ensures !PlannableGroup(m, remote, Memberships)
  {
    var item :| item in m.memberships && Present(item) && !UserExists(remote, item);
    assert item in m.Items(Memberships) && !Plannable(m, remote, Memberships, item);
  }
}
