/** What a planning error says: the very item, reference or missing field it names is there to be found. */
module PlanFailures {
  import opened Outcomes
  import opened JsonValues
  import opened Manifests
  import opened RemoteStore
  import opened EntityOrder
  import opened Planner
  import opened SnapshotFacts
  import opened PlanShape
  import opened PlanErrors

  /** The item names that row. */
  ghost predicate Refers(r: Resource, item: Dict, named: Resource, identity: string) {
    match r
    case Permissions => false
    case Entities => named == Entities && identity != "" && Get(item, "parent") == Str(identity)
    case Roles => named == Entities &&
      (NamesIn(item, "root_entity", identity) || NamesIn(item, "scope_entity", identity))
    case Memberships =>
      || (named == Entities && PyStr(Get(item, "entity")) == identity)
      || (named == Roles && DeclaredRoles(item).List? && Str(identity) in DeclaredRoles(item).items)
  }

  ghost predicate NamesIn(item: Dict, f: string, identity: string) {
    f in item && Truthy(item[f]) && PyStr(item[f]) == identity
  }

  ghost predicate NamesRoles(item: Dict) {
    DeclaredRoles(item).List? && forall x | x in DeclaredRoles(item).items :: x.Str?
  }

  /** What the error says of the item is so. */
  ghost predicate Faulty(m: Manifest, remote: Remote, r: Resource, item: Dict, e: PlanError) {
    match e
    case UserNotFound(user) => r == Memberships && !UserExists(remote, item) && user == PyStr(Get(item, "user"))
    case ReferenceNotFound(named, identity) =>
      named != Memberships && Refers(r, item, named, identity) && !Known(m, remote, named, identity)
    case CreateFieldsMissing(which, identity, fields) =>
      && which == r != Memberships && identity == NameOf(r, item) && !Stored(remote, r, KeyOf(r, item))
      && fields == RequiredFields(r) - item.Keys && fields != {}
    case RolesNotNames(identity) => r == Memberships && identity == NameOf(r, item) && !NamesRoles(item)
    case EntityCycle => false
  }

  // ---- one item -------------------------------------------------------------------------------

  lemma PermissionFails(m: Manifest, remote: Remote, c: Context, item: Dict)
    requires ContextOf(m, remote, c) && ValidRemote(remote) && item in m.permissions && Present(item)
    requires PlanPermission(c, item).Failure?
    ensures Faulty(m, remote, Permissions, item, PlanPermission(c, item).error)
  {
    hide ContextOf, ValidRemote, Stored, ManagedDiff, RowDigest;
    StoredIsFiled(m, remote, c, Permissions, KeyOf(Permissions, item));
  }

  lemma EntityFails(m: Manifest, remote: Remote, c: Context, item: Dict)
    requires ContextOf(m, remote, c) && ValidRemote(remote) && item in m.entities && Present(item)
    requires PlanEntity(c, item).Failure?
    ensures Faulty(m, remote, Entities, item, PlanEntity(c, item).error)
  {
    hide ContextOf, ValidRemote, Stored, ManagedDiff, RowDigest, Known, Canonical;
    assert Reads(m, Entities);
    StoredIsFiled(m, remote, c, Entities, KeyOf(Entities, item));
    if NonemptyText(Get(item, "parent")) {
      LookupSucceedsIff(m, remote, c, Entities, Get(item, "parent").s);
    }
    var body := Restrict(item, {"slug"} + ManagedFields(Entities));
    assert ENTITY_CREATE_FIELDS - body.Keys == ENTITY_CREATE_FIELDS - item.Keys;
  }

  lemma ReferenceFails(m: Manifest, remote: Remote, c: Context, item: Dict, f: string)
    requires ContextOf(m, remote, c) && ValidRemote(remote) && item in m.roles && f in {"root_entity", "scope_entity"}
    requires f in item && EntityReference(c, item[f]).Failure?
    ensures Faulty(m, remote, Roles, item, EntityReference(c, item[f]).error)
  {
    hide ContextOf, ValidRemote, Known;
    assert Get(item, f) == item[f];
    assert Reads(m, Entities);
    LookupSucceedsIff(m, remote, c, Entities, PyStr(item[f]));
  }

  lemma RoleFails(m: Manifest, remote: Remote, c: Context, item: Dict)
    requires ContextOf(m, remote, c) && ValidRemote(remote) && item in m.roles && Present(item)
    requires PlanRole(c, item).Failure?
    ensures Faulty(m, remote, Roles, item, PlanRole(c, item).error)
  {
    hide ContextOf, ValidRemote, Stored, ManagedDiff, RowDigest, EntityReference, Refers, Known;
    StoredIsFiled(m, remote, c, Roles, KeyOf(Roles, item));
    if "root_entity" in item && EntityReference(c, item["root_entity"]).Failure? {
      ReferenceFails(m, remote, c, item, "root_entity");
    } else if "scope_entity" in item && EntityReference(c, item["scope_entity"]).Failure? {
      ReferenceFails(m, remote, c, item, "scope_entity");
    }
  }

  lemma {:induction false} RoleIdsFail(m: Manifest, remote: Remote, c: Context, roles: seq<Json>)
    requires ContextOf(m, remote, c) && ValidRemote(remote) && Reads(m, Roles)
    requires (forall x <- roles :: x.Str?) && RoleIds(c, roles).Failure?
    ensures exists x | x in roles ::
      RoleIds(c, roles).error == ReferenceNotFound(Roles, x.s) && !Known(m, remote, Roles, x.s)
  {
    hide ContextOf, ValidRemote, Known, Reads;
    if roles != [] {
      var n := |roles| - 1;
      assert roles[n] in roles;
      assert forall x <- roles[..n] :: x in roles;
      if RoleIds(c, roles[..n]).Failure? {
        RoleIdsFail(m, remote, c, roles[..n]);
      } else {
        LookupSucceedsIff(m, remote, c, Roles, roles[n].s);
      }
    }
  }

  lemma MembershipFails(m: Manifest, remote: Remote, c: Context, item: Dict)
    requires ContextOf(m, remote, c) && ValidRemote(remote) && item in m.memberships && Present(item)
    requires PlanMembership(c, item).Failure?
    ensures Faulty(m, remote, Memberships, item, PlanMembership(c, item).error)
  {
    hide ContextOf, ValidRemote, Known, ManagedDiff, RowDigest, ManagedFields, Restrict, UserExists, UserKey, RoleIds;
    UserFiledIff(m, remote, c, item);
    assert Reads(m, Entities) && Reads(m, Roles);
    LookupSucceedsIff(m, remote, c, Entities, PyStr(Get(item, "entity")));
    var roles := DeclaredRoles(item);
    if roles.List? && (forall x <- roles.items :: x.Str?) && RoleIds(c, roles.items).Failure? {
      RoleIdsFail(m, remote, c, roles.items);
    }
  }

  lemma ItemFails(m: Manifest, remote: Remote, c: Context, r: Resource, item: Dict)
    requires ContextOf(m, remote, c) && ValidRemote(remote) && item in m.Items(r) && PlanItem(r, c, item).Failure?
    ensures Present(item) && Faulty(m, remote, r, item, PlanItem(r, c, item).error)
    ensures PlanItem(r, c, item).error != EntityCycle
  {
    hide ContextOf, ValidRemote, Refers, Known, Stored, UserExists, NamesRoles, PlanPermission, PlanEntity, PlanRole,
      PlanMembership;
    match r
    case Permissions => PermissionFails(m, remote, c, item);
    case Entities => EntityFails(m, remote, c, item);
    case Roles => RoleFails(m, remote, c, item);
    case Memberships => MembershipFails(m, remote, c, item);
  }

  // ---- the whole manifest ---------------------------------------------------------------------

  lemma {:induction false} FirstFailingItem(r: Resource, c: Context, items: seq<Dict>) returns (i: nat)
    requires PlanItems(r, c, items).Failure?
    ensures i < |items| && PlanItems(r, c, items).error == PlanFailure(r, c, items[i])
    ensures PlanItem(r, c, items[i]).Failure? && forall j | 0 <= j < i :: PlanItem(r, c, items[j]).Success?
  {
    hide PlanItem;
    var n := |items| - 1;
    if PlanItems(r, c, items[..n]).Failure? {
      i := FirstFailingItem(r, c, items[..n]);
    } else {
      GroupPlansIff(r, c, items[..n]);
      i := n;
      assert forall j | 0 <= j < n :: items[j] == items[..n][j];
    }
  }

  function PlanFailure(r: Resource, c: Context, item: Dict): PlanError {
    if PlanItem(r, c, item).Failure? then PlanItem(r, c, item).error else EntityCycle
  }

  /** The error is about a present item of the group. */
  ghost predicate Blamed(m: Manifest, remote: Remote, r: Resource, e: PlanError) {
    e != EntityCycle && exists item :: item in m.Items(r) && Present(item) && Faulty(m, remote, r, item, e)
  }

  lemma GroupFails(m: Manifest, remote: Remote, c: Context, r: Resource, items: seq<Dict>)
    requires ContextOf(m, remote, c) && ValidRemote(remote) && forall item :: item in items ==> item in m.Items(r)
    requires PlanItems(r, c, items).Failure?
    ensures Blamed(m, remote, r, PlanItems(r, c, items).error)
  {
    hide ContextOf, ValidRemote, Faulty, PlanItem, PlanItems, Present;
    var i := FirstFailingItem(r, c, items);
    ItemFails(m, remote, c, r, items[i]);
  }

  lemma {:induction false} ReadingFails(m: Manifest, remote: Remote, users: map<string, Dict>, entities: seq<Dict>,
                                        desired: seq<Dict>)
    requires forall item | item in desired :: UserKey(item) in users <==> UserExists(remote, item)
    requires FetchMemberships(remote, users, entities, desired).Failure?
    ensures FetchMemberships(remote, users, entities, desired).error != EntityCycle
    ensures exists item | item in desired ::
      Present(item) && Faulty(m, remote, Memberships, item, FetchMemberships(remote, users, entities, desired).error)
  {
    hide Joined, UserMemberships, UserKey, UserExists;
    if desired != [] {
      var n := |desired| - 1;
      assert desired[n] in desired && forall item | item in desired[..n] :: item in desired;
      if FetchMemberships(remote, users, entities, desired[..n]).Failure? {
        ReadingFails(m, remote, users, entities, desired[..n]);
      } else {
        assert Faulty(m, remote, Memberships, desired[n], UserNotFound(PyStr(Get(desired[n], "user"))));
      }
    }
  }

  lemma SnapshotFails(m: Manifest, remote: Remote)
    requires FetchSnapshot(remote, m).Failure?
    ensures Blamed(m, remote, Memberships, FetchSnapshot(remote, m).error)
  {
    hide Listing, UserKey, UsersByEmail, UserExists, FetchMemberships, Faulty, Present;
    var users := if m.memberships != [] then Listing(remote.users) else [];
    var entities := if NeedsEntities(m) then Listing(remote.entities) else [];
    forall item | item in m.memberships ensures UserKey(item) in UsersByEmail(users) <==> UserExists(remote, item) {
      StoredUserFound(remote, item);
    }
    ReadingFails(m, remote, UsersByEmail(users), entities, m.memberships);
  }

  lemma BlamesNoCircle(m: Manifest, remote: Remote, r: Resource, e: PlanError)
    requires Blamed(m, remote, r, e)
    ensures e != EntityCycle
  {
  }

  /** A planning error other than a declared circle is about a present item of the manifest, and what it says of that
      item is so; a circle is reported exactly of declared parents that run in one. */
  lemma PlanFailureMeans(m: Manifest, remote: Remote)
    requires ValidManifest(m) && FoldDistinct(m) && ValidRemote(remote) && Plan(m, remote).Failure?
    ensures var e := Plan(m, remote).error;
      if e == EntityCycle then TopologicalOrder(PresentItems(m.entities)).None?
      else exists r :: Blamed(m, remote, r, e)
  {
    hide ValidManifest, FoldDistinct, ValidRemote, TopologicalOrder, FetchSnapshot, PlanItems, MakeContext, Blamed,
      Assemble;
    if FetchSnapshot(remote, m).Failure? {
      SnapshotFails(m, remote);
      BlamesNoCircle(m, remote, Memberships, FetchSnapshot(remote, m).error);
    } else {
      var c := MakeContext(m, FetchSnapshot(remote, m).value);
      if PlanItems(Permissions, c, m.permissions).Failure? {
        GroupFails(m, remote, c, Permissions, m.permissions);
        BlamesNoCircle(m, remote, Permissions, PlanItems(Permissions, c, m.permissions).error);
      } else if TopologicalOrder(PresentItems(m.entities)).Some? {
        OrderedMembers(m, EntitySequence(m.entities).value);
        if PlanItems(Entities, c, EntitySequence(m.entities).value).Failure? {
          GroupFails(m, remote, c, Entities, EntitySequence(m.entities).value);
          BlamesNoCircle(m, remote, Entities, PlanItems(Entities, c, EntitySequence(m.entities).value).error);
        } else if PlanItems(Roles, c, m.roles).Failure? {
          GroupFails(m, remote, c, Roles, m.roles);
          BlamesNoCircle(m, remote, Roles, PlanItems(Roles, c, m.roles).error);
        } else {
          GroupFails(m, remote, c, Memberships, m.memberships);
          BlamesNoCircle(m, remote, Memberships, PlanItems(Memberships, c, m.memberships).error);
        }
      }
    }
  }
}
