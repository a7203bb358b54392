/** `build_plan`: the operations that would bring the remote state to the declared state. */
module Planner {
  import opened Outcomes
  import opened Text
  import opened Sorting
  import opened JsonValues
  import opened Manifests
  import opened RemoteStore
  import opened EntityOrder
  import opened ParentForest
  import opened DeleteDepth

  datatype Verb = Post | Patch | Delete

  datatype Path =
    | Collection(resource: Resource)
    | Element(resource: Resource, id: string)
    | MoveOf(id: string)
    | MembershipOf(entityId: string, userId: string)

  datatype Action = CreateAction | UpdateAction | MoveAction | DeleteAction

  /** What `object_hash` tells apart: SHA-256 is taken to be injective, so the digest is the canonical value itself. */
  type Digest = map<string, Json>

  function RowDigest(row: Dict): Digest {
    map k | k in row :: Canonical(row[k])
  }

  datatype Operation = Operation(
    resource: Resource,
    identity: string,
    action: Action,
    verb: Verb,
    path: Path,
    body: Option<Dict>,
    before: Option<Dict>,
    beforeHash: Option<Digest>,
    destructive: bool)

  function MakeOperation(resource: Resource, identity: string, action: Action, verb: Verb, path: Path,
                         body: Option<Dict>, before: Option<Dict>): Operation {
    Operation(resource, identity, action, verb, path, body, before,
              match before case None => None case Some(row) => Some(RowDigest(row)),
              action == DeleteAction)
  }

  /** The planner's dictionaries. */
  datatype Context = Context(
    permissions: map<string, Dict>,
    entities: map<string, Dict>,
    roles: map<string, Dict>,
    memberships: map<string, Dict>,
    users: map<string, Dict>,
    presentEntities: set<string>,
    presentRoles: set<string>)
  {
    function Current(r: Resource): map<string, Dict> {
      match r
      case Permissions => permissions
      case Entities => entities
      case Roles => roles
      case Memberships => memberships
    }
  }

  function PresentKeys(r: Resource, items: seq<Dict>): set<string> {
    set item | item in items && Present(item) :: Fold(NameOf(r, item))
  }

  function MakeContext(m: Manifest, s: Snapshot): Context {
    Context(ItemsByIdentity(Permissions, s.permissions), ItemsByIdentity(Entities, s.entities),
            ItemsByIdentity(Roles, s.roles), ItemsByIdentity(Memberships, s.memberships),
            UsersByEmail(s.users), PresentKeys(Entities, m.entities), PresentKeys(Roles, m.roles))
  }

  const REF := "$outlabs_ref"

  function Ref(r: Resource, identity: string): Json {
    Obj([(REF, Obj([("resource", Str(ResourceName(r))), ("identity", Str(identity))]))])
  }

  /** The id of a known row, or a placeholder for one the plan is going to create. */
  function LookupOrRef(r: Resource, identity: string, current: map<string, Dict>, present: set<string>)
    : Result<Json, PlanError>
  {
    var key := Fold(identity);
    if key in current then Success(Get(current[key], "id"))
    else if key in present then Success(Ref(r, identity))
    else Failure(ReferenceNotFound(r, identity))
  }

  function Restrict(item: Dict, fields: set<string>): Dict {
    map f | f in item && f in fields :: item[f]
  }

  /** `_managed_diff`: the declared fields whose canonical value differs. */
  function ManagedDiff(current: Dict, desired: Dict, fields: set<string>): Dict {
    map f | f in desired && f in fields && Canonical(Get(current, f)) != Canonical(desired[f]) :: desired[f]
  }

  datatype Planned = Planned(changes: seq<Operation>, deletes: seq<Operation>)

  const NOTHING := Planned([], [])

  function ElementPath(r: Resource, row: Dict): Path {
    if r == Memberships then MembershipOf(PyStr(Get(row, "entity_id")), PyStr(Get(row, "user_id")))
    else Element(r, PyStr(Get(row, "id")))
  }

  function UpdateOf(r: Resource, identity: string, row: Dict, changes: Dict): seq<Operation> {
    if changes == map[] then []
    else [MakeOperation(r, identity, UpdateAction, Patch, ElementPath(r, row), Some(changes), Some(row))]
  }

  function CreateOf(r: Resource, identity: string, body: Dict): Operation {
    MakeOperation(r, identity, CreateAction, Post, Collection(r), Some(body), None)
  }

  /** An absent item only ever deletes the row it names. */
  function PlanAbsent(r: Resource, c: Context, item: Dict): Planned {
    var identity := NameOf(r, item);
    match Lookup(c.Current(r), Fold(identity))
    case None => NOTHING
    case Some(row) =>
      Planned([], [MakeOperation(r, identity, DeleteAction, Delete, ElementPath(r, row), None, Some(row))])
  }

  function PlanPermission(c: Context, item: Dict): Result<Planned, PlanError> {
    var identity := NameOf(Permissions, item);
    var body := Restrict(item, {"name"} + ManagedFields(Permissions));
    match Lookup(c.permissions, Fold(identity))
    case None =>
      if "display_name" !in body then Failure(CreateFieldsMissing(Permissions, identity, {"display_name"}))
      else Success(Planned([CreateOf(Permissions, identity, body)], []))
    case Some(row) =>
      Success(Planned(UpdateOf(Permissions, identity, row, ManagedDiff(row, item, ManagedFields(Permissions))), []))
  }

  /** The parent as the plan will send it: null unless the item names one. */
  function ParentValue(c: Context, item: Dict): Result<Json, PlanError> {
    var parent := Get(item, "parent");
    if NonemptyText(parent) then LookupOrRef(Entities, parent.s, c.entities, c.presentEntities) else Success(Null)
  }

  const ENTITY_CREATE_FIELDS: set<string> := {"name", "display_name", "entity_class", "entity_type"}

  function PlanEntity(c: Context, item: Dict): Result<Planned, PlanError> {
    var identity := NameOf(Entities, item);
    var parent :- ParentValue(c, item);
    var body := Restrict(item, {"slug"} + ManagedFields(Entities));
    match Lookup(c.entities, Fold(identity))
    case None =>
      if !(ENTITY_CREATE_FIELDS <= body.Keys) then
        Failure(CreateFieldsMissing(Entities, identity, ENTITY_CREATE_FIELDS - body.Keys))
      else
        var full := if Get(item, "parent") != Null then body["parent_entity_id" := parent] else body;
        Success(Planned([CreateOf(Entities, identity, full)], []))
    case Some(row) =>
      var updates := UpdateOf(Entities, identity, row, ManagedDiff(row, item, ManagedFields(Entities)));
      var moves :=
        if "parent" in item && Canonical(Get(row, "parent_entity_id")) != Canonical(parent) then
          [MakeOperation(Entities, identity, MoveAction, Post, MoveOf(PyStr(Get(row, "id"))),
                         Some(map["new_parent_id" := parent]), Some(row))]
        else [];
      Success(Planned(updates + moves, []))
  }

  /** `root_entity` or `scope_entity` as the plan will send it. */
  function EntityReference(c: Context, value: Json): Result<Json, PlanError> {
    if Truthy(value) then LookupOrRef(Entities, PyStr(value), c.entities, c.presentEntities) else Success(Null)
  }

  function WithReference(c: Context, item: Dict, body: Dict, source: string,
                         destination: string): Result<Dict, PlanError> {
    if source in item then
      var value :- EntityReference(c, item[source]);
      Success(body[destination := value])
    else Success(body)
  }

  function PlanRole(c: Context, item: Dict): Result<Planned, PlanError> {
    var identity := NameOf(Roles, item);
    var fields := Restrict(item, {"name"} + ManagedFields(Roles));
    var rooted :- WithReference(c, item, fields, "root_entity", "root_entity_id");
    var body :- WithReference(c, item, rooted, "scope_entity", "scope_entity_id");
    match Lookup(c.roles, Fold(identity))
    case None =>
      if "display_name" !in body then Failure(CreateFieldsMissing(Roles, identity, {"display_name"}))
      else Success(Planned([CreateOf(Roles, identity, body)], []))
    case Some(row) =>
      Success(Planned(UpdateOf(Roles, identity, row, ManagedDiff(row, item, ManagedFields(Roles))), []))
  }

  function RoleIds(c: Context, roles: seq<Json>): Result<seq<Json>, PlanError>
    requires forall x <- roles :: x.Str?
  {
    if roles == [] then Success([])
    else
      assert roles[|roles| - 1] in roles;
      assert forall x <- roles[..|roles| - 1] :: x in roles;
      var front :- RoleIds(c, roles[..|roles| - 1]);
      var last :- LookupOrRef(Roles, roles[|roles| - 1].s, c.roles, c.presentRoles);
      Success(front + [last])
  }

  function DeclaredRoles(item: Dict): Json {
    if "roles" in item then item["roles"] else List([])
  }

  function PlanMembership(c: Context, item: Dict): Result<Planned, PlanError> {
    var identity := NameOf(Memberships, item);
    match Lookup(c.users, UserKey(item))
    case None => Failure(UserNotFound(PyStr(Get(item, "user"))))
    case Some(user) =>
      var entity :- LookupOrRef(Entities, PyStr(Get(item, "entity")), c.entities, c.presentEntities);
      var roles := DeclaredRoles(item);
      if !(roles.List? && forall x <- roles.items :: x.Str?) then Failure(RolesNotNames(identity))
      else
        var ids :- RoleIds(c, roles.items);
        match Lookup(c.memberships, Fold(identity))
        case None =>
          var body := map["user_id" := Get(user, "id"), "entity_id" := entity, "role_ids" := List(ids)]
                      + Restrict(item, ManagedFields(Memberships) + {"reason"});
          Success(Planned([CreateOf(Memberships, identity, body)], []))
        case Some(row) =>
          var desired := Restrict(item, ManagedFields(Memberships))
                         + if "roles" in item then map["role_ids" := List(ids)] else map[];
          var changes := ManagedDiff(row, desired, desired.Keys);
          var reasoned := if changes != map[] && "reason" in item then changes["reason" := item["reason"]] else changes;
          Success(Planned(UpdateOf(Memberships, identity, row, reasoned), []))
  }

  function PlanItem(r: Resource, c: Context, item: Dict): Result<Planned, PlanError> {
    if !Present(item) then Success(PlanAbsent(r, c, item))
    else match r
      case Permissions => PlanPermission(c, item)
      case Entities => PlanEntity(c, item)
      case Roles => PlanRole(c, item)
      case Memberships => PlanMembership(c, item)
  }

  function PlanItems(r: Resource, c: Context, items: seq<Dict>): Result<Planned, PlanError> {
    if items == [] then Success(NOTHING)
    else
      var front :- PlanItems(r, c, items[..|items| - 1]);
      var last :- PlanItem(r, c, items[|items| - 1]);
      Success(Planned(front.changes + last.changes, front.deletes + last.deletes))
  }

  function PresentItems(items: seq<Dict>): seq<Dict> {
    if items == [] then []
    else
      var last := items[|items| - 1];
      PresentItems(items[..|items| - 1]) + if Present(last) then [last] else []
  }

  function AbsentItems(items: seq<Dict>): seq<Dict> {
    if items == [] then []
    else
      var last := items[|items| - 1];
      AbsentItems(items[..|items| - 1]) + if Present(last) then [] else [last]
  }

  /** Present entities with parents first, then the absent ones as declared. */
  function EntitySequence(items: seq<Dict>): Result<seq<Dict>, PlanError> {
    match TopologicalOrder(PresentItems(items))
    case None => Failure(EntityCycle)
    case Some(ordered) => Success(ordered + AbsentItems(items))
  }

  /** Deepest entities first, equally deep ones as declared. */
  function SortDeletes(p: Parents, deletes: seq<Operation>): seq<Operation> {
    Sort((a: Operation, b: Operation) => DepthOf(p, a.before) >= DepthOf(p, b.before), deletes)
  }

  function Assemble(p: Planned, e: Planned, r: Planned, m: Planned, links: Parents): seq<Operation> {
    p.changes + e.changes + r.changes + m.changes + m.deletes + r.deletes + SortDeletes(links, e.deletes) + p.deletes
  }

  function PlanFromSnapshot(m: Manifest, s: Snapshot): Result<seq<Operation>, PlanError> {
    var c := MakeContext(m, s);
    var permissions :- PlanItems(Permissions, c, m.permissions);
    var sequence :- EntitySequence(m.entities);
    var entities :- PlanItems(Entities, c, sequence);
    var roles :- PlanItems(Roles, c, m.roles);
    var memberships :- PlanItems(Memberships, c, m.memberships);
    Success(Assemble(permissions, entities, roles, memberships, LinksOf(s.entities)))
  }

  /** The plan `build_plan` returns for a validated manifest. */
  function Plan(m: Manifest, remote: Remote): Result<seq<Operation>, PlanError> {
    var s :- FetchSnapshot(remote, m);
    PlanFromSnapshot(m, s)
  }

  // ---- the loops of the source ----------------------------------------------------------------

  lemma {:induction false} PlanItemsFailsLater(r: Resource, c: Context, items: seq<Dict>, i: nat)
    requires i <= |items| && PlanItems(r, c, items[..i]).Failure?
    ensures PlanItems(r, c, items) == PlanItems(r, c, items[..i])
    decreases |items| - i
  {
    if i < |items| {
      assert items[..i + 1][..i] == items[..i];
      PlanItemsFailsLater(r, c, items, i + 1);
    } else {
      assert items[..i] == items;
    }
  }

  /** One pass over a resource group. */
  method PlanGroup(r: Resource, c: Context, items: seq<Dict>) returns (planned: Result<Planned, PlanError>)
    ensures planned == PlanItems(r, c, items)
  {
    var changes: seq<Operation>, deletes: seq<Operation> := [], [];
    for i := 0 to |items|
      invariant PlanItems(r, c, items[..i]) == Success(Planned(changes, deletes))
    {
      assert items[..i + 1][..i] == items[..i];
      var next := PlanItem(r, c, items[i]);
      if next.Failure? {
        PlanItemsFailsLater(r, c, items, i + 1);
        return Failure(next.error);
      }
      changes := changes + next.value.changes;
      deletes := deletes + next.value.deletes;
    }
    assert items[..|items|] == items;
    return Success(Planned(changes, deletes));
  }

  method BuildPlan(m: Manifest, remote: Remote) returns (r: Result<seq<Operation>, PlanError>)
    ensures r == Plan(m, remote)
  {
    var fetched := ReadSnapshot(remote, m);
    if fetched.Failure? {
      return Failure(fetched.error);
    }
    var s := fetched.value;
    var c := MakeContext(m, s);
    var permissions := PlanGroup(Permissions, c, m.permissions);
    if permissions.Failure? {
      return Failure(permissions.error);
    }
    var ordered := TopologicalEntities(PresentItems(m.entities));
    if ordered.None? {
      return Failure(EntityCycle);
    }
    var entities := PlanGroup(Entities, c, ordered.value + AbsentItems(m.entities));
    if entities.Failure? {
      return Failure(entities.error);
    }
    var roles := PlanGroup(Roles, c, m.roles);
    if roles.Failure? {
      return Failure(roles.error);
    }
    var memberships := PlanGroup(Memberships, c, m.memberships);
    if memberships.Failure? {
      return Failure(memberships.error);
    }
    return Success(Assemble(permissions.value, entities.value, roles.value, memberships.value, LinksOf(s.entities)));
  }
}
