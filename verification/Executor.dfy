/** `apply_plan`: placeholders are resolved and operations sent in order; the server may refuse any of them. */
module Executor {
  import opened Outcomes
  import opened Text
  import opened JsonValues
  import opened Indexing
  import opened Manifests
  import opened RemoteStore
  import opened Planner

  /** Known ids: resource name, then casefolded identity. */
  type Ids = map<string, map<string, string>>

  datatype Cause =
    | InvalidReference
    | UnresolvedReference(resource: string, identity: string)
    | RequestFailed(code: string)

  function IdFor(ids: Ids, resource: string, key: string): Option<string> {
    if resource in ids then Lookup(ids[resource], key) else None
  }

  function Record(ids: Ids, resource: string, key: string, id: string): Ids {
    ids[resource := (if resource in ids then ids[resource] else map[])[key := id]]
  }

  function NamedIdKey(r: Resource, row: Dict): Option<string>
    requires r != Memberships
  {
    if Truthy(Get(row, IdentityField(r))) && Truthy(Get(row, "id")) then Some(Fold(PyStr(Get(row, IdentityField(r)))))
    else None
  }

  function IdsOf(r: Resource, rows: seq<Dict>): map<string, string>
    requires r != Memberships
  {
    var index := IndexBy(row => NamedIdKey(r, row), rows);
    map k | k in index :: PyStr(Get(index[k], "id"))
  }

  /** `_resolved_ids`. */
  function ResolvedIds(s: Snapshot): Ids {
    map["permissions" := IdsOf(Permissions, s.permissions),
        "entities" := IdsOf(Entities, s.entities),
        "roles" := IdsOf(Roles, s.roles)]
  }

  // ---- placeholders ---------------------------------------------------------------------------

  function FieldOf(fields: seq<(string, Json)>, key: string): Json {
    if fields == [] then Null else if fields[0].0 == key then fields[0].1 else FieldOf(fields[1..], key)
  }

  predicate IsReference(j: Json) {
    j.Obj? && |j.fields| == 1 && j.fields[0].0 == REF
  }

  /** `_resolve_body_refs`. */
  function Resolve(j: Json, ids: Ids): Result<Json, Cause>
    decreases j, 1
  {
    if IsReference(j) then
      var reference := j.fields[0].1;
      if !reference.Obj? then Failure(InvalidReference)
      else
        var resource := PyStr(FieldOf(reference.fields, "resource"));
        var identity := PyStr(FieldOf(reference.fields, "identity"));
        match IdFor(ids, resource, Fold(identity))
        case None => Failure(UnresolvedReference(resource, identity))
        case Some(id) => Success(Str(id))
    else match j
      case List(xs) =>
        var items :- ResolveItems(j, |xs|, ids);
        Success(List(items))
      case Obj(fs) =>
        var fields :- ResolveFields(j, |fs|, ids);
        Success(Obj(fields))
      case _ => Success(j)
  }

  function ResolveItems(j: Json, n: nat, ids: Ids): Result<seq<Json>, Cause>
    requires j.List? && n <= |j.items|
    decreases j, 0, n
  {
    if n == 0 then Success([])
    else
      var front :- ResolveItems(j, n - 1, ids);
      var last :- Resolve(j.items[n - 1], ids);
      Success(front + [last])
  }

  function ResolveFields(j: Json, n: nat, ids: Ids): Result<seq<(string, Json)>, Cause>
    requires j.Obj? && n <= |j.fields|
    decreases j, 0, n
  {
    if n == 0 then Success([])
    else
      var front :- ResolveFields(j, n - 1, ids);
      var last :- Resolve(j.fields[n - 1].1, ids);
      Success(front + [(j.fields[n - 1].0, last)])
  }

  function Unresolvable(body: Dict, ids: Ids): set<string> {
    set f | f in body && Resolve(body[f], ids).Failure?
  }

  /** A body of named fields; of several failing fields the one with the least name is reported. */
  function ResolveDict(body: Dict, ids: Ids): Result<Dict, Cause> {
    if Unresolvable(body, ids) == {} then
      Success(map f | f in body :: assert f !in Unresolvable(body, ids); Resolve(body[f], ids).value)
    else
      var f := SortedKeys(Unresolvable(body, ids))[0];
      assert f in SortedKeys(Unresolvable(body, ids));
      Failure(Resolve(body[f], ids).error)
  }

  function ResolveBody(body: Option<Dict>, ids: Ids): Result<Option<Dict>, Cause> {
    match body
    case None => Success(None)
    case Some(d) => var resolved :- ResolveDict(d, ids); Success(Some(resolved))
  }

  // ---- the server -----------------------------------------------------------------------------

  /** What the server makes of one request: it may refuse; a creation names the new id and may leave it out of the
      response. */
  datatype Reply = Accepted(id: string, echoed: bool) | Refused(code: string)

  predicate Mentions(row: Dict, id: string) {
    exists k <- row.Keys :: row[k] == Str(id)
  }

  /** No row bears or mentions the id. */
  predicate Unused(s: Remote, id: string) {
    && id != ""
    && id !in s.permissions && id !in s.entities && id !in s.roles && id !in s.users
    && (forall k <- s.memberships.Keys :: !Mentions(s.memberships[k], id) && k.0 != id && k.1 != id)
    && (forall k <- s.entities.Keys :: !Mentions(s.entities[k], id))
  }

  function AttributesOf(body: Option<Dict>): Dict {
    match body case None => map[] case Some(d) => d
  }

  /** A creation under a fresh id; an existing membership is a conflict. */
  function CreateRow(s: Remote, r: Resource, d: Dict, id: string): Option<Remote> {
    if !Unused(s, id) then None
    else if r == Memberships then
      var key := (PyStr(Get(d, "entity_id")), PyStr(Get(d, "user_id")));
      if key in s.memberships then None else Some(s.(memberships := s.memberships[key := d["id" := Str(id)]]))
    else Some(s.WithTable(r, s.Table(r)[id := d["id" := Str(id)]]))
  }

  function MoveEntity(s: Remote, id: string, d: Dict): Option<Remote> {
    if id !in s.entities then None
    else Some(s.(entities := s.entities[id := s.entities[id]["parent_entity_id" := Get(d, "new_parent_id")]]))
  }

  function ChangeRow(s: Remote, r: Resource, id: string, verb: Verb, d: Dict): Option<Remote> {
    if r == Memberships || id !in s.Table(r) then None
    else if verb == Patch then Some(s.WithTable(r, s.Table(r)[id := s.Table(r)[id] + d]))
    else if verb == Delete then Some(s.WithTable(r, s.Table(r) - {id}))
    else None
  }

  function ChangeMembership(s: Remote, key: (string, string), verb: Verb, d: Dict): Option<Remote> {
    if key !in s.memberships then None
    else if verb == Patch then Some(s.(memberships := s.memberships[key := s.memberships[key] + d]))
    else if verb == Delete then Some(s.(memberships := s.memberships - {key}))
    else None
  }

  /** POST stores the submitted fields under a fresh id, PATCH and move overwrite, DELETE removes the row. `None` is a
      refusal: 404 for a missing row, 409 for an id or a membership that exists,
        405 for a verb the path does not know. */
  function Serve(s: Remote, verb: Verb, path: Path, body: Option<Dict>, id: string): Option<Remote> {
    var d := AttributesOf(body);
    match path
    case Collection(r) => if verb == Post then CreateRow(s, r, d, id) else None
    case MoveOf(eid) => if verb == Post then MoveEntity(s, eid, d) else None
    case Element(r, rid) => ChangeRow(s, r, rid, verb, d)
    case MembershipOf(e, u) => ChangeMembership(s, (e, u), verb, d)
  }

  // ---- running a plan -------------------------------------------------------------------------

  datatype RunState = RunState(remote: Remote, ids: Ids, completed: seq<Operation>, failure: Option<Cause>)

  function Learn(ids: Ids, op: Operation, reply: Reply): Ids {
    if op.action == CreateAction && reply.Accepted? && reply.echoed && reply.id != "" then
      Record(ids, ResourceName(op.resource), Fold(op.identity), reply.id)
    else ids
  }

  function RunOperation(state: RunState, op: Operation, reply: Reply): RunState {
    if state.failure.Some? then state
    else match ResolveBody(op.body, state.ids)
      case Failure(cause) => state.(failure := Some(cause))
      case Success(body) =>
        match reply
        case Refused(code) => state.(failure := Some(RequestFailed(code)))
        case Accepted(id, _) =>
          match Serve(state.remote, op.verb, op.path, body, id)
          case None => state.(failure := Some(RequestFailed("rejected")))
          case Some(remote) => RunState(remote, Learn(state.ids, op, reply), state.completed + [op], None)
  }

  /** The state after the first `n` operations, for a server that answers the i-th request with `replies(i)`. */
  function RunTo(start: RunState, ops: seq<Operation>, replies: nat -> Reply, n: nat): RunState
    requires n <= |ops|
  {
    if n == 0 then start else RunOperation(RunTo(start, ops, replies, n - 1), ops[n - 1], replies(n - 1))
  }
}
