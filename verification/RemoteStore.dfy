/** The remote side as an abstract store, and the snapshot a client takes of it. */
module RemoteStore {
  import opened Outcomes
  import opened Text
  import opened JsonValues
  import opened Indexing
  import opened Manifests

  /** Rows by id; a membership row by (entity id, user id). */
  datatype Remote = Remote(
    permissions: map<string, Dict>,
    entities: map<string, Dict>,
    roles: map<string, Dict>,
    users: map<string, Dict>,
    memberships: map<(string, string), Dict>)
  {
    function Table(r: Resource): map<string, Dict>
      requires r != Memberships
    {
      match r
      case Permissions => permissions
      case Entities => entities
      case Roles => roles
    }

    function WithTable(r: Resource, t: map<string, Dict>): Remote
      requires r != Memberships
    {
      match r
      case Permissions => this.(permissions := t)
      case Entities => this.(entities := t)
      case Roles => this.(roles := t)
    }
  }

  // ---- what the service guarantees of its rows ------------------------------------------------

  function IdentityField(r: Resource): string
    requires r != Memberships
  {
    if r == Entities then "slug" else "name"
  }

  predicate NullOrText(j: Json) {
    j.Null? || NonemptyText(j)
  }

  predicate TextList(j: Json) {
    j.Null? || (j.List? && forall x <- j.items :: x.Str?)
  }

  predicate ValidRow(r: Resource, id: string, row: Dict)
    requires r != Memberships
  {
    && id != "" && Get(row, "id") == Str(id)
    && NonemptyText(Get(row, IdentityField(r)))
    && (r == Entities ==> '@' !in Get(row, "slug").s)
  }

  /** Every row carries its id and a usable identity, and no two rows of a table share a casefolded identity. */
  ghost predicate ValidTable(r: Resource, t: map<string, Dict>)
    requires r != Memberships
  {
    && (forall id | id in t :: ValidRow(r, id, t[id]))
    && (forall a, b | a in t && b in t && FoldedIdentity(r, t[a]) == FoldedIdentity(r, t[b]) :: a == b)
  }

  function EmailKey(user: Dict): Option<string> {
    if Truthy(Get(user, "email")) then Some(Fold(PyStr(Get(user, "email")))) else None
  }

  ghost predicate ValidUsers(t: map<string, Dict>) {
    && (forall id | id in t :: id != "" && Get(t[id], "id") == Str(id) && NonemptyText(Get(t[id], "email")))
    && (forall a, b | a in t && b in t && EmailKey(t[a]) == EmailKey(t[b]) :: a == b)
  }

  ghost predicate ValidMemberships(t: map<(string, string), Dict>) {
    forall k | k in t :: Get(t[k], "entity_id") == Str(k.0) && Get(t[k], "user_id") == Str(k.1)
  }

  ghost predicate ValidRemote(s: Remote) {
    && ValidTable(Permissions, s.permissions)
    && ValidTable(Entities, s.entities)
    && ValidTable(Roles, s.roles)
    && ValidUsers(s.users)
    && ValidMemberships(s.memberships)
  }

  /** References between rows are ids or null, never placeholders. */
  ghost predicate PlainReferences(s: Remote) {
    && (forall id | id in s.entities :: NullOrText(Get(s.entities[id], "parent_entity_id")))
    && (forall k | k in s.memberships :: TextList(Get(s.memberships[k], "role_ids")))
  }

  // ---- reading --------------------------------------------------------------------------------

  /** A complete paginated listing. The order of the rows is immaterial; ids order them here. */
  function Listing(t: map<string, Dict>): seq<Dict> {
    var ids := SortedKeys(t.Keys);
    seq(|ids|, i requires 0 <= i < |ids| => assert ids[i] in ids; t[ids[i]])
  }

  /** A listing holds every row of the table and nothing else. */
  lemma ListingMembers(t: map<string, Dict>)
    ensures |Listing(t)| == |t|
    ensures forall id | id in t :: t[id] in Listing(t)
    ensures forall row | row in Listing(t) :: exists id | id in t :: t[id] == row
  {
    var ids := SortedKeys(t.Keys);
    forall id | id in t ensures t[id] in Listing(t) {
      assert id in ids;
      var i :| 0 <= i < |ids| && ids[i] == id;
      assert Listing(t)[i] == t[id];
    }
    forall row | row in Listing(t) ensures exists id | id in t :: t[id] == row {
      var i :| 0 <= i < |Listing(t)| && Listing(t)[i] == row;
      assert ids[i] in ids && t[ids[i]] == row;
    }
  }

  /** `/memberships/user/{id}`, read to the end. */
  function UserMemberships(s: Remote, uid: string): seq<Dict> {
    var entities := SortedKeys(set k | k in s.memberships && k.1 == uid :: k.0);
    seq(|entities|, i requires 0 <= i < |entities| => assert entities[i] in entities; s.memberships[(entities[i], uid)])
  }

  function FindById(rows: seq<Dict>, id: string): Option<Dict> {
    if rows == [] then None
    else if PyStr(Get(rows[0], "id")) == id then Some(rows[0])
    else FindById(rows[1..], id)
  }

  function JoinedRow(row: Dict, user: Dict, entity: Dict): Dict {
    row["user" := Get(user, "email")]["entity" := Get(entity, "slug")]
  }

  /** A row whose entity is not among `entities` is dropped. */
  function JoinedOne(row: Dict, user: Dict, entities: seq<Dict>): seq<Dict> {
    match FindById(entities, PyStr(Get(row, "entity_id")))
    case None => []
    case Some(entity) => [JoinedRow(row, user, entity)]
  }

  function Joined(rows: seq<Dict>, user: Dict, entities: seq<Dict>): seq<Dict> {
    if rows == [] then []
    else Joined(rows[..|rows| - 1], user, entities) + JoinedOne(rows[|rows| - 1], user, entities)
  }

  datatype Snapshot = Snapshot(
    permissions: seq<Dict>,
    entities: seq<Dict>,
    roles: seq<Dict>,
    users: seq<Dict>,
    memberships: seq<Dict>)
  {
    function Rows(r: Resource): seq<Dict> {
      match r
      case Permissions => permissions
      case Entities => entities
      case Roles => roles
      case Memberships => memberships
    }
  }

  datatype PlanError =
    | UserNotFound(email: string)
    | ReferenceNotFound(resource: Resource, identity: string)
    | CreateFieldsMissing(resource: Resource, identity: string, fields: set<string>)
    | EntityCycle
    | RolesNotNames(identity: string)

  function UsersByEmail(users: seq<Dict>): map<string, Dict> {
    IndexBy(EmailKey, users)
  }

  function UserKey(item: Dict): string {
    Fold(PyStr(Get(item, "user")))
  }

  /** The membership rows read so far and the users they were read for. */
  function FetchMemberships(s: Remote, users: map<string, Dict>, entities: seq<Dict>, desired: seq<Dict>)
    : Result<(seq<Dict>, set<string>), PlanError>
  {
    if desired == [] then Success(([], {}))
    else
      var (rows, fetched) :- FetchMemberships(s, users, entities, desired[..|desired| - 1]);
      var item := desired[|desired| - 1];
      match Lookup(users, UserKey(item))
      case None => if Present(item) then Failure(UserNotFound(PyStr(Get(item, "user")))) else Success((rows, fetched))
      case Some(user) =>
        var uid := PyStr(Get(user, "id"));
        if uid in fetched then Success((rows, fetched))
        else Success((rows + Joined(UserMemberships(s, uid), user, entities), fetched + {uid}))
  }

  predicate NeedsEntities(desired: Manifest) {
    desired.entities != [] || desired.memberships != [] ||
    exists item <- desired.roles :: Truthy(Get(item, "root_entity")) || Truthy(Get(item, "scope_entity"))
  }

  /** `_fetch_snapshot`: only the groups the manifest touches are read. */
  function FetchSnapshot(s: Remote, desired: Manifest): Result<Snapshot, PlanError> {
    var permissions := if desired.permissions != [] then Listing(s.permissions) else [];
    var entities := if NeedsEntities(desired) then Listing(s.entities) else [];
    var roles := if desired.roles != [] || desired.memberships != [] then Listing(s.roles) else [];
    var users := if desired.memberships != [] then Listing(s.users) else [];
    var (memberships, _) :- FetchMemberships(s, UsersByEmail(users), entities, desired.memberships);
    Success(Snapshot(permissions, entities, roles, users, memberships))
  }

  /** `_items_by_identity`. */
  function ItemsByIdentity(r: Resource, rows: seq<Dict>): map<string, Dict> {
    IndexBy(Keyed(r), rows)
  }

  // ---- the loop of the source -----------------------------------------------------------------

  lemma {:induction false} FetchFailsLater(s: Remote, users: map<string, Dict>, entities: seq<Dict>,
                                           desired: seq<Dict>, i: nat)
    requires i <= |desired| && FetchMemberships(s, users, entities, desired[..i]).Failure?
    ensures FetchMemberships(s, users, entities, desired) == FetchMemberships(s, users, entities, desired[..i])
    decreases |desired| - i
  {
    hide Joined, UserMemberships, UserKey;
    if i < |desired| {
      assert desired[..i + 1][..i] == desired[..i];
      FetchFailsLater(s, users, entities, desired, i + 1);
    } else {
      assert desired[..i] == desired;
    }
  }

  method ReadMemberships(s: Remote, users: map<string, Dict>, entities: seq<Dict>, desired: seq<Dict>)
    returns (r: Result<seq<Dict>, PlanError>)
    ensures match FetchMemberships(s, users, entities, desired)
      case Failure(e) => r == Failure(e)
      case Success(read) => r == Success(read.0)
  {
    hide Joined, UserMemberships, UserKey;
    var rows: seq<Dict> := [];
    var fetched: set<string> := {};
    for i := 0 to |desired|
      invariant FetchMemberships(s, users, entities, desired[..i]) == Success((rows, fetched))
    {
      assert desired[..i + 1][..i] == desired[..i];
      var key := UserKey(desired[i]);
      if key !in users {
        if Present(desired[i]) {
          FetchFailsLater(s, users, entities, desired, i + 1);
          return Failure(UserNotFound(PyStr(Get(desired[i], "user"))));
        }
      } else {
        var uid := PyStr(Get(users[key], "id"));
        if uid !in fetched {
          rows := rows + Joined(UserMemberships(s, uid), users[key], entities);
          fetched := fetched + {uid};
        }
      }
    }
    assert desired[..|desired|] == desired;
    return Success(rows);
  }

  /** Some stored user bears the e-mail a membership names. */
  ghost predicate UserExists(s: Remote, item: Dict) {
    exists u :: u in s.users && EmailKey(s.users[u]) == Some(UserKey(item))
  }

  lemma StoredUserFound(s: Remote, item: Dict)
    ensures UserKey(item) in UsersByEmail(Listing(s.users)) <==> UserExists(s, item)
  {
    hide Listing, UserKey;
    ListingMembers(s.users);
    IndexSound(EmailKey, Listing(s.users));
    IndexComplete(EmailKey, Listing(s.users));
  }

  lemma {:induction false} FetchSucceedsIff(s: Remote, users: map<string, Dict>, entities: seq<Dict>,
                                            desired: seq<Dict>)
    ensures FetchMemberships(s, users, entities, desired).Success? <==>
      forall item | item in desired && Present(item) :: UserKey(item) in users
  {
    if desired != [] {
      var n := |desired| - 1;
      FetchSucceedsIff(s, users, entities, desired[..n]);
      assert desired == desired[..n] + [desired[n]];
    }
  }

  function ReadUsers(s: Remote, m: Manifest): map<string, Dict> {
    UsersByEmail(if m.memberships != [] then Listing(s.users) else [])
  }

  /** A table that was read is there completely, one row a line; one that was not is empty. */
  ghost predicate Shows(rows: seq<Dict>, t: map<string, Dict>, read: bool) {
    if !read then rows == []
    else
      && |rows| == |t|
      && (forall id | id in t :: t[id] in rows)
      && (forall row | row in rows :: exists id | id in t :: t[id] == row)
  }

  lemma ListingShows(t: map<string, Dict>, read: bool)
    ensures Shows(if read then Listing(t) else [], t, read)
  {
    hide Listing;
    ListingMembers(t);
  }

  lemma SnapshotShows(s: Remote, desired: Manifest, read: Snapshot)
    requires FetchSnapshot(s, desired) == Success(read)
    ensures Shows(read.permissions, s.permissions, desired.permissions != [])
    ensures Shows(read.entities, s.entities, NeedsEntities(desired))
    ensures Shows(read.roles, s.roles, desired.roles != [] || desired.memberships != [])
    ensures Shows(read.users, s.users, desired.memberships != [])
  {
    hide Listing, Shows, FetchMemberships, UsersByEmail, NeedsEntities;
    ListingShows(s.permissions, desired.permissions != []);
    ListingShows(s.entities, NeedsEntities(desired));
    ListingShows(s.roles, desired.roles != [] || desired.memberships != []);
    ListingShows(s.users, desired.memberships != []);
  }

  lemma SnapshotFailsIff(s: Remote, desired: Manifest)
    ensures FetchSnapshot(s, desired).Failure? <==>
      exists item | item in desired.memberships :: Present(item) && !UserExists(s, item)
  {
    hide Listing, UserKey, UsersByEmail, UserExists, FetchMemberships;
    forall item ensures UserKey(item) in UsersByEmail(Listing(s.users)) <==> UserExists(s, item) {
      StoredUserFound(s, item);
    }
    var users := if desired.memberships != [] then Listing(s.users) else [];
    var entities := if NeedsEntities(desired) then Listing(s.entities) else [];
    FetchSucceedsIff(s, UsersByEmail(users), entities, desired.memberships);
  }

  /** Reading fails exactly when a membership declared present names a user who is not stored; otherwise each table the
      manifest touches is shown completely, and no other. */
  method ReadSnapshot(s: Remote, desired: Manifest) returns (r: Result<Snapshot, PlanError>)
    ensures r == FetchSnapshot(s, desired)
    ensures r.Failure? <==> exists item | item in desired.memberships :: Present(item) && !UserExists(s, item)
    ensures r.Success? ==>
      && Shows(r.value.permissions, s.permissions, desired.permissions != [])
      && Shows(r.value.entities, s.entities, NeedsEntities(desired))
      && Shows(r.value.roles, s.roles, desired.roles != [] || desired.memberships != [])
      && Shows(r.value.users, s.users, desired.memberships != [])
  {
    hide Listing, UserKey, UsersByEmail, UserExists, Shows, FetchMemberships, NeedsEntities;
    SnapshotFailsIff(s, desired);
    var permissions := if desired.permissions != [] then Listing(s.permissions) else [];
    var entities := if NeedsEntities(desired) then Listing(s.entities) else [];
    var roles := if desired.roles != [] || desired.memberships != [] then Listing(s.roles) else [];
    var users := if desired.memberships != [] then Listing(s.users) else [];
    var memberships := ReadMemberships(s, UsersByEmail(users), entities, desired.memberships);
    if memberships.Failure? {
      return Failure(memberships.error);
    }
    r := Success(Snapshot(permissions, entities, roles, users, memberships.value));
    SnapshotShows(s, desired, r.value);
  }
}
