/** Memberships after a plan has been applied completely. */
module FinalMemberships {
  import opened Outcomes
  import opened Text
  import opened JsonValues
  import opened Manifests
  import opened RemoteStore
  import opened Planner
  import opened PlanShape
  import opened SnapshotFacts
  import opened Executor
  import opened RunFacts
  import opened ReferenceSafety
  import opened RunOfPlan
  import opened Convergence

  // ---- the operations of one membership item --------------------------------------------------

  function PlannedRoleIds(c: Context, item: Dict): Result<seq<Json>, PlanError> {
    var roles := DeclaredRoles(item);
    if roles.List? && forall x <- roles.items :: x.Str? then RoleIds(c, roles.items)
    else Failure(RolesNotNames(NameOf(Memberships, item)))
  }

  function PlannedEntity(c: Context, item: Dict): Result<Json, PlanError> {
    LookupOrRef(Entities, PyStr(Get(item, "entity")), c.entities, c.presentEntities)
  }

  /** The fields a membership is compared by. */
  function Wanted(c: Context, item: Dict): Dict {
    Restrict(item, ManagedFields(Memberships)) +
    if "roles" in item && PlannedRoleIds(c, item).Success? then
      map["role_ids" := List(PlannedRoleIds(c, item).value)]
    else map[]
  }

  function WithReason(item: Dict, changes: Dict): Dict {
    if changes != map[] && "reason" in item then changes["reason" := item["reason"]] else changes
  }

  /** Everything a present membership refers to was found or is going to be created. */
  lemma MembershipReferences(c: Context, item: Dict)
    requires PlanMembership(c, item).Success?
    ensures UserKey(item) in c.users && PlannedEntity(c, item).Success? && PlannedRoleIds(c, item).Success?
  {
    hide Restrict, ManagedDiff, RoleIds, LookupOrRef;
  }

  lemma MembershipPlanned(c: Context, item: Dict)
    requires UserKey(item) in c.users && PlannedEntity(c, item).Success? && PlannedRoleIds(c, item).Success?
    requires KeyOf(Memberships, item) in c.memberships
    ensures var row := c.memberships[KeyOf(Memberships, item)];
      PlanMembership(c, item) == Success(Planned(UpdateOf(Memberships, NameOf(Memberships, item), row,
        WithReason(item, ManagedDiff(row, Wanted(c, item), Wanted(c, item).Keys))), []))
  {
    hide Restrict, ManagedDiff, RoleIds, LookupOrRef, ManagedFields;
  }

  lemma MembershipCreated(c: Context, item: Dict)
    requires PlanMembership(c, item).Success? && KeyOf(Memberships, item) !in c.memberships
    ensures |PlanMembership(c, item).value.changes| == 1
    ensures var op := PlanMembership(c, item).value.changes[0];
      && op.body.Some?
      && "user_id" in op.body.value && op.body.value["user_id"] == Get(c.users[UserKey(item)], "id")
      && "entity_id" in op.body.value && op.body.value["entity_id"] == PlannedEntity(c, item).value
      && "role_ids" in op.body.value && op.body.value["role_ids"] == List(PlannedRoleIds(c, item).value)
      && (forall f | f in ManagedFields(Memberships) :: f in op.body.value <==> f in item)
      && (forall f | f in ManagedFields(Memberships) && f in item :: op.body.value[f] == item[f])
  {
    hide RoleIds, LookupOrRef;
    MembershipReferences(c, item);
    ManagedNotLookedUp(Memberships);
  }

  lemma MembershipUpdateFields(c: Context, item: Dict, op: Operation)
    requires PlanMembership(c, item).Success? && op in PlanMembership(c, item).value.changes
    requires op.action != CreateAction
    ensures op.body.Some? && op.body.value.Keys <= ManagedFields(Memberships) + {"role_ids", "reason"}
  {
    hide RoleIds, LookupOrRef, Canonical, ManagedFields;
  }

  lemma PlansMembership(c: Context, item: Dict)
    requires PlanItem(Memberships, c, item).Success? && Present(item)
    ensures PlanMembership(c, item) == PlanItem(Memberships, c, item)
  {
    hide PlanMembership, PlanAbsent;
  }

  // ---- which operations concern which membership ----------------------------------------------

  /** The identity of the membership of a stored user in a stored entity. */
  function PairIdentity(s: Remote, e: string, u: string): string {
    MembershipIdentity(PyStr(Get(if u in s.users then s.users[u] else map[], "email")),
                       PyStr(Get(if e in s.entities then s.entities[e] else map[], "slug")))
  }

  lemma PairIdentityIs(s: Remote, e: string, u: string)
    requires ValidRemote(s) && u in s.users && e in s.entities
    ensures PairIdentity(s, e, u) == MembershipIdentity(Get(s.users[u], "email").s, Get(s.entities[e], "slug").s)
  {
    assert ValidRow(Entities, e, s.entities[e]);
  }

  lemma StoredPair(s: Remote, k: (string, string))
    requires ValidRemote(s) && k in s.memberships
    ensures Get(s.memberships[k], "entity_id") == Str(k.0) && Get(s.memberships[k], "user_id") == Str(k.1)
  {
  }

  lemma JoinPath(s: Remote, row: Dict, e: string, u: string)
    requires ValidRemote(s) && IsJoin(s, row, e, u)
    ensures ElementPath(Memberships, row) == MembershipOf(e, u)
  {
    hide ValidRemote;
    StoredPair(s, (e, u));
    assert Get(row, "entity_id") == Get(s.memberships[(e, u)], "entity_id");
    assert Get(row, "user_id") == Get(s.memberships[(e, u)], "user_id");
  }

  lemma FoldedName(item: Dict)
    requires Identity(Memberships, item).Some?
    ensures KeyOf(Memberships, item) == NameOf(Memberships, item) ==
      MembershipIdentity(PyStr(item["user"]), PyStr(item["entity"]))
  {
    var user, entity := PyStr(item["user"]), PyStr(item["entity"]);
    FoldConcat(Fold(user) + "@", Fold(entity));
    FoldConcat(Fold(user), "@");
    FoldIdempotent(user);
    FoldIdempotent(entity);
    assert Fold("@") == "@";
  }

  /** An operation that addresses a stored membership bears its identity. */
  lemma TouchedMembership(m: Manifest, remote: Remote, b: Blueprint, q: nat, e: string, u: string) returns (i: nat)
    requires Compiles(m, remote, b) && ValidRemote(remote) && q < |b.Ops()| && b.Ops()[q].path == MembershipOf(e, u)
    ensures b.Ops()[q].resource == Memberships && e in remote.entities && u in remote.users
    ensures (e, u) in remote.memberships
    ensures i < |m.memberships| && PlanItem(Memberships, b.c, m.memberships[i]).Success?
    ensures Fold(b.Ops()[q].identity) == KeyOf(Memberships, m.memberships[i]) == PairIdentity(remote, e, u)
    ensures q < b.ChangeCount() ==> Present(m.memberships[i])
    ensures q >= b.ChangeCount() ==> !Present(m.memberships[i])
  {
    hide FetchSnapshot, MakeContext, EntitySequence, PlanItem, PlanItems, Assemble, PairIdentity, MembershipIdentity;
    var r, j := OwnerOfOperation(m, remote, b, q);
    i := j;
    var key := KeyOf(r, b.Items(m, r)[i]);
    assert r == Memberships && key in b.c.memberships;
    var e', u' := FoundMembership(m, remote, b.c, key);
    JoinPath(remote, b.c.memberships[key], e', u');
    PairIdentityIs(remote, e, u);
  }

  // ---- created memberships --------------------------------------------------------------------

  lemma ItemUser(m: Manifest, remote: Remote, c: Context, i: nat) returns (u: string)
    requires ContextOf(m, remote, c) && ValidRemote(remote) && i < |m.memberships|
    requires UserKey(m.memberships[i]) in c.users
    ensures u in remote.users && remote.users[u] == c.users[UserKey(m.memberships[i])]
    ensures EmailKey(remote.users[u]) == Some(UserKey(m.memberships[i])) && UserAsked(remote, m.memberships, u)
    ensures Get(c.users[UserKey(m.memberships[i])], "id") == Str(u)
  {
    hide FetchSnapshot, MakeContext;
    ContextUsers(m, remote, c);
    u := RowId(c.users[UserKey(m.memberships[i])]);
    assert Some(UserKey(m.memberships[i])) == EmailKey(remote.users[u]);
  }

  lemma CompiledContext(m: Manifest, remote: Remote, b: Blueprint)
    requires Compiles(m, remote, b)
    ensures ContextOf(m, remote, b.c)
  {
  }

  lemma ResolvedLookupIsText(c: Context, r: Resource, identity: string, ids: Ids)
    requires r in {Entities, Roles} && IdsAreText(c.Current(r))
    requires LookupOrRef(r, identity, c.Current(r), Declared(c, r)).Success?
    requires Resolve(LookupOrRef(r, identity, c.Current(r), Declared(c, r)).value, ids).Success?
    ensures Resolve(LookupOrRef(r, identity, c.Current(r), Declared(c, r)).value, ids).value.Str?
  {
    ResolveRef(r, identity, ids);
  }

  /** The membership item behind a creation, and what its request carries. */
  lemma CreatedMembership(m: Manifest, remote: Remote, b: Blueprint, run: Run, n: nat, q: nat)
    returns (i: nat, u: string)
    requires Applies(m, remote, b, run) && q < n && run.Ran(n)
    requires run.ops[q].path == Collection(Memberships)
    ensures i < |m.memberships| && Present(m.memberships[i]) && KeyOf(Memberships, m.memberships[i]) !in b.c.memberships
    ensures PlanItem(Memberships, b.c, m.memberships[i]).Success?
    ensures PlanItem(Memberships, b.c, m.memberships[i]).value.changes == [run.ops[q]]
    ensures KeyOf(Memberships, m.memberships[i]) == Fold(run.ops[q].identity)
    ensures UserKey(m.memberships[i]) in b.c.users && PlannedEntity(b.c, m.memberships[i]).Success?
    ensures u in remote.users && EmailKey(remote.users[u]) == Some(UserKey(m.memberships[i]))
    ensures UserAsked(remote, m.memberships, u)
    ensures Get(AttributesOf(run.Body(q)), "user_id") == Str(u)
    ensures Get(AttributesOf(run.Body(q)), "entity_id").Str?
    ensures Resolve(PlannedEntity(b.c, m.memberships[i]).value, run.At(q).ids) ==
      Success(Get(AttributesOf(run.Body(q)), "entity_id"))
  {
    hide ValidManifest, FoldDistinct, Compiles, FoldedIdentity, RunTo, Serve, PlanItem, PlanItems, Assemble, Resolve,
      LookupOrRef, UserAsked, EmailKey, ResolveBody, ValidRemote, UserKey;
    CollectionIsCreation(m, remote, b, q, Memberships);
    i := CreatedItem(m, remote, b, q, Memberships, Fold(run.ops[q].identity));
    var item := m.memberships[i];
    CompiledContext(m, remote, b);
    PlansMembership(b.c, item);
    MembershipReferences(b.c, item);
    MembershipCreated(b.c, item);
    u := ItemUser(m, remote, b.c, i);
    ResolvedField(run, n, q, "user_id");
    ResolvedField(run, n, q, "entity_id");
    TextResolves(run.ops[q].body.value["user_id"], run.At(q).ids);
    ContextIsText(m, remote, b);
    ResolvedLookupIsText(b.c, Entities, PyStr(Get(item, "entity")), run.At(q).ids);
  }

  lemma TextResolves(j: Json, ids: Ids)
    requires j.Str?
    ensures Resolve(j, ids) == Success(j)
  {
  }

  lemma MembershipFieldsNotWritten(m: Manifest, remote: Remote, b: Blueprint, q: nat, e: string, u: string)
    requires Compiles(m, remote, b) && ValidRemote(remote) && q < |b.Ops()| && b.Ops()[q].path == MembershipOf(e, u)
    ensures !WritesField(b.Ops()[q], "entity_id") && !WritesField(b.Ops()[q], "user_id")
  {
    hide FetchSnapshot, MakeContext, EntitySequence, PlanItem, PlanItems, Assemble, PairIdentity;
    if b.Ops()[q].body.Some? {
      var r, i := BodyOwner(m, remote, b, q);
      ItemOperations(r, b.c, b.Items(m, r)[i]);
      var i' := TouchedMembership(m, remote, b, q, e, u);
      PlansMembership(b.c, b.Items(m, r)[i]);
      MembershipUpdateFields(b.c, b.Items(m, r)[i], b.Ops()[q]);
      PairFieldsNotManaged();
    }
  }

  lemma PairFieldsNotManaged()
    ensures "entity_id" !in ManagedFields(Memberships) + {"role_ids", "reason"}
    ensures "user_id" !in ManagedFields(Memberships) + {"role_ids", "reason"}
  {
  }

  lemma SurvivorKeepsMembershipField(s: Remote, op: Operation, body: Option<Dict>, newId: string, k: (string, string),
                                     f: string)
    requires k in s.memberships && AttributesOf(body).Keys == AttributesOf(op.body).Keys
    requires op.path == MembershipOf(k.0, k.1) ==> !WritesField(op, f)
    requires Serve(s, op.verb, op.path, body, newId).Some?
    requires k in Serve(s, op.verb, op.path, body, newId).value.memberships
    ensures Get(Serve(s, op.verb, op.path, body, newId).value.memberships[k], f) == Get(s.memberships[k], f)
  {
    if op.path != MembershipOf(k.0, k.1) {
      ServeKeepsMembership(s, op.verb, op.path, body, newId, k);
    }
  }

  /** Every membership row says which user and entity it joins, in every state. */
  lemma {:induction false} MembershipAt(m: Manifest, remote: Remote, b: Blueprint, run: Run, n: nat,
                                        k: (string, string))
    requires Applies(m, remote, b, run) && run.Ran(n) && k in run.Remote(n).memberships
    ensures Get(run.Remote(n).memberships[k], "entity_id") == Str(k.0)
    ensures Get(run.Remote(n).memberships[k], "user_id") == Str(k.1)
    decreases n
  {
    hide ValidManifest, FoldDistinct, Compiles, RunTo, Serve, Assemble, UserAsked, EmailKey, PlanItem, Resolve,
      WritesField, ResolveBody, ValidRemote;
    if n == 0 {
      StartOfRun(run);
      StoredPair(remote, k);
    } else {
      RanStep(run, n, n - 1);
      ResolvedKeys(run.ops[n - 1].body, run.At(n - 1).ids);
      if k in run.Remote(n - 1).memberships {
        MembershipAt(m, remote, b, run, n - 1, k);
        if run.ops[n - 1].path == MembershipOf(k.0, k.1) {
          MembershipFieldsNotWritten(m, remote, b, n - 1, k.0, k.1);
        }
        SurvivorKeepsMembershipField(run.Remote(n - 1), run.ops[n - 1], run.Body(n - 1), run.replies(n - 1).id, k,
          "entity_id");
        SurvivorKeepsMembershipField(run.Remote(n - 1), run.ops[n - 1], run.Body(n - 1), run.replies(n - 1).id, k,
          "user_id");
      } else {
        ServeAddsMembership(run.Remote(n - 1), run.ops[n - 1].verb, run.ops[n - 1].path, run.Body(n - 1),
          run.replies(n - 1).id, k);
        var i, u := CreatedMembership(m, remote, b, run, n, n - 1);
      }
    }
  }

  /** The store is as well formed at every accepted point of the run as before. */
  lemma StaysValid(m: Manifest, remote: Remote, b: Blueprint, run: Run, n: nat)
    requires Applies(m, remote, b, run) && PlainSlugs(m) && run.Ran(n)
    ensures ValidRemote(run.Remote(n)) && run.Remote(n).users == remote.users
  {
    hide Compiles, ValidManifest, FoldDistinct, RunTo, Assemble, PlainSlugs, ValidTable, ValidUsers;
    TableStaysValid(m, remote, b, run, n, Permissions);
    TableStaysValid(m, remote, b, run, n, Entities);
    TableStaysValid(m, remote, b, run, n, Roles);
    UsersKept(run, n, n);
    forall k | k in run.Remote(n).memberships
      ensures Get(run.Remote(n).memberships[k], "entity_id") == Str(k.0)
      ensures Get(run.Remote(n).memberships[k], "user_id") == Str(k.1)
    {
      MembershipAt(m, remote, b, run, n, k);
    }
  }
}
