/** Which entities a created role stands for in the end: those its item names, each in its own field. */
module RoleEntities {
  import opened Outcomes
  import opened Text
  import opened JsonValues
  import opened Manifests
  import opened RemoteStore
  import opened Planner
  import opened PlanShape
  import opened SnapshotFacts
  import opened Executor
  import opened RunFacts
  import opened ReferenceSafety
  import opened RunOfPlan
  import opened FinalState
  import opened Convergence
  import opened FinalMemberships
  import opened SecondPlan
  import opened SecondApply
  import opened PlanErrors
  import opened PlannedRequests

  /** The row's field holds the id of the row that the store files under the name the item gives: null if that name is
      falsy, and no field at all if the item gives none. */
  ghost predicate StandsFor(store: Remote, item: Dict, source: string, row: Dict, destination: string) {
    if source !in item then destination !in row
    else
      && destination in row
      && if Truthy(item[source]) then
           exists e :: e in store.entities && row[destination] == Str(e)
             && FoldedIdentity(Entities, store.entities[e]) == Some(Fold(PyStr(item[source])))
         else row[destination] == Null
  }

  /** The role stored under this id bears the item's name and stands for the entities the item names. */
  ghost predicate RoleStandsFor(store: Remote, item: Dict, id: string) {
    && id in store.roles && FoldedIdentity(Roles, store.roles[id]) == Some(KeyOf(Roles, item))
    && StandsFor(store, item, "root_entity", store.roles[id], "root_entity_id")
    && StandsFor(store, item, "scope_entity", store.roles[id], "scope_entity_id")
  }

  /** The operation that created a role, and the row it made. */
  lemma RoleCreation(m: Manifest, remote: Remote, b: Blueprint, run: Run, i: nat) returns (q: nat, id: string)
    requires Applied(m, remote, b, run) && i < |m.roles| && Present(m.roles[i])
    requires KeyOf(Roles, m.roles[i]) !in b.c.roles
    ensures q < |run.ops| && PlanItem(Roles, b.c, m.roles[i]).Success?
    ensures PlanItem(Roles, b.c, m.roles[i]).value.changes == [run.ops[q]]
    ensures id in Final(run).roles && FoldedIdentity(Roles, Final(run).roles[id]) == Some(KeyOf(Roles, m.roles[i]))
    ensures Final(run).roles[id] == AttributesOf(run.Body(q))["id" := Str(id)]
  {
    hide ValidManifest, FoldDistinct, Compiles, ValidRemote, FoldedIdentity, RunTo, Serve, PlanItem, PlanItems,
      Assemble, CreatesKey, PlainSlugs, PlainMembershipNames, NoAbsentReferences, PlainReferences, IdsMatch,
      ResolveBody;
    var key := KeyOf(Roles, m.roles[i]);
    assert b.Items(m, Roles) == m.roles && b.c.Current(Roles) == b.c.roles;
    id := PresentKeyDenotes(m, remote, b, run, Roles, i);
    q :| 0 <= q < |run.ops| && CreatesKey(run.ops[q], Roles, key) && run.replies(q).Accepted? &&
      run.replies(q).id == id;
    var j := CreationPlace(m, remote, b, q, Roles, key);
    KeysArePlaces(m, remote, b, Roles, i, j);
    CreatedPath(run.ops[q], Roles, key);
    CreatedRowStays(m, remote, b, run, |run.ops|, q, Roles);
  }

  lemma ReferenceEnds(m: Manifest, remote: Remote, b: Blueprint, run: Run, q: nat, identity: string)
    returns (e: string)
    requires Applied(m, remote, b, run) && q < |run.ops| && Reads(m, Entities)
    requires LookupOrRef(Entities, identity, b.c.entities, b.c.presentEntities).Success?
    requires !DeclaredAbsent(m, Entities, Fold(identity))
    requires Resolve(LookupOrRef(Entities, identity, b.c.entities, b.c.presentEntities).value, run.At(q).ids).Success?
    ensures e in Final(run).entities && FoldedIdentity(Entities, Final(run).entities[e]) == Some(Fold(identity))
    ensures Resolve(LookupOrRef(Entities, identity, b.c.entities, b.c.presentEntities).value, run.At(q).ids) ==
      Success(Str(e))
  {
    hide Applies, RunTo, FoldedIdentity, PlainSlugs, PlainMembershipNames, NoAbsentReferences, PlainReferences,
      IdsMatch, Resolve, LookupOrRef, CreatesKey, DeclaredAbsent, Reads;
    e := LookupDenotes(m, remote, b, run, Entities, identity);
    LookupMeans(m, remote, b, run, |run.ops|, q, Entities, identity, e);
  }

  lemma FieldStandsFor(m: Manifest, remote: Remote, b: Blueprint, run: Run, q: nat, item: Dict, id: string,
                       source: string, destination: string)
    requires Applied(m, remote, b, run) && q < |run.ops| && item in m.roles && Present(item)
    requires source in {"root_entity", "scope_entity"} && destination != "id"
    requires run.ops[q].body.Some? && (destination in run.ops[q].body.value <==> source in item)
    requires source in item ==>
      EntityReference(b.c, item[source]).Success? &&
      run.ops[q].body.value[destination] == EntityReference(b.c, item[source]).value
    ensures StandsFor(Final(run), item, source, AttributesOf(run.Body(q))["id" := Str(id)], destination)
  {
    hide Applies, RunTo, FoldedIdentity, PlainSlugs, PlainMembershipNames, PlainReferences, IdsMatch, Resolve,
      LookupOrRef, ResolveBody, DeclaredAbsent;
    RanStep(run, |run.ops|, q);
    ResolvedKeys(run.ops[q].body, run.At(q).ids);
    if source in item {
      ResolvedField(run, |run.ops|, q, destination);
      if Truthy(item[source]) {
        assert Get(item, source) == item[source] && Reads(m, Entities);
        var e := ReferenceEnds(m, remote, b, run, q, PyStr(item[source]));
      } else {
        NullResolves(run.At(q).ids);
      }
    }
  }

  lemma CreatedRoleStandsFor(m: Manifest, remote: Remote, b: Blueprint, run: Run, i: nat) returns (id: string)
    requires Applied(m, remote, b, run) && i < |m.roles| && Present(m.roles[i])
    requires KeyOf(Roles, m.roles[i]) !in b.c.roles
    ensures RoleStandsFor(Final(run), m.roles[i], id)
  {
    hide Applied, RunTo, FoldedIdentity, PlanItem, EntityReference, ManagedFields, Restrict, KeyOf, StandsFor, Copies,
      Referred;
    var item := m.roles[i];
    var q, id' := RoleCreation(m, remote, b, run, i);
    id := id';
    ManagedNotLookedUp(Roles);
    RoleCreates(b.c, item);
    var fields := {"name"} + ManagedFields(Roles);
    RestrictCarries(item, fields);
    TwoReferences(item, fields, Restrict(item, fields), Referred(b.c, item, "root_entity"),
                  Referred(b.c, item, "scope_entity"), run.ops[q].body.value);
    ReferredIs(b.c, item, "root_entity");
    ReferredIs(b.c, item, "scope_entity");
    FieldStandsFor(m, remote, b, run, q, item, id, "root_entity", "root_entity_id");
    FieldStandsFor(m, remote, b, run, q, item, id, "scope_entity", "scope_entity_id");
  }

  lemma ReferredIs(c: Context, item: Dict, f: string)
    requires f in item ==> EntityReference(c, item[f]).Success?
    ensures f in item ==> Referred(c, item, f) == EntityReference(c, item[f]).value
  {
  }

  /** After a complete run every role it created has, in each of the two fields, the id of the entity its item names
      there. */
  lemma CreatedRolesStandForTheirEntities(m: Manifest, remote: Remote, run: Run, item: Dict)
    requires CompleteRun(m, remote, run) && item in m.roles && Present(item)
    requires !Stored(remote, Roles, KeyOf(Roles, item))
    ensures exists id :: RoleStandsFor(Final(run), item, id)
  {
    hide Plan, ValidManifest, FoldDistinct, PlainSlugs, PlainMembershipNames, NoAbsentReferences, ValidRemote,
      PlainReferences, IdsMatch, RunTo, Compiles, Assemble, Stored, RoleStandsFor, FoldedIdentity, KeyOf;
    RanThroughout(run);
    var b := PlanCompiles(m, remote);
    CompiledContext(m, remote, b);
    StoredIsFiled(m, remote, b.c, Roles, KeyOf(Roles, item));
    var i :| 0 <= i < |m.roles| && m.roles[i] == item;
    var id := CreatedRoleStandsFor(m, remote, b, run, i);
  }
}
