/** Planning again after a plan has been applied completely: permissions, entities and roles. */
module SecondPlan {
  import opened Outcomes
  import opened Text
  import opened JsonValues
  import opened Manifests
  import opened RemoteStore
  import opened Planner
  import opened PlanShape
  import opened SnapshotFacts
  import opened Executor
  import opened RunFacts
  import opened References
  import opened ReferenceSafety
  import opened RunOfPlan
  import opened FinalState
  import opened Convergence
  import opened FinalMemberships

  // ---- reading the store again ----------------------------------------------------------------

  lemma SnapshotSucceedsIff(s: Remote, m: Manifest)
    ensures FetchSnapshot(s, m).Success? <==>
      forall item | item in m.memberships && Present(item) :: UserKey(item) in ReadUsers(s, m)
    ensures FetchSnapshot(s, m).Success? ==> MakeContext(m, FetchSnapshot(s, m).value).users == ReadUsers(s, m)
  {
    hide FetchMemberships, PresentKeys, ItemsByIdentity, Listing, UserKey, UsersByEmail;
    FetchSucceedsIff(s, ReadUsers(s, m), if NeedsEntities(m) then Listing(s.entities) else [], m.memberships);
  }

  /** The second reading succeeds. */
  lemma ReadAgain(m: Manifest, remote: Remote, fin: Remote)
    requires FetchSnapshot(remote, m).Success? && fin.users == remote.users
    ensures FetchSnapshot(fin, m).Success?
    ensures MakeContext(m, FetchSnapshot(fin, m).value).users == MakeContext(m, FetchSnapshot(remote, m).value).users
  {
    hide FetchSnapshot, MakeContext, UsersByEmail, Listing, UserKey;
    SnapshotSucceedsIff(remote, m);
    SnapshotSucceedsIff(fin, m);
  }

  /** The dictionaries of the second planning call. */
  ghost predicate Again(m: Manifest, remote: Remote, b: Blueprint, run: Run, c: Context) {
    && Applied(m, remote, b, run) && ContextOf(m, Final(run), c)
    && ValidRemote(Final(run)) && Final(run).users == remote.users
    && c.users == b.c.users && c.presentEntities == b.c.presentEntities && c.presentRoles == b.c.presentRoles
  }

  lemma SecondContext(m: Manifest, remote: Remote, b: Blueprint, run: Run) returns (c: Context)
    requires Applied(m, remote, b, run)
    ensures Again(m, remote, b, run, c)
  {
    hide RunTo, FetchSnapshot, ValidManifest, FoldDistinct, PlanItems, EntitySequence, PlainSlugs,
      PlainMembershipNames, NoAbsentReferences, PlainReferences, IdsMatch, Assemble, UsersByEmail, ItemsByIdentity,
      PresentKeys, ValidRemote;
    StaysValid(m, remote, b, run, |run.ops|);
    ReadAgain(m, remote, Final(run));
    c := MakeContext(m, FetchSnapshot(Final(run), m).value);
  }

  /** What a key denotes in the end is what the second call finds under it. */
  lemma FoundAgain(m: Manifest, remote: Remote, b: Blueprint, run: Run, c: Context, r: Resource, key: string,
                   id: string)
    requires Again(m, remote, b, run, c) && r != Memberships && Reads(m, r) && Denotes(m, b, run, |run.ops|, r, key, id)
    ensures key in c.Current(r) && c.Current(r)[key] == Final(run).Table(r)[id]
    ensures Get(c.Current(r)[key], "id") == Str(id)
  {
    hide Applied, ContextOf, RunTo, FoldedIdentity, Reads, CreatesKey;
    ContextRows(m, Final(run), c, r);
    assert ValidTable(r, Final(run).Table(r));
    assert ValidRow(r, id, Final(run).Table(r)[id]);
  }

  lemma LookupAgain(m: Manifest, remote: Remote, b: Blueprint, run: Run, c: Context, r: Resource, identity: string)
    returns (id: string)
    requires Again(m, remote, b, run, c) && r in {Entities, Roles} && Reads(m, r)
    requires LookupOrRef(r, identity, b.c.Current(r), Declared(b.c, r)).Success?
    requires !DeclaredAbsent(m, r, Fold(identity))
    ensures Denotes(m, b, run, |run.ops|, r, Fold(identity), id)
    ensures LookupOrRef(r, identity, c.Current(r), Declared(c, r)) == Success(Str(id))
  {
    hide Applies, ContextOf, RunTo, ValidRemote, Reads, Denotes, NoAbsentReferences, DeclaredAbsent, PlainReferences,
      IdsMatch;
    id := LookupDenotes(m, remote, b, run, r, identity);
    FoundAgain(m, remote, b, run, c, r, Fold(identity), id);
  }

  /** An absent item finds nothing to delete. */
  lemma AbsentAgain(m: Manifest, remote: Remote, b: Blueprint, run: Run, c: Context, r: Resource, item: Dict)
    requires Again(m, remote, b, run, c) && r != Memberships && item in m.Items(r) && !Present(item)
    ensures KeyOf(r, item) !in c.Current(r)
  {
    hide Applies, ContextOf, RunTo, FoldedIdentity, NoAbsentReferences, PlainReferences, IdsMatch, ValidRow;
    ContextRows(m, Final(run), c, r);
    var key := KeyOf(r, item);
    assert DeclaredAbsent(m, r, key);
    if key in c.Current(r) {
      AbsentKeyGone(m, remote, b, run, r, key, RowId(c.Current(r)[key]));
    }
  }

  // ---- parents --------------------------------------------------------------------------------

  lemma PlainCanonical(j: Json, k: Json)
    requires NullOrText(j) && Canonical(j) == Canonical(k) && (k.Null? || k.Str? || k.Obj?)
    ensures j == k
  {
  }

  lemma ParentPlanned(c: Context, item: Dict)
    requires Present(item) && PlanItem(Entities, c, item).Success?
    ensures ParentValue(c, item).Success?
  {
    hide LookupOrRef, Restrict, ManagedDiff;
  }

  lemma ParentValueShape(c: Context, item: Dict)
    requires ParentValue(c, item).Success? && IdsAreText(c.entities)
    ensures var v := ParentValue(c, item).value; v.Null? || v.Str? || v.Obj?
  {
  }

  /** What a declared parent becomes: null, or the id of the row it denotes. */
  lemma ParentAgain(m: Manifest, remote: Remote, b: Blueprint, run: Run, c: Context, item: Dict)
    requires Again(m, remote, b, run, c) && item in m.entities && Present(item) && ParentValue(b.c, item).Success?
    ensures ParentValue(c, item).Success? && NullOrText(ParentValue(c, item).value)
    ensures forall p | 0 <= p <= |run.ops| && Resolve(ParentValue(b.c, item).value, run.At(p).ids).Success? ::
      Resolve(ParentValue(b.c, item).value, run.At(p).ids) == Success(ParentValue(c, item).value)
    ensures NullOrText(ParentValue(b.c, item).value) ==> ParentValue(b.c, item).value == ParentValue(c, item).value
  {
    hide Applies, ContextOf, RunTo, ValidRemote, DeclaredAbsent, PlainReferences, IdsMatch, Resolve;
    var parent := Get(item, "parent");
    if NonemptyText(parent) {
      assert Reads(m, Entities);
      var id := LookupAgain(m, remote, b, run, c, Entities, parent.s);
      forall p | 0 <= p <= |run.ops| && Resolve(ParentValue(b.c, item).value, run.At(p).ids).Success?
        ensures Resolve(ParentValue(b.c, item).value, run.At(p).ids) == Success(Str(id))
      {
        LookupMeans(m, remote, b, run, |run.ops|, p, Entities, parent.s, id);
      }
      DenotedIdNonempty(m, remote, b, run, Entities, Fold(parent.s), id);
    } else {
      forall p | 0 <= p <= |run.ops| ensures Resolve(Null, run.At(p).ids) == Success(Null) {
        NullResolves(run.At(p).ids);
      }
    }
  }

  lemma NullResolves(ids: Ids)
    ensures Resolve(Null, ids) == Success(Null)
  {
  }

  lemma DenotedIdNonempty(m: Manifest, remote: Remote, b: Blueprint, run: Run, r: Resource, key: string, id: string)
    requires Applies(m, remote, b, run) && PlainSlugs(m) && run.Ran(|run.ops|) && r != Memberships
    requires Denotes(m, b, run, |run.ops|, r, key, id)
    ensures id != ""
  {
    hide Applies, RunTo, FoldedIdentity, PlainSlugs, CreatesKey;
    TableStaysValid(m, remote, b, run, |run.ops|, r);
    assert ValidRow(r, id, Final(run).Table(r)[id]);
  }

  /** A stored entity that declares a parent ends under it. */
  lemma ExistingParent(m: Manifest, remote: Remote, b: Blueprint, run: Run, c: Context, i: nat, id: string)
    requires Again(m, remote, b, run, c) && NamesRow(m, b, Entities, i, id) && "parent" in b.sequence[i]
    requires b.sequence[i] in m.entities
    ensures ParentValue(c, b.sequence[i]).Success? && id in Final(run).entities
    ensures Get(Final(run).entities[id], "parent_entity_id") == ParentValue(c, b.sequence[i]).value
  {
    hide Applies, ContextOf, RunTo, ValidRemote, PlainSlugs, NoAbsentReferences, IdsMatch, Resolve, PlanItem,
      PlanItems, ParentValue, ManagedDiff, Canonical, WritesField;
    var item := b.sequence[i];
    var row := b.c.entities[KeyOf(Entities, item)];
    ParentPlanned(b.c, item);
    ParentAgain(m, remote, b, run, c, item);
    ExistingChanges(Entities, b.c, item);
    var changes := PlanItem(Entities, b.c, item).value.changes;
    if Moves(b.c, item, row) != [] {
      var p := EntityMoved(m, remote, b, run, i, id, |changes| - 1);
    } else {
      ParentNotUpdated(b.c, item, row);
      FieldUnwritten(m, remote, b, run, Entities, i, id, "parent_entity_id");
      StoredParentPlain(m, remote, b, run, KeyOf(Entities, item));
      EntityIdsAreText(m, remote, b, run);
      ParentValueShape(b.c, item);
      PlainCanonical(Get(row, "parent_entity_id"), ParentValue(b.c, item).value);
    }
  }

  lemma EntityIdsAreText(m: Manifest, remote: Remote, b: Blueprint, run: Run)
    requires Applies(m, remote, b, run)
    ensures IdsAreText(b.c.entities)
  {
    hide Compiles, ValidManifest, FoldDistinct, RunTo;
    ContextIsText(m, remote, b);
  }

  lemma StoredParentPlain(m: Manifest, remote: Remote, b: Blueprint, run: Run, key: string)
    requires Applies(m, remote, b, run) && PlainReferences(remote) && key in b.c.entities
    ensures NullOrText(Get(b.c.entities[key], "parent_entity_id"))
  {
    hide Compiles, ValidManifest, FoldDistinct, RunTo, FoldedIdentity;
    CurrentRow(m, remote, b, Entities, key);
  }

  lemma ParentNotUpdated(c: Context, item: Dict, row: Dict)
    requires Present(item) && PlanItem(Entities, c, item).Success? && KeyOf(Entities, item) in c.entities
    requires row == c.entities[KeyOf(Entities, item)]
    requires Moves(c, item, row) == []
    ensures forall op <- PlanItem(Entities, c, item).value.changes :: !WritesField(op, "parent_entity_id")
  {
    hide PlanItem, Canonical, ParentValue;
    ManagedNotLookedUp(Entities);
    ExistingChanges(Entities, c, item);
  }

  /** So does an entity the plan created. */
  lemma NewParent(m: Manifest, remote: Remote, b: Blueprint, run: Run, c: Context, i: nat, id: string)
    requires Again(m, remote, b, run, c) && i < |b.sequence| && Present(b.sequence[i]) && b.sequence[i] in m.entities
    requires KeyOf(Entities, b.sequence[i]) !in b.c.entities
    requires Denotes(m, b, run, |run.ops|, Entities, KeyOf(Entities, b.sequence[i]), id)
    ensures ParentValue(c, b.sequence[i]).Success? && id in Final(run).entities
    ensures Get(Final(run).entities[id], "parent_entity_id") == ParentValue(c, b.sequence[i]).value
  {
    hide Applies, ContextOf, RunTo, ValidRemote, PlainSlugs, NoAbsentReferences, IdsMatch, Resolve, PlanItem,
      PlanItems, ParentValue, Denotes;
    var item := b.sequence[i];
    var p := CreatedField(m, remote, b, run, Entities, i, id, "parent_entity_id");
    CreatedParent(b.c, item);
    ParentAgain(m, remote, b, run, c, item);
    if Get(item, "parent") == Null {
      NoParentValue(c, item);
    }
  }

  lemma NoParentValue(c: Context, item: Dict)
    requires Get(item, "parent") == Null
    ensures ParentValue(c, item) == Success(Null)
  {
  }

  // ---- one item, planned again ----------------------------------------------------------------

  /** No managed value the plan carries for the item holds a placeholder. */
  ghost predicate Plain(r: Resource, c: Context, item: Dict)
    requires PlanItem(r, c, item).Success?
  {
    forall f | f in item && Written(r, c, item, f) :: RefFree(item[f])
  }

  lemma ManagedFieldFinal(m: Manifest, remote: Remote, b: Blueprint, run: Run, r: Resource, i: nat, id: string,
                          f: string)
    requires Applies(m, remote, b, run) && run.Ran(|run.ops|) && r != Memberships
    requires i < |b.Items(m, r)| && Present(b.Items(m, r)[i]) && PlanItem(r, b.c, b.Items(m, r)[i]).Success?
    requires PlanItems(r, b.c, b.Items(m, r)[..i]).Success?
    requires Denotes(m, b, run, |run.ops|, r, KeyOf(r, b.Items(m, r)[i]), id)
    requires f in ManagedFields(r) && f in b.Items(m, r)[i]
    ensures id in Final(run).Table(r)
    ensures Canonical(Get(Final(run).Table(r)[id], f)) == Canonical(b.Items(m, r)[i][f])
      <==> (Written(r, b.c, b.Items(m, r)[i], f) ==> RefFree(b.Items(m, r)[i][f]))
  {
    hide Applies, RunTo, PlanItem, PlanItems, Canonical, RefFree, ManagedFields, Written, FoldedIdentity, CreatesKey;
    if KeyOf(r, b.Items(m, r)[i]) in b.c.Current(r) {
      ExistingFieldFinal(m, remote, b, run, r, i, id, f);
    } else {
      CreatedFieldFinal(m, remote, b, run, r, i, id, f);
    }
  }

  lemma NoDiffIff(row: Dict, item: Dict, fields: set<string>)
    ensures ManagedDiff(row, item, fields) == map[] <==>
      forall f | f in item && f in fields :: Canonical(Get(row, f)) == Canonical(item[f])
  {
    hide Canonical;
    if ManagedDiff(row, item, fields) == map[] {
      forall f | f in item && f in fields ensures Canonical(Get(row, f)) == Canonical(item[f]) {
        assert f !in ManagedDiff(row, item, fields);
      }
    }
  }

  lemma ItemPlanned(m: Manifest, remote: Remote, b: Blueprint, r: Resource, i: nat)
    requires Compiles(m, remote, b) && i < |b.Items(m, r)|
    ensures PlanItem(r, b.c, b.Items(m, r)[i]).Success? && PlanItems(r, b.c, b.Items(m, r)[..i]).Success?
  {
    hide FetchSnapshot, MakeContext, EntitySequence, PlanItem, PlanItems;
    var lo, hi := SliceOfItem(r, b.c, b.Items(m, r), i);
  }

  /** The managed fields need no second update exactly when the first plan's values were plain. */
  lemma DiffAgain(m: Manifest, remote: Remote, b: Blueprint, run: Run, r: Resource, i: nat, id: string)
    requires Applies(m, remote, b, run) && run.Ran(|run.ops|) && r != Memberships
    requires i < |b.Items(m, r)| && Present(b.Items(m, r)[i])
    requires Denotes(m, b, run, |run.ops|, r, KeyOf(r, b.Items(m, r)[i]), id)
    ensures PlanItem(r, b.c, b.Items(m, r)[i]).Success? && id in Final(run).Table(r)
    ensures ManagedDiff(Final(run).Table(r)[id], b.Items(m, r)[i], ManagedFields(r)) == map[] <==>
      Plain(r, b.c, b.Items(m, r)[i])
  {
    hide ValidManifest, FoldDistinct, ValidRemote, Compiles, RunTo, PlanItem, PlanItems, Canonical, RefFree,
      ManagedFields, ManagedDiff, FoldedIdentity, CreatesKey, Assemble;
    ItemPlanned(m, remote, b, r, i);
    var item := b.Items(m, r)[i];
    NoDiffIff(Final(run).Table(r)[id], item, ManagedFields(r));
    forall f | f in ManagedFields(r) && f in item
      ensures Canonical(Get(Final(run).Table(r)[id], f)) == Canonical(item[f]) <==>
        (Written(r, b.c, item, f) ==> RefFree(item[f]))
    {
      ManagedFieldFinal(m, remote, b, run, r, i, id, f);
    }
  }

  lemma ReferenceAgain(m: Manifest, remote: Remote, b: Blueprint, run: Run, c: Context, item: Dict, f: string)
    requires Again(m, remote, b, run, c) && item in m.roles && Present(item) && f in {"root_entity", "scope_entity"}
    requires f in item
    requires EntityReference(b.c, item[f]).Success?
    ensures EntityReference(c, item[f]).Success?
  {
    hide Applies, ContextOf, RunTo, ValidRemote, DeclaredAbsent, PlainReferences, IdsMatch, LookupOrRef;
    if Truthy(item[f]) {
      assert Get(item, f) == item[f];
      assert Reads(m, Entities);
      var id := LookupAgain(m, remote, b, run, c, Entities, PyStr(item[f]));
    }
  }

  lemma RoleReferences(c: Context, item: Dict)
    requires PlanRole(c, item).Success?
    ensures "root_entity" in item ==> EntityReference(c, item["root_entity"]).Success?
    ensures "scope_entity" in item ==> EntityReference(c, item["scope_entity"]).Success?
  {
    hide EntityReference, Restrict, ManagedDiff;
  }

  lemma PlainItemPlans(r: Resource, c: Context, item: Dict)
    requires r != Memberships && Present(item) && KeyOf(r, item) in c.Current(r)
    requires r == Entities ==> ParentValue(c, item).Success?
    requires r == Roles && "root_entity" in item ==> EntityReference(c, item["root_entity"]).Success?
    requires r == Roles && "scope_entity" in item ==> EntityReference(c, item["scope_entity"]).Success?
    ensures PlanItem(r, c, item).Success?
  {
    hide EntityReference, Restrict, ManagedDiff, ParentValue;
  }

  lemma ReferencesAgain(m: Manifest, remote: Remote, b: Blueprint, run: Run, c: Context, r: Resource, item: Dict)
    requires Again(m, remote, b, run, c) && r != Memberships && item in m.Items(r) && Present(item)
    requires PlanItem(r, b.c, item).Success? && KeyOf(r, item) in c.Current(r)
    ensures PlanItem(r, c, item).Success?
  {
    hide Applied, ContextOf, RunTo, ValidRemote, PlanRole, PlanPermission, PlanEntity, EntityReference, ParentValue;
    if r == Roles {
      RoleReferences(b.c, item);
      if "root_entity" in item {
        ReferenceAgain(m, remote, b, run, c, item, "root_entity");
      }
      if "scope_entity" in item {
        ReferenceAgain(m, remote, b, run, c, item, "scope_entity");
      }
    } else if r == Entities {
      ParentPlanned(b.c, item);
      ParentAgain(m, remote, b, run, c, item);
    }
    PlainItemPlans(r, c, item);
  }

  /** A moved or created entity is not moved again. */
  lemma NotMovedAgain(m: Manifest, remote: Remote, b: Blueprint, run: Run, c: Context, i: nat, id: string)
    requires Again(m, remote, b, run, c) && i < |b.sequence| && Present(b.sequence[i]) && b.sequence[i] in m.entities
    requires PlanItem(Entities, b.c, b.sequence[i]).Success? && PlanItems(Entities, b.c, b.sequence[..i]).Success?
    requires Denotes(m, b, run, |run.ops|, Entities, KeyOf(Entities, b.sequence[i]), id)
    ensures id in Final(run).entities && Moves(c, b.sequence[i], Final(run).entities[id]) == []
  {
    hide Applied, ContextOf, RunTo, ValidRemote, PlanItem, PlanItems, ParentValue, Canonical, FoldedIdentity,
      CreatesKey;
    if "parent" in b.sequence[i] {
      if KeyOf(Entities, b.sequence[i]) in b.c.entities {
        ExistingParent(m, remote, b, run, c, i, id);
      } else {
        NewParent(m, remote, b, run, c, i, id);
      }
    }
  }

  /** Planning an item of a plain table again succeeds; it yields nothing exactly when the values the first plan carried
      for the item were plain. */
  lemma PlainItemAgain(m: Manifest, remote: Remote, b: Blueprint, run: Run, c: Context, r: Resource, i: nat)
    requires Again(m, remote, b, run, c) && r != Memberships && i < |b.Items(m, r)|
    ensures PlanItem(r, b.c, b.Items(m, r)[i]).Success? && PlanItem(r, c, b.Items(m, r)[i]).Success?
    ensures PlanItem(r, c, b.Items(m, r)[i]).value.deletes == []
    ensures PlanItem(r, c, b.Items(m, r)[i]).value.changes == [] <==> Plain(r, b.c, b.Items(m, r)[i])
  {
    hide Compiles, ValidManifest, FoldDistinct, ValidRemote, ContextOf, RunTo, PlanItem, PlanItems, Assemble,
      PlainSlugs, PlainMembershipNames, NoAbsentReferences, PlainReferences, IdsMatch, Denotes, ManagedDiff,
      ManagedFields, Moves;
    var item := b.Items(m, r)[i];
    ItemPlanned(m, remote, b, r, i);
    ItemOperations(r, b.c, item);
    assert item in b.Items(m, r);
    SequenceMembers(m, remote, b, r, item);
    if Present(item) {
      var id := PresentKeyDenotes(m, remote, b, run, r, i);
      ItemRead(m, r, item);
      FoundAgain(m, remote, b, run, c, r, KeyOf(r, item), id);
      ReferencesAgain(m, remote, b, run, c, r, item);
      ItemOperations(r, c, item);
      ExistingChanges(r, c, item);
      DiffAgain(m, remote, b, run, r, i, id);
      if r == Entities {
        NotMovedAgain(m, remote, b, run, c, i, id);
      }
    } else {
      AbsentAgain(m, remote, b, run, c, r, item);
      AbsentPlans(r, c, item);
    }
  }

  lemma ItemRead(m: Manifest, r: Resource, item: Dict)
    requires item in m.Items(r)
    ensures Reads(m, r)
  {
  }

  lemma AbsentPlans(r: Resource, c: Context, item: Dict)
    requires !Present(item) && KeyOf(r, item) !in c.Current(r)
    ensures PlanItem(r, c, item) == Success(NOTHING)
  {
  }
}
