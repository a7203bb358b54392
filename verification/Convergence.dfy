/** Applying a plan completely brings the store to the declared state: planning again finds nothing to do. */
module Convergence {
  import opened Outcomes
  import opened Text
  import opened JsonValues
  import opened Manifests
  import opened RemoteStore
  import opened Planner
  import opened PlanShape
  import opened Executor
  import opened RunFacts
  import opened References
  import opened ReferenceSafety
  import opened RunOfPlan
  import opened FinalState

  // ---- the hypotheses -------------------------------------------------------------------------

  /** No present item refers to something the manifest declares absent. */
  ghost predicate NoAbsentReferences(m: Manifest) {
    && (forall item | item in m.entities && Present(item) && NonemptyText(Get(item, "parent")) ::
          !DeclaredAbsent(m, Entities, Fold(Get(item, "parent").s)))
    && (forall item, f | item in m.roles && Present(item) && f in {"root_entity", "scope_entity"} &&
      Truthy(Get(item, f)) ::
          !DeclaredAbsent(m, Entities, Fold(PyStr(Get(item, f)))))
    && (forall item | item in m.memberships && Present(item) ::
      !DeclaredAbsent(m, Entities, Fold(PyStr(Get(item, "entity")))))
    && (forall item, x | item in m.memberships && Present(item) && DeclaredRoles(item).List? &&
      x in DeclaredRoles(item).items && x.Str? ::
          !DeclaredAbsent(m, Roles, Fold(x.s)))
  }

  /** Entity names in memberships carry no '@'. */
  ghost predicate PlainMembershipNames(m: Manifest) {
    forall item | item in m.memberships :: '@' !in PyStr(Get(item, "entity"))
  }

  /** A complete, fully accepted application of the plan made for `m` to the store it was made from. */
  ghost predicate Applied(m: Manifest, remote: Remote, b: Blueprint, run: Run) {
    && Applies(m, remote, b, run) && run.Ran(|run.ops|)
    && PlainSlugs(m) && PlainMembershipNames(m) && NoAbsentReferences(m)
    && PlainReferences(remote) && IdsMatch(remote, run.start.ids)
  }

  function Final(run: Run): Remote {
    run.Remote(|run.ops|)
  }

  // ---- operations of one item in detail -------------------------------------------------------

  function Moves(c: Context, item: Dict, row: Dict): seq<Operation> {
    if ParentValue(c, item).Success? && "parent" in item
       && Canonical(Get(row, "parent_entity_id")) != Canonical(ParentValue(c, item).value) then
      [MakeOperation(Entities, NameOf(Entities, item), MoveAction, Post, MoveOf(PyStr(Get(row, "id"))),
                     Some(map["new_parent_id" := ParentValue(c, item).value]), Some(row))]
    else []
  }

  lemma ExistingChanges(r: Resource, c: Context, item: Dict)
    requires r != Memberships && Present(item) && PlanItem(r, c, item).Success? && KeyOf(r, item) in c.Current(r)
    ensures var row := c.Current(r)[KeyOf(r, item)];
      PlanItem(r, c, item).value.changes ==
        UpdateOf(r, NameOf(r, item), row, ManagedDiff(row, item, ManagedFields(r)))
        + if r == Entities then Moves(c, item, row) else []
  {
    hide ManagedDiff, ManagedFields, Restrict, LookupOrRef, Canonical;
  }

  /** The body of a creation carries the declared managed fields as they are. */
  lemma CreationBody(r: Resource, c: Context, item: Dict)
    requires r != Memberships && Present(item) && PlanItem(r, c, item).Success? && KeyOf(r, item) !in c.Current(r)
    ensures |PlanItem(r, c, item).value.changes| == 1
    ensures var op := PlanItem(r, c, item).value.changes[0];
      && op.body.Some?
      && (forall f | f in ManagedFields(r) :: f in op.body.value <==> f in item)
      && (forall f | f in ManagedFields(r) && f in item :: op.body.value[f] == item[f])
  {
    ManagedNotLookedUp(r);
  }

  /** Where a created entity's body says who its parent is. */
  lemma CreatedParent(c: Context, item: Dict)
    requires Present(item) && PlanItem(Entities, c, item).Success? && KeyOf(Entities, item) !in c.entities
    ensures ParentValue(c, item).Success? && |PlanItem(Entities, c, item).value.changes| == 1
    ensures var op := PlanItem(Entities, c, item).value.changes[0];
      op.body.Some? &&
      if Get(item, "parent") != Null then
        "parent_entity_id" in op.body.value && op.body.value["parent_entity_id"] == ParentValue(c, item).value
      else "parent_entity_id" !in op.body.value
  {
    ManagedNotLookedUp(Entities);
  }

  // ---- the last write to a field --------------------------------------------------------------

  lemma ServePatches(s: Remote, path: Path, body: Option<Dict>, newId: string, r: Resource, id: string, f: string)
    requires r != Memberships && path == Element(r, id) && body.Some? && f in body.value
    requires Serve(s, Patch, path, body, newId).Some?
    ensures var t := Serve(s, Patch, path, body, newId).value.Table(r); id in t && Get(t[id], f) == body.value[f]
  {
  }

  lemma ServeMoves(s: Remote, body: Option<Dict>, newId: string, id: string)
    requires body.Some? && "new_parent_id" in body.value && Serve(s, Post, MoveOf(id), body, newId).Some?
    ensures var t := Serve(s, Post, MoveOf(id), body, newId).value.entities;
      id in t && Get(t[id], "parent_entity_id") == body.value["new_parent_id"]
  {
  }

  lemma ResolvedDictField(d: Dict, ids: Ids, f: string)
    requires ResolveDict(d, ids).Success? && f in d
    ensures f in ResolveDict(d, ids).value && Resolve(d[f], ids) == Success(ResolveDict(d, ids).value[f])
  {
    assert f !in Unresolvable(d, ids);
  }

  /** A field of a request body arrives resolved. */
  lemma ResolvedField(run: Run, n: nat, p: nat, f: string)
    requires run.Ran(n) && p < n && run.ops[p].body.Some? && f in run.ops[p].body.value
    ensures run.Body(p).Some? && f in run.Body(p).value
    ensures Resolve(run.ops[p].body.value[f], run.At(p).ids) == Success(run.Body(p).value[f])
  {
    hide RunTo, Serve, Resolve, ResolveDict;
    RanStep(run, n, p);
    ResolvedDictField(run.ops[p].body.value, run.At(p).ids, f);
  }

  /** Operations on an item's row stand in the item's slice. */
  lemma RowOperations(m: Manifest, remote: Remote, b: Blueprint, q: nat, r: Resource, i: nat, id: string)
    returns (lo: nat, hi: nat)
    requires ValidManifest(m) && FoldDistinct(m) && ValidRemote(remote) && Compiles(m, remote, b)
    requires q < |b.Ops()| && r != Memberships && TouchesRow(b.Ops()[q].path, r, id)
    requires i < |b.Items(m, r)| && Present(b.Items(m, r)[i])
    requires KeyOf(r, b.Items(m, r)[i]) in b.c.Current(r)
    requires Get(b.c.Current(r)[KeyOf(r, b.Items(m, r)[i])], "id") == Str(id)
    ensures PlanItem(r, b.c, b.Items(m, r)[i]).Success? && PlanItems(r, b.c, b.Items(m, r)[..i]).Success?
    ensures lo == b.Base(r) + Offset(r, b.c, b.Items(m, r), i)
    ensures hi == lo + |PlanItem(r, b.c, b.Items(m, r)[i]).value.changes|
    ensures lo <= q < hi && b.Ops()[q] == PlanItem(r, b.c, b.Items(m, r)[i]).value.changes[q - lo]
    ensures b.Ops()[q].verb != Delete
  {
    hide ValidManifest, FoldDistinct, Compiles, FoldedIdentity, PlanItem, PlanItems, Assemble, TouchesRow, ValidRemote;
    CurrentRow(m, remote, b, r, KeyOf(r, b.Items(m, r)[i]));
    TouchIsChange(m, remote, b, q, r, id, i);
    TouchedRow(m, remote, b, q, r, id);
    ChangesDoNotDelete(m, remote, b, q);
    var l, h := ChangeInSlice(m, remote, b, r, i, q);
    lo, hi := b.Base(r) + l, b.Base(r) + h;
    var changes := PlanItem(r, b.c, b.Items(m, r)[i]).value.changes;
    assert |b.Group(r).changes[l..h]| == h - l;
    GroupPosition(b, r, q - b.Base(r));
  }

  /** The place of an item's first change. */
  ghost function Start(m: Manifest, b: Blueprint, r: Resource, i: nat): nat
    requires i <= |b.Items(m, r)| && PlanItems(r, b.c, b.Items(m, r)[..i]).Success?
  {
    b.Base(r) + Offset(r, b.c, b.Items(m, r), i)
  }

  /** The i-th item of a plain table is present and names the stored row `id`. */
  ghost predicate NamesRow(m: Manifest, b: Blueprint, r: Resource, i: nat, id: string) {
    && r != Memberships && i < |b.Items(m, r)| && Present(b.Items(m, r)[i])
    && KeyOf(r, b.Items(m, r)[i]) in b.c.Current(r) && Get(b.c.Current(r)[KeyOf(r, b.Items(m, r)[i])], "id") == Str(id)
    && PlanItem(r, b.c, b.Items(m, r)[i]).Success? && PlanItems(r, b.c, b.Items(m, r)[..i]).Success?
  }

  /** From a point on which none of the item's operations writes the field, it keeps its value to the end. */
  lemma FieldFromHere(m: Manifest, remote: Remote, b: Blueprint, run: Run, r: Resource, i: nat, id: string, f: string,
                      p: nat)
    requires Applies(m, remote, b, run) && run.Ran(|run.ops|) && NamesRow(m, b, r, i, id)
    requires p <= |run.ops| && id in run.Remote(p).Table(r)
    requires var changes := PlanItem(r, b.c, b.Items(m, r)[i]).value.changes;
      forall l | 0 <= l < |changes| && Start(m, b, r, i) + l >= p :: !WritesField(changes[l], f)
    ensures id in Final(run).Table(r) && Get(Final(run).Table(r)[id], f) == Get(run.Remote(p).Table(r)[id], f)
  {
    hide ValidManifest, FoldDistinct, Compiles, RunTo, PlanItem, PlanItems, Assemble, TouchesRow, WritesField;
    forall q | p <= q < |run.ops| && TouchesRow(run.ops[q].path, r, id)
      ensures run.ops[q].verb != Delete && !WritesField(run.ops[q], f)
    {
      var lo, hi := RowOperations(m, remote, b, q, r, i, id);
    }
    FieldKept(run, |run.ops|, p, |run.ops|, r, id, f);
  }

  lemma StoredRow(m: Manifest, remote: Remote, b: Blueprint, run: Run, r: Resource, i: nat, id: string)
    requires Applies(m, remote, b, run) && NamesRow(m, b, r, i, id)
    ensures id in run.Remote(0).Table(r) && run.Remote(0).Table(r)[id] == b.c.Current(r)[KeyOf(r, b.Items(m, r)[i])]
  {
    hide ValidManifest, FoldDistinct, Compiles, RunTo, PlanItem, PlanItems, Assemble, FoldedIdentity;
    CurrentRow(m, remote, b, r, KeyOf(r, b.Items(m, r)[i]));
    StartOfRun(run);
  }

  /** A field none of the item's operations writes ends as it began. */
  lemma FieldUnwritten(m: Manifest, remote: Remote, b: Blueprint, run: Run, r: Resource, i: nat, id: string, f: string)
    requires Applies(m, remote, b, run) && run.Ran(|run.ops|) && NamesRow(m, b, r, i, id)
    requires forall op <- PlanItem(r, b.c, b.Items(m, r)[i]).value.changes :: !WritesField(op, f)
    ensures id in Final(run).Table(r)
    ensures Get(Final(run).Table(r)[id], f) == Get(b.c.Current(r)[KeyOf(r, b.Items(m, r)[i])], f)
  {
    hide Applies, RunTo, PlanItem, PlanItems, WritesField;
    StoredRow(m, remote, b, run, r, i, id);
    FieldFromHere(m, remote, b, run, r, i, id, f, 0);
  }

  /** The k-th operation of an item at its place in the plan. */
  lemma ItemOperationAt(m: Manifest, remote: Remote, b: Blueprint, r: Resource, i: nat, k: nat) returns (p: nat)
    requires Compiles(m, remote, b) && i < |b.Items(m, r)|
    requires PlanItem(r, b.c, b.Items(m, r)[i]).Success? && k < |PlanItem(r, b.c, b.Items(m, r)[i]).value.changes|
    ensures PlanItems(r, b.c, b.Items(m, r)[..i]).Success? && p == Start(m, b, r, i) + k
    ensures p < |b.Ops()| && b.Ops()[p] == PlanItem(r, b.c, b.Items(m, r)[i]).value.changes[k]
  {
    hide FetchSnapshot, MakeContext, EntitySequence, PlanItem, PlanItems, Assemble;
    var lo, hi := SliceOfItem(r, b.c, b.Items(m, r), i);
    assert b.Group(r).changes[lo..hi][k] == b.Group(r).changes[lo + k];
    GroupPosition(b, r, lo + k);
    p := b.Base(r) + lo + k;
  }

  /** The first change patches the row, the field among others, and no later change writes the field. */
  ghost predicate PatchesFirst(changes: seq<Operation>, r: Resource, id: string, f: string) {
    && changes != [] && changes[0].verb == Patch && changes[0].path == Element(r, id)
    && changes[0].body.Some? && f in changes[0].body.value
    && forall l | 0 < l < |changes| :: !WritesField(changes[l], f)
  }

  /** An updated field ends as the resolved value of the update. */
  lemma FieldUpdated(m: Manifest, remote: Remote, b: Blueprint, run: Run, r: Resource, i: nat, id: string, f: string)
    returns (p: nat)
    requires Applies(m, remote, b, run) && run.Ran(|run.ops|) && NamesRow(m, b, r, i, id)
    requires PatchesFirst(PlanItem(r, b.c, b.Items(m, r)[i]).value.changes, r, id, f)
    ensures id in Final(run).Table(r) && p < |run.ops|
    ensures Resolve(PlanItem(r, b.c, b.Items(m, r)[i]).value.changes[0].body.value[f], run.At(p).ids) ==
      Success(Get(Final(run).Table(r)[id], f))
  {
    hide ValidManifest, FoldDistinct, Compiles, RunTo, Serve, PlanItem, PlanItems, Assemble, Resolve, WritesField;
    p := ItemOperationAt(m, remote, b, r, i, 0);
    RanStep(run, |run.ops|, p);
    ResolvedField(run, |run.ops|, p, f);
    ServePatches(run.Remote(p), run.ops[p].path, run.Body(p), run.replies(p).id, r, id, f);
    FieldFromHere(m, remote, b, run, r, i, id, f, p + 1);
  }

  /** A moved entity ends under the resolved parent of the move. */
  lemma EntityMoved(m: Manifest, remote: Remote, b: Blueprint, run: Run, i: nat, id: string, k: nat) returns (p: nat)
    requires Applies(m, remote, b, run) && run.Ran(|run.ops|) && NamesRow(m, b, Entities, i, id)
    requires var changes := PlanItem(Entities, b.c, b.sequence[i]).value.changes;
      && k == |changes| - 1 && changes[k].verb == Post && changes[k].path == MoveOf(id)
      && changes[k].body.Some? && "new_parent_id" in changes[k].body.value
    ensures id in Final(run).entities && p < |run.ops|
    ensures Resolve(PlanItem(Entities, b.c, b.sequence[i]).value.changes[k].body.value["new_parent_id"], run.At(p).ids)
      == Success(Get(Final(run).entities[id], "parent_entity_id"))
  {
    hide ValidManifest, FoldDistinct, Compiles, RunTo, Serve, PlanItem, PlanItems, Assemble, Resolve, WritesField;
    p := ItemOperationAt(m, remote, b, Entities, i, k);
    RanStep(run, |run.ops|, p);
    ResolvedField(run, |run.ops|, p, "new_parent_id");
    ServeMoves(run.Remote(p), run.Body(p), run.replies(p).id, id);
    FieldFromHere(m, remote, b, run, Entities, i, id, "parent_entity_id", p + 1);
  }

  // ---- managed fields in the end --------------------------------------------------------------

  /** Some operation of the item carries the managed field. */
  ghost predicate Written(r: Resource, c: Context, item: Dict, f: string)
    requires PlanItem(r, c, item).Success?
  {
    f in ManagedFields(r) && exists op <- PlanItem(r, c, item).value.changes :: op.body.Some? && f in op.body.value
  }

  lemma UpdateShape(r: Resource, c: Context, item: Dict, id: string)
    requires r != Memberships && Present(item) && PlanItem(r, c, item).Success? && KeyOf(r, item) in c.Current(r)
    requires Get(c.Current(r)[KeyOf(r, item)], "id") == Str(id)
    ensures var row := c.Current(r)[KeyOf(r, item)];
      var diff := ManagedDiff(row, item, ManagedFields(r));
      var changes := PlanItem(r, c, item).value.changes;
      && (diff != map[] ==>
        changes != [] && changes[0].verb == Patch && changes[0].path == Element(r, id) && changes[0].body == Some(diff))
      && (forall l, f | (if diff == map[] then 0 else 1) <= l < |changes| && f in ManagedFields(r) ::
            !WritesField(changes[l], f) && (changes[l].body.Some? ==> f !in changes[l].body.value))
  {
    hide ManagedDiff, PlanItem, LookupOrRef, Canonical;
    ManagedNotLookedUp(r);
    ExistingChanges(r, c, item);
  }

  lemma DiffFields(row: Dict, item: Dict, fields: set<string>, f: string)
    requires f in item && f in fields
    ensures f in ManagedDiff(row, item, fields) <==> Canonical(Get(row, f)) != Canonical(item[f])
    ensures f in ManagedDiff(row, item, fields) ==> ManagedDiff(row, item, fields)[f] == item[f]
  {
    hide Canonical;
  }

  lemma ExistingFieldFinal(m: Manifest, remote: Remote, b: Blueprint, run: Run, r: Resource, i: nat, id: string,
                           f: string)
    requires Applies(m, remote, b, run) && run.Ran(|run.ops|) && NamesRow(m, b, r, i, id)
    requires f in ManagedFields(r) && f in b.Items(m, r)[i]
    ensures id in Final(run).Table(r)
    ensures Canonical(Get(Final(run).Table(r)[id], f)) == Canonical(b.Items(m, r)[i][f])
      <==> (Written(r, b.c, b.Items(m, r)[i], f) ==> RefFree(b.Items(m, r)[i][f]))
  {
    hide Applies, RunTo, PlanItem, PlanItems, ManagedDiff, WritesField, Canonical, Resolve, RefFree, ManagedFields;
    var item := b.Items(m, r)[i];
    var row := b.c.Current(r)[KeyOf(r, item)];
    UpdateShape(r, b.c, item, id);
    DiffFields(row, item, ManagedFields(r), f);
    if f in ManagedDiff(row, item, ManagedFields(r)) {
      var p := FieldUpdated(m, remote, b, run, r, i, id, f);
      ResolveKeepsCanonicalIff(item[f], run.At(p).ids);
    } else {
      NotWritten(r, b.c, item, f, id);
      FieldUnwritten(m, remote, b, run, r, i, id, f);
    }
  }

  lemma NotWritten(r: Resource, c: Context, item: Dict, f: string, id: string)
    requires r != Memberships && Present(item) && PlanItem(r, c, item).Success? && KeyOf(r, item) in c.Current(r)
    requires Get(c.Current(r)[KeyOf(r, item)], "id") == Str(id) && f in ManagedFields(r)
    requires f !in ManagedDiff(c.Current(r)[KeyOf(r, item)], item, ManagedFields(r))
    ensures !Written(r, c, item, f)
    ensures forall op <- PlanItem(r, c, item).value.changes :: !WritesField(op, f)
  {
    hide PlanItem, ManagedFields, Canonical;
    UpdateShape(r, c, item, id);
    var changes := PlanItem(r, c, item).value.changes;
    forall l | 0 <= l < |changes|
      ensures !WritesField(changes[l], f) && (changes[l].body.Some? ==> f !in changes[l].body.value) {
    }
  }

  /** A created row carries the resolved value of each field of its body. */
  lemma CreatedField(m: Manifest, remote: Remote, b: Blueprint, run: Run, r: Resource, i: nat, id: string, f: string)
    returns (p: nat)
    requires Applies(m, remote, b, run) && run.Ran(|run.ops|) && r != Memberships && f != "id"
    requires i < |b.Items(m, r)| && Present(b.Items(m, r)[i]) && KeyOf(r, b.Items(m, r)[i]) !in b.c.Current(r)
    requires Denotes(m, b, run, |run.ops|, r, KeyOf(r, b.Items(m, r)[i]), id)
    ensures PlanItem(r, b.c, b.Items(m, r)[i]).Success? && |PlanItem(r, b.c, b.Items(m, r)[i]).value.changes| == 1
    ensures id in Final(run).Table(r) && p < |run.ops|
    ensures var op := PlanItem(r, b.c, b.Items(m, r)[i]).value.changes[0];
      && op.body.Some?
      && (f in op.body.value ==> Resolve(op.body.value[f], run.At(p).ids) == Success(Get(Final(run).Table(r)[id], f)))
      && (f !in op.body.value ==> Get(Final(run).Table(r)[id], f) == Null)
  {
    hide ValidManifest, FoldDistinct, Compiles, FoldedIdentity, RunTo, Serve, PlanItem, PlanItems, Assemble, Resolve,
      ResolveDict, CreatesKey;
    var key := KeyOf(r, b.Items(m, r)[i]);
    p :| 0 <= p < |run.ops| && CreatesKey(run.ops[p], r, key) && run.replies(p).Accepted? && run.replies(p).id == id;
    var j := CreationPlace(m, remote, b, p, r, key);
    KeysArePlaces(m, remote, b, r, i, j);
    ItemOperations(r, b.c, b.Items(m, r)[i]);
    assert run.ops[p] in PlanItem(r, b.c, b.Items(m, r)[i]).value.changes;
    CreatedPath(run.ops[p], r, key);
    CreatedRowStays(m, remote, b, run, |run.ops|, p, r);
    CreatedBodyField(run, |run.ops|, p, f);
  }

  lemma CreatedPath(op: Operation, r: Resource, key: string)
    requires CreatesKey(op, r, key)
    ensures op.path == Collection(r)
  {
  }

  lemma CreatedBodyField(run: Run, n: nat, p: nat, f: string)
    requires run.Ran(n) && p < n && run.ops[p].body.Some? && f != "id"
    ensures f in run.ops[p].body.value ==>
      Resolve(run.ops[p].body.value[f], run.At(p).ids) == Success(Get(AttributesOf(run.Body(p)), f))
    ensures f !in run.ops[p].body.value ==> Get(AttributesOf(run.Body(p)), f) == Null
  {
    hide RunTo, Serve, Resolve;
    RanStep(run, n, p);
    ResolvedKeys(run.ops[p].body, run.At(p).ids);
    if f in run.ops[p].body.value {
      ResolvedField(run, n, p, f);
    }
  }

  lemma CreatedFieldFinal(m: Manifest, remote: Remote, b: Blueprint, run: Run, r: Resource, i: nat, id: string,
                          f: string)
    requires Applies(m, remote, b, run) && run.Ran(|run.ops|) && r != Memberships
    requires i < |b.Items(m, r)| && Present(b.Items(m, r)[i]) && KeyOf(r, b.Items(m, r)[i]) !in b.c.Current(r)
    requires Denotes(m, b, run, |run.ops|, r, KeyOf(r, b.Items(m, r)[i]), id)
    requires f in ManagedFields(r) && f in b.Items(m, r)[i]
    ensures PlanItem(r, b.c, b.Items(m, r)[i]).Success? && id in Final(run).Table(r)
    ensures Canonical(Get(Final(run).Table(r)[id], f)) == Canonical(b.Items(m, r)[i][f])
      <==> (Written(r, b.c, b.Items(m, r)[i], f) ==> RefFree(b.Items(m, r)[i][f]))
  {
    hide Applies, RunTo, PlanItem, PlanItems, Canonical, Resolve, RefFree, ManagedFields, Denotes;
    IdentityNotManaged(r);
    var p := CreatedField(m, remote, b, run, r, i, id, f);
    CreationBody(r, b.c, b.Items(m, r)[i]);
    var op := PlanItem(r, b.c, b.Items(m, r)[i]).value.changes[0];
    assert op in PlanItem(r, b.c, b.Items(m, r)[i]).value.changes;
    ResolveKeepsCanonicalIff(b.Items(m, r)[i][f], run.At(p).ids);
  }

  // ---- references in the end ------------------------------------------------------------------

  /** Whatever a lookup found or announced exists in the end. */
  lemma LookupDenotes(m: Manifest, remote: Remote, b: Blueprint, run: Run, r: Resource, identity: string)
    returns (id: string)
    requires Applies(m, remote, b, run) && PlainSlugs(m) && run.Ran(|run.ops|) && r in {Entities, Roles}
    requires LookupOrRef(r, identity, b.c.Current(r), Declared(b.c, r)).Success?
    requires !DeclaredAbsent(m, r, Fold(identity))
    ensures Denotes(m, b, run, |run.ops|, r, Fold(identity), id)
  {
    hide Compiles, ValidManifest, FoldDistinct, FoldedIdentity, RunTo, Assemble, Denotes, DeclaredAbsent, PlainSlugs;
    if Fold(identity) in b.c.Current(r) {
      id := KnownKeyDenotes(m, remote, b, run, |run.ops|, r, Fold(identity));
    } else {
      var i := DeclaredItem(m, remote, b, r, Fold(identity));
      id := PresentKeyDenotes(m, remote, b, run, r, i);
    }
  }
}
