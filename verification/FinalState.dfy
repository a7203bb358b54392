/** The store after a plan has been applied completely: which rows exist and what a reference resolves to. */
module FinalState {
  import opened Outcomes
  import opened Text
  import opened JsonValues
  import opened Manifests
  import opened RemoteStore
  import opened Planner
  import opened PlanShape
  import opened SnapshotFacts
  import opened Executor
  import opened RunFacts
  import opened ReferenceSafety
  import opened RunOfPlan

  // ---- keys that persist, keys that go --------------------------------------------------------

  /** Some absent item bears the key. */
  ghost predicate DeclaredAbsent(m: Manifest, r: Resource, key: string) {
    exists item :: item in m.Items(r) && !Present(item) && KeyOf(r, item) == key
  }

  lemma DeleteMeansAbsent(m: Manifest, remote: Remote, b: Blueprint, q: nat)
    requires ValidManifest(m) && FoldDistinct(m) && Compiles(m, remote, b) && q < |b.Ops()| && b.Ops()[q].verb == Delete
    ensures DeclaredAbsent(m, b.Ops()[q].resource, Fold(b.Ops()[q].identity))
  {
    hide Compiles, ValidManifest, FoldDistinct, PlanItem, PlanItems, Assemble;
    if q < b.ChangeCount() {
      ChangesDoNotDelete(m, remote, b, q);
    }
    var r, i := OwnerOfOperation(m, remote, b, q);
    var item := b.Items(m, r)[i];
    assert item in b.Items(m, r);
    SequenceMembers(m, remote, b, r, item);
  }

  lemma DeletedLate(m: Manifest, remote: Remote, b: Blueprint, q: nat)
    requires Compiles(m, remote, b) && q < |b.Ops()| && b.Ops()[q].verb == Delete
    ensures b.ChangeCount() <= q
  {
    hide Compiles, Assemble;
    if q < b.ChangeCount() {
      ChangesDoNotDelete(m, remote, b, q);
    }
  }

  /** A stored row outlasts the changes, and one whose key is not declared absent the deletions too. */
  lemma RowSurvives(m: Manifest, remote: Remote, b: Blueprint, run: Run, n: nat, r: Resource, id: string, key: string)
    requires Applies(m, remote, b, run) && run.Ran(n) && r != Memberships
    requires id in remote.Table(r) && FoldedIdentity(r, remote.Table(r)[id]) == Some(key)
    requires n <= b.ChangeCount() || !DeclaredAbsent(m, r, key)
    ensures id in run.Remote(n).Table(r)
    ensures FoldedIdentity(r, run.Remote(n).Table(r)[id]) == Some(key)
  {
    hide Compiles, ValidManifest, FoldDistinct, FoldedIdentity, RunTo, Assemble, TouchesRow, WritesField,
      DeclaredAbsent;
    assert ValidTable(r, remote.Table(r));
    forall q | 0 <= q < n && TouchesRow(run.ops[q].path, r, id)
      ensures run.ops[q].verb != Delete && !WritesField(run.ops[q], "id") && !WritesField(run.ops[q], IdentityField(r))
    {
      TouchedRow(m, remote, b, q, r, id);
      IdentityNotWritten(m, remote, b, q, r, id);
      if run.ops[q].verb == Delete {
        DeleteMeansAbsent(m, remote, b, q);
        DeletedLate(m, remote, b, q);
      }
    }
    StartOfRun(run);
    FieldKept(run, n, 0, n, r, id, "id");
    FieldKept(run, n, 0, n, r, id, IdentityField(r));
    SameIdentity(r, id, remote.Table(r)[id], run.Remote(n).Table(r)[id]);
  }

  /** What a key stands for at the end of the changes: the stored row, or the one created for it. */
  ghost predicate Denotes(m: Manifest, b: Blueprint, run: Run, n: nat, r: Resource, key: string, id: string)
    requires r != Memberships && n <= |run.ops|
  {
    && id in run.Remote(n).Table(r) && FoldedIdentity(r, run.Remote(n).Table(r)[id]) == Some(key)
    && (key in b.c.Current(r) ==> Get(b.c.Current(r)[key], "id") == Str(id))
    && (key !in b.c.Current(r) ==>
        exists q | 0 <= q < n :: CreatesKey(run.ops[q], r, key) && run.replies(q).Accepted? && run.replies(q).id == id)
  }

  lemma KnownKeyDenotes(m: Manifest, remote: Remote, b: Blueprint, run: Run, n: nat, r: Resource, key: string)
    returns (id: string)
    requires Applies(m, remote, b, run) && run.Ran(n) && r != Memberships
    requires key in b.c.Current(r) && (n <= b.ChangeCount() || !DeclaredAbsent(m, r, key))
    ensures Denotes(m, b, run, n, r, key, id)
  {
    hide Compiles, ValidManifest, FoldDistinct, FoldedIdentity, RunTo, Assemble, DeclaredAbsent;
    CurrentRow(m, remote, b, r, key);
    id := RowId(b.c.Current(r)[key]);
    RowSurvives(m, remote, b, run, n, r, id, key);
  }

  lemma CreatedKeyDenotes(m: Manifest, remote: Remote, b: Blueprint, run: Run, n: nat, r: Resource, key: string, q: nat)
    returns (id: string)
    requires Applies(m, remote, b, run) && PlainSlugs(m) && run.Ran(n) && r != Memberships
    requires q < n && CreatesKey(run.ops[q], r, key)
    ensures Denotes(m, b, run, n, r, key, id) && run.replies(q).Accepted? && id == run.replies(q).id
  {
    hide Compiles, ValidManifest, FoldDistinct, FoldedIdentity, RunTo, Assemble, PlainSlugs;
    CreatedRowStays(m, remote, b, run, n, q, r);
    CreatedIsRead(m, remote, b, q, r, key);
    id := run.replies(q).id;
    CreatedRowKey(m, remote, b, run, n, q, r, key);
  }

  lemma CreatedRowKey(m: Manifest, remote: Remote, b: Blueprint, run: Run, n: nat, q: nat, r: Resource, key: string)
    requires Applies(m, remote, b, run) && PlainSlugs(m) && run.Ran(n) && r != Memberships
    requires q < n && CreatesKey(run.ops[q], r, key)
    ensures run.replies(q).Accepted? && run.replies(q).id in run.Remote(n).Table(r)
    ensures FoldedIdentity(r, run.Remote(n).Table(r)[run.replies(q).id]) == Some(key)
  {
    hide Compiles, ValidManifest, FoldDistinct, RunTo, Serve, Assemble, PlanItem, FoldedIdentity, Resolve, ResolveDict;
    var i := CreatedItem(m, remote, b, q, r, key);
    CreatedRowStays(m, remote, b, run, n, q, r);
    RanStep(run, n, q);
    CreatedIdIsNew(m, remote, b, run, q, r, r);
    CreatedIdentity(r, b.c, b.Items(m, r)[i], run.ops[q], run.At(q).ids);
    NewRowIdentity(r, run.Remote(n).Table(r)[run.replies(q).id], run.replies(q).id, b.Items(m, r)[i]);
  }

  /** A present item's key always denotes a row in the end. */
  lemma PresentKeyDenotes(m: Manifest, remote: Remote, b: Blueprint, run: Run, r: Resource, i: nat) returns (id: string)
    requires Applies(m, remote, b, run) && PlainSlugs(m) && run.Ran(|run.ops|) && r != Memberships
    requires i < |b.Items(m, r)| && Present(b.Items(m, r)[i])
    ensures Denotes(m, b, run, |run.ops|, r, KeyOf(r, b.Items(m, r)[i]), id)
  {
    hide ValidManifest, FoldDistinct, FetchSnapshot, MakeContext, FoldedIdentity, RunTo, Assemble, PlainSlugs,
      PlanItem, PlanItems, Denotes;
    var key := KeyOf(r, b.Items(m, r)[i]);
    if key in b.c.Current(r) {
      PresentNotAbsent(m, remote, b, r, i);
      id := KnownKeyDenotes(m, remote, b, run, |run.ops|, r, key);
    } else {
      var q := CreationOf(m, remote, b, r, i);
      id := CreatedKeyDenotes(m, remote, b, run, |run.ops|, r, key, q);
    }
  }

  lemma PresentNotAbsent(m: Manifest, remote: Remote, b: Blueprint, r: Resource, i: nat)
    requires ValidManifest(m) && FoldDistinct(m) && Compiles(m, remote, b)
    requires i < |b.Items(m, r)| && Present(b.Items(m, r)[i])
    ensures !DeclaredAbsent(m, r, KeyOf(r, b.Items(m, r)[i]))
  {
    hide Compiles, ValidManifest, FoldDistinct, PlanItem, PlanItems, Assemble;
    if item :| item in m.Items(r) && !Present(item) && KeyOf(r, item) == KeyOf(r, b.Items(m, r)[i]) {
      SequenceMembers(m, remote, b, r, item);
      var j :| 0 <= j < |b.Items(m, r)| && b.Items(m, r)[j] == item;
      KeysArePlaces(m, remote, b, r, i, j);
    }
  }

  /** An absent item's key denotes nothing in the end. */
  lemma AbsentKeyGone(m: Manifest, remote: Remote, b: Blueprint, run: Run, r: Resource, key: string, id: string)
    requires Applies(m, remote, b, run) && PlainSlugs(m) && run.Ran(|run.ops|) && r != Memberships
    requires DeclaredAbsent(m, r, key) && id in run.Remote(|run.ops|).Table(r)
    ensures FoldedIdentity(r, run.Remote(|run.ops|).Table(r)[id]) != Some(key)
  {
    hide Compiles, ValidManifest, FoldDistinct, FoldedIdentity, RunTo, Assemble, PlainSlugs, ValidRow;
    var n := |run.ops|;
    if FoldedIdentity(r, run.Remote(n).Table(r)[id]) == Some(key) {
      RowAt(m, remote, b, run, n, r, id);
      if q :| 0 <= q < n && CreatesKey(run.ops[q], r, key) && run.replies(q).Accepted? && run.replies(q).id == id {
        var i := CreatedItem(m, remote, b, q, r, key);
        PresentNotAbsent(m, remote, b, r, i);
      } else {
        StoredAbsentIsDeleted(m, remote, b, run, r, key, id);
      }
    }
  }

  lemma AbsentIsPlanned(m: Manifest, remote: Remote, b: Blueprint, r: Resource, key: string) returns (q: nat)
    requires ValidManifest(m) && FoldDistinct(m) && Compiles(m, remote, b)
    requires DeclaredAbsent(m, r, key) && key in b.c.Current(r)
    ensures b.ChangeCount() <= q < |b.Ops()| && b.Ops()[q].verb == Delete
    ensures b.Ops()[q].path == ElementPath(r, b.c.Current(r)[key])
  {
    hide ValidManifest, FoldDistinct, FetchSnapshot, MakeContext, PlanItem, PlanItems, Assemble;
    var item :| item in m.Items(r) && !Present(item) && KeyOf(r, item) == key;
    SequenceMembers(m, remote, b, r, item);
    var i :| 0 <= i < |b.Items(m, r)| && b.Items(m, r)[i] == item;
    DeletesOfItem(r, b.c, b.Items(m, r), i);
    ItemOperations(r, b.c, item);
    var op := PlanItem(r, b.c, item).value.deletes[0];
    assert op in PlanItem(r, b.c, item).value.deletes;
    q := DeleteIsPlanned(b, r, op);
  }

  lemma ServeDeletes(s: Remote, path: Path, body: Option<Dict>, newId: string, r: Resource, id: string)
    requires r != Memberships && path == Element(r, id) && Serve(s, Delete, path, body, newId).Some?
    ensures id !in Serve(s, Delete, path, body, newId).value.Table(r)
  {
  }

  lemma StoredAbsentIsDeleted(m: Manifest, remote: Remote, b: Blueprint, run: Run, r: Resource, key: string, id: string)
    requires Applies(m, remote, b, run) && run.Ran(|run.ops|) && r != Memberships && DeclaredAbsent(m, r, key)
    requires id in remote.Table(r) && FoldedIdentity(r, remote.Table(r)[id]) == Some(key)
    ensures id !in run.Remote(|run.ops|).Table(r)
  {
    hide Compiles, ValidManifest, FoldDistinct, FoldedIdentity, RunTo, Serve, Assemble;
    assert Reads(m, r);
    StoredIsKnown(m, remote, b, r, id, key);
    CurrentRow(m, remote, b, r, key);
    var q := AbsentIsPlanned(m, remote, b, r, key);
    RanStep(run, |run.ops|, q);
    ServeDeletes(run.Remote(q), run.ops[q].path, run.Body(q), run.replies(q).id, r, id);
    forall p | q + 1 <= p < |run.ops| ensures run.ops[p].path != Collection(r) {
      DeletesDoNotCreate(m, remote, b, p, r);
    }
    StaysGone(run, |run.ops|, q + 1, |run.ops|, r, id);
  }

  // ---- what a placeholder resolves to ---------------------------------------------------------

  ghost predicate IdStored(remote: Remote, r: Resource, key: string, id: string)
    requires r != Memberships
  {
    id in remote.Table(r) && FoldedIdentity(r, remote.Table(r)[id]) == Some(key)
  }

  /** The ids a run starts with are those of stored rows. */
  ghost predicate IdsMatch(remote: Remote, ids: Ids) {
    forall r: Resource, key | r in {Entities, Roles} && IdFor(ids, ResourceName(r), key).Some? ::
      IdStored(remote, r, key, IdFor(ids, ResourceName(r), key).value)
  }

  lemma TeachingCreates(m: Manifest, remote: Remote, b: Blueprint, q: nat, reply: Reply, r: Resource, key: string)
    requires Compiles(m, remote, b) && q < |b.Ops()| && Teaches(b.Ops()[q], reply, ResourceName(r), key)
    ensures CreatesKey(b.Ops()[q], r, key)
  {
    hide FetchSnapshot, MakeContext, PlanItem, PlanItems, Assemble, ResourceName;
    ResourceNamesDiffer(b.Ops()[q].resource, r);
    var r', i := OwnerOfOperation(m, remote, b, q);
  }

  /** The operation that taught a run an id it did not start with. */
  lemma {:induction false} TaughtBy(run: Run, n: nat, p: nat, resource: string, key: string) returns (q: nat)
    requires run.Ran(n) && p <= n
    requires IdFor(run.At(0).ids, resource, key).None? && IdFor(run.At(p).ids, resource, key).Some?
    ensures q < p && Teaches(run.ops[q], run.replies(q), resource, key)
    decreases p
  {
    hide RunTo, Learn;
    RanStep(run, n, p - 1);
    LearnFrame(run.At(p - 1).ids, run.ops[p - 1], run.replies(p - 1), resource, key);
    if Teaches(run.ops[p - 1], run.replies(p - 1), resource, key) {
      q := p - 1;
    } else {
      q := TaughtBy(run, n, p - 1, resource, key);
    }
  }

  lemma UnknownAtStart(m: Manifest, remote: Remote, b: Blueprint, run: Run, r: Resource, key: string)
    requires Applies(m, remote, b, run) && IdsMatch(remote, run.start.ids) && r in {Entities, Roles} && Reads(m, r)
    requires key !in b.c.Current(r)
    ensures IdFor(run.At(0).ids, ResourceName(r), key) == None
  {
    hide Compiles, ValidManifest, FoldDistinct, FoldedIdentity, RunTo, Assemble;
    StartOfRun(run);
    if IdFor(run.start.ids, ResourceName(r), key).Some? {
      assert IdStored(remote, r, key, IdFor(run.start.ids, ResourceName(r), key).value);
      StoredIsKnown(m, remote, b, r, IdFor(run.start.ids, ResourceName(r), key).value, key);
    }
  }

  /** The one operation that taught a run the id of something new, and the id it taught. */
  lemma TaughtOnce(m: Manifest, remote: Remote, b: Blueprint, run: Run, n: nat, p: nat, r: Resource, key: string)
    returns (q: nat)
    requires Applies(m, remote, b, run) && run.Ran(n) && p <= n && IdsMatch(remote, run.start.ids)
    requires r in {Entities, Roles} && Reads(m, r) && key !in b.c.Current(r)
    requires IdFor(run.At(p).ids, ResourceName(r), key).Some?
    ensures q < p && CreatesKey(run.ops[q], r, key) && run.replies(q).Accepted?
    ensures IdFor(run.At(p).ids, ResourceName(r), key) == Some(run.replies(q).id)
  {
    hide Compiles, ValidManifest, FoldDistinct, FoldedIdentity, RunTo, Assemble, IdsMatch, Teaches, CreatesKey, Learn,
      ResolveBody, Serve, Resolve, ValidRemote;
    var name := ResourceName(r);
    UnknownAtStart(m, remote, b, run, r, key);
    q := TaughtBy(run, n, p, name, key);
    TeachingCreates(m, remote, b, q, run.replies(q), r, key);
    forall k | q + 1 <= k < p ensures !Teaches(run.ops[k], run.replies(k), name, key) {
      if Teaches(run.ops[k], run.replies(k), name, key) {
        TeachingCreates(m, remote, b, k, run.replies(k), r, key);
        CreationUnique(m, remote, b, q, k, r, key);
      }
    }
    RanStep(run, n, q);
    LearnFrame(run.At(q).ids, run.ops[q], run.replies(q), name, key);
    IdsKept(run, n, q + 1, p, name, key);
  }

  /** A placeholder that resolves stands for the row its key denotes from then on. */
  lemma RefMeans(m: Manifest, remote: Remote, b: Blueprint, run: Run, n: nat, p: nat, r: Resource, identity: string,
                 id: string)
    requires Applies(m, remote, b, run) && run.Ran(n) && p <= n && IdsMatch(remote, run.start.ids)
    requires r in {Entities, Roles} && Reads(m, r) && Fold(identity) !in b.c.Current(r)
    requires Denotes(m, b, run, n, r, Fold(identity), id)
    requires Resolve(Ref(r, identity), run.At(p).ids).Success?
    ensures Resolve(Ref(r, identity), run.At(p).ids) == Success(Str(id))
  {
    hide Compiles, ValidManifest, FoldDistinct, FoldedIdentity, RunTo, Assemble, Resolve, IdsMatch, Teaches,
      CreatesKey, Learn, IdFor, Reads;
    var key := Fold(identity);
    ResolveRef(r, identity, run.At(p).ids);
    var q := TaughtOnce(m, remote, b, run, n, p, r, key);
    var q' :| 0 <= q' < n && CreatesKey(run.ops[q'], r, key) && run.replies(q').Accepted? && run.replies(q').id == id;
    CreationUnique(m, remote, b, q, q', r, key);
  }

  /** Hence a looked-up value, once it resolves, is the id of the row its identity denotes. */
  lemma LookupMeans(m: Manifest, remote: Remote, b: Blueprint, run: Run, n: nat, p: nat, r: Resource, identity: string,
                    id: string)
    requires Applies(m, remote, b, run) && run.Ran(n) && p <= n && IdsMatch(remote, run.start.ids)
    requires r in {Entities, Roles} && Reads(m, r) && Denotes(m, b, run, n, r, Fold(identity), id)
    requires LookupOrRef(r, identity, b.c.Current(r), Declared(b.c, r)).Success?
    requires Resolve(LookupOrRef(r, identity, b.c.Current(r), Declared(b.c, r)).value, run.At(p).ids).Success?
    ensures Resolve(LookupOrRef(r, identity, b.c.Current(r), Declared(b.c, r)).value, run.At(p).ids) == Success(Str(id))
  {
    hide Applies, IdsMatch, RunTo, FoldedIdentity, Reads, CreatesKey, IdFor;
    if Fold(identity) !in b.c.Current(r) {
      RefMeans(m, remote, b, run, n, p, r, identity, id);
    }
  }
}
