/** While a plan is being applied: where it puts the entities that it places, and which others it leaves alone. */
module IntermediateForests {
  import opened Outcomes
  import opened Text
  import opened JsonValues
  import opened Manifests
  import opened RemoteStore
  import opened EntityOrder
  import opened Planner
  import opened PlanShape
  import opened SnapshotFacts
  import opened Executor
  import opened RunFacts
  import opened ReferenceSafety
  import opened RunOfPlan
  import opened FinalState
  import opened Convergence
  import opened SecondPlan

  /** The run may stop anywhere. */
  ghost predicate RunsUnder(m: Manifest, remote: Remote, b: Blueprint, run: Run) {
    Applies(m, remote, b, run) && PlainSlugs(m) && PlainReferences(remote) && IdsMatch(remote, run.start.ids)
  }

  // ---- what is settled when -------------------------------------------------------------------

  /** The plan fixes the parent of the i-th item. */
  ghost predicate Settles(b: Blueprint, i: nat) {
    i < |b.sequence| && Present(b.sequence[i]) &&
      ("parent" in b.sequence[i] || KeyOf(Entities, b.sequence[i]) !in b.c.entities)
  }

  /** All operations of the i-th item are among the first `n`. */
  ghost predicate DoneBy(b: Blueprint, i: nat, n: nat) {
    && i < |b.sequence| && PlanItems(Entities, b.c, b.sequence[..i + 1]).Success?
    && b.Base(Entities) + Offset(Entities, b.c, b.sequence, i + 1) <= n
  }

  /** The q-th operation is the last one of the i-th item. */
  ghost predicate LastOf(b: Blueprint, i: nat, q: nat) {
    && i < |b.sequence| && PlanItems(Entities, b.c, b.sequence[..i]).Success?
    && b.Base(Entities) + Offset(Entities, b.c, b.sequence, i) <= q && DoneBy(b, i, q + 1)
  }

  ghost predicate SettledAs(m: Manifest, b: Blueprint, run: Run, n: nat, i: nat, id: string)
    requires n <= |run.ops|
  {
    Settles(b, i) && DoneBy(b, i, n) && Denotes(m, b, run, n, Entities, KeyOf(Entities, b.sequence[i]), id)
  }

  /** An item that is done names a row. */
  lemma DoneDenotes(m: Manifest, remote: Remote, b: Blueprint, run: Run, n: nat, i: nat) returns (id: string)
    requires Applies(m, remote, b, run) && PlainSlugs(m) && run.Ran(n) && i < |b.sequence| && Present(b.sequence[i])
    requires DoneBy(b, i, n)
    ensures Denotes(m, b, run, n, Entities, KeyOf(Entities, b.sequence[i]), id)
  {
    hide ValidManifest, FoldDistinct, FetchSnapshot, MakeContext, FoldedIdentity, RunTo, Assemble, PlainSlugs,
      PlanItem, PlanItems, Denotes;
    var key := KeyOf(Entities, b.sequence[i]);
    if key in b.c.Current(Entities) {
      PresentNotAbsent(m, remote, b, Entities, i);
      id := KnownKeyDenotes(m, remote, b, run, n, Entities, key);
    } else {
      var q := CreationOf(m, remote, b, Entities, i);
      id := CreatedKeyDenotes(m, remote, b, run, n, Entities, key, q);
    }
  }

  lemma EarlierIsDone(m: Manifest, remote: Remote, b: Blueprint, i: nat, j: nat, n: nat)
    requires Compiles(m, remote, b) && j <= i && DoneBy(b, i, n)
    ensures DoneBy(b, j, n)
  {
    hide FetchSnapshot, MakeContext, PlanItem, PlanItems, EntitySequence;
    assert b.Items(m, Entities) == b.sequence;
    OffsetsGrow(Entities, b.c, b.sequence, j + 1, i + 1);
  }

  // ---- the parent of a settled item -----------------------------------------------------------

  /** The row that the i-th item names as parent is not deleted among the first `n` operations. */
  ghost predicate ParentStays(m: Manifest, b: Blueprint, i: nat, n: nat)
    requires i < |b.sequence|
  {
    n <= b.ChangeCount() || (NonemptyText(Get(b.sequence[i], "parent")) ==>
      !DeclaredAbsent(m, Entities, Fold(Get(b.sequence[i], "parent").s)))
  }

  /** A parent that is looked up denotes a row: a stored one, or one that an earlier item created. */
  lemma ParentDenotes(m: Manifest, remote: Remote, b: Blueprint, run: Run, n: nat, i: nat) returns (id: string)
    requires Applies(m, remote, b, run) && PlainSlugs(m) && run.Ran(n) && DoneBy(b, i, n) && ParentStays(m, b, i, n)
    requires i < |b.sequence| && Present(b.sequence[i]) && NonemptyText(Get(b.sequence[i], "parent"))
    requires ParentValue(b.c, b.sequence[i]).Success?
    ensures Denotes(m, b, run, n, Entities, Fold(Get(b.sequence[i], "parent").s), id)
  {
    hide ValidManifest, FoldDistinct, Compiles, ValidRemote, RunTo, PlainSlugs, Denotes, DoneBy, DeclaredAbsent;
    var key := Fold(Get(b.sequence[i], "parent").s);
    if key in b.c.Current(Entities) {
      id := KnownKeyDenotes(m, remote, b, run, n, Entities, key);
    } else {
      assert ParentKey(b.sequence[i]) == Some(key) && key in Declared(b.c, Entities);
      var j := DeclaredBefore(m, remote, b, i, key);
      EarlierIsDone(m, remote, b, i, j, n);
      id := DoneDenotes(m, remote, b, run, n, j);
    }
  }

  /** The parent a settled entity is given, as an id. */
  ghost predicate PlacedUnder(m: Manifest, b: Blueprint, run: Run, n: nat, i: nat, v: Json)
    requires n <= |run.ops| && i < |b.sequence|
  {
    if NonemptyText(Get(b.sequence[i], "parent")) then
      v.Str? && Denotes(m, b, run, n, Entities, Fold(Get(b.sequence[i], "parent").s), v.s)
    else v == Null
  }

  lemma ResolvedParent(m: Manifest, remote: Remote, b: Blueprint, run: Run, n: nat, p: nat, i: nat)
    requires RunsUnder(m, remote, b, run) && run.Ran(n) && p <= n && DoneBy(b, i, n) && i < |b.sequence|
    requires Present(b.sequence[i]) && ParentStays(m, b, i, n)
    requires ParentValue(b.c, b.sequence[i]).Success?
    requires Resolve(ParentValue(b.c, b.sequence[i]).value, run.At(p).ids).Success?
    ensures PlacedUnder(m, b, run, n, i, Resolve(ParentValue(b.c, b.sequence[i]).value, run.At(p).ids).value)
  {
    hide ValidManifest, FoldDistinct, Compiles, FoldedIdentity, ValidRemote, RunTo, PlainSlugs, PlainReferences,
      IdsMatch, Denotes, DoneBy, Resolve, LookupOrRef, ParentStays;
    var item := b.sequence[i];
    if NonemptyText(Get(item, "parent")) {
      var id := ParentDenotes(m, remote, b, run, n, i);
      SequenceIsRead(m, remote, b, i);
      LookupMeans(m, remote, b, run, n, p, Entities, Get(item, "parent").s, id);
    } else {
      NullResolves(run.At(p).ids);
    }
  }

  lemma SequenceIsRead(m: Manifest, remote: Remote, b: Blueprint, i: nat)
    requires ValidManifest(m) && FoldDistinct(m) && Compiles(m, remote, b) && i < |b.sequence|
    ensures Reads(m, Entities)
  {
    hide ValidManifest, FoldDistinct, Compiles;
    assert b.sequence[i] in b.Items(m, Entities);
    SequenceMembers(m, remote, b, Entities, b.sequence[i]);
  }

  lemma EndOfItem(m: Manifest, remote: Remote, b: Blueprint, i: nat, n: nat)
    requires Compiles(m, remote, b) && i < |b.sequence|
    ensures PlanItem(Entities, b.c, b.sequence[i]).Success? && PlanItems(Entities, b.c, b.sequence[..i]).Success?
    ensures DoneBy(b, i, n) <==> Start(m, b, Entities, i) + |PlanItem(Entities, b.c, b.sequence[i]).value.changes| <= n
  {
    hide FetchSnapshot, MakeContext, PlanItem, PlanItems, EntitySequence;
    assert b.Items(m, Entities) == b.sequence;
    var lo, hi := SliceOfItem(Entities, b.c, b.sequence, i);
    assert |b.Group(Entities).changes[lo..hi]| == hi - lo;
  }

  /** From a point on which the item's operations do not write the field, it keeps its value. */
  lemma ParentKept(m: Manifest, remote: Remote, b: Blueprint, run: Run, n: nat, i: nat, id: string, p: nat)
    requires Applies(m, remote, b, run) && run.Ran(n) && NamesRow(m, b, Entities, i, id)
    requires p <= n && id in run.Remote(p).entities
    requires var changes := PlanItem(Entities, b.c, b.sequence[i]).value.changes;
      forall l | 0 <= l < |changes| && Start(m, b, Entities, i) + l >= p :: !WritesField(changes[l], "parent_entity_id")
    ensures id in run.Remote(n).entities
    ensures Get(run.Remote(n).entities[id], "parent_entity_id") == Get(run.Remote(p).entities[id], "parent_entity_id")
  {
    hide ValidManifest, FoldDistinct, Compiles, RunTo, PlanItem, PlanItems, Assemble, TouchesRow, WritesField,
      ValidRemote;
    forall q | p <= q < n && TouchesRow(run.ops[q].path, Entities, id)
      ensures run.ops[q].verb != Delete && !WritesField(run.ops[q], "parent_entity_id")
    {
      var lo, hi := RowOperations(m, remote, b, q, Entities, i, id);
    }
    FieldKept(run, n, p, n, Entities, id, "parent_entity_id");
  }

  lemma MovedPlaced(m: Manifest, remote: Remote, b: Blueprint, run: Run, n: nat, i: nat, id: string)
    requires RunsUnder(m, remote, b, run) && run.Ran(n) && NamesRow(m, b, Entities, i, id) && DoneBy(b, i, n)
    requires ParentStays(m, b, i, n)
    requires Moves(b.c, b.sequence[i], b.c.entities[KeyOf(Entities, b.sequence[i])]) != []
    ensures id in run.Remote(n).entities
    ensures PlacedUnder(m, b, run, n, i, Get(run.Remote(n).entities[id], "parent_entity_id"))
  {
    hide ParentStays, ValidManifest, FoldDistinct, Compiles, ValidRemote, RunTo, Serve, PlanItem, PlanItems, Assemble,
      Resolve, WritesField, ParentValue, PlainSlugs, PlainReferences, IdsMatch, Denotes, DoneBy, ManagedDiff, Canonical,
      PlacedUnder;
    var item := b.sequence[i];
    ParentPlanned(b.c, item);
    ExistingChanges(Entities, b.c, item);
    EndOfItem(m, remote, b, i, n);
    var changes := PlanItem(Entities, b.c, item).value.changes;
    var p := ItemOperationAt(m, remote, b, Entities, i, |changes| - 1);
    RanStep(run, n, p);
    ResolvedField(run, n, p, "new_parent_id");
    ServeMoves(run.Remote(p), run.Body(p), run.replies(p).id, id);
    ParentKept(m, remote, b, run, n, i, id, p + 1);
    ResolvedParent(m, remote, b, run, n, p, i);
  }

  lemma StayingPlaced(m: Manifest, remote: Remote, b: Blueprint, run: Run, n: nat, i: nat, id: string)
    requires RunsUnder(m, remote, b, run) && run.Ran(n) && NamesRow(m, b, Entities, i, id) && DoneBy(b, i, n)
    requires "parent" in b.sequence[i] && ParentStays(m, b, i, n)
    requires Moves(b.c, b.sequence[i], b.c.entities[KeyOf(Entities, b.sequence[i])]) == []
    ensures id in run.Remote(n).entities
    ensures PlacedUnder(m, b, run, n, i, Get(run.Remote(n).entities[id], "parent_entity_id"))
  {
    hide ParentStays, ValidManifest, FoldDistinct, Compiles, ValidRemote, RunTo, Serve, PlanItem, PlanItems, Assemble,
      Resolve, WritesField, ParentValue, PlainSlugs, PlainReferences, IdsMatch, Denotes, DoneBy, ManagedDiff, Canonical,
      PlacedUnder;
    var item := b.sequence[i];
    var row := b.c.entities[KeyOf(Entities, item)];
    ParentPlanned(b.c, item);
    ParentNotUpdated(b.c, item, row);
    StoredRow(m, remote, b, run, Entities, i, id);
    ParentKept(m, remote, b, run, n, i, id, 0);
    StoredParentPlain(m, remote, b, run, KeyOf(Entities, item));
    EntityIdsAreText(m, remote, b, run);
    ParentValueShape(b.c, item);
    PlainCanonical(Get(row, "parent_entity_id"), ParentValue(b.c, item).value);
    PlainResolves(ParentValue(b.c, item).value, run.At(n).ids);
    ResolvedParent(m, remote, b, run, n, n, i);
  }

  lemma PlainResolves(j: Json, ids: Ids)
    requires NullOrText(j)
    ensures Resolve(j, ids) == Success(j)
  {
  }

  lemma NewPlaced(m: Manifest, remote: Remote, b: Blueprint, run: Run, n: nat, i: nat, id: string)
    requires RunsUnder(m, remote, b, run) && run.Ran(n) && SettledAs(m, b, run, n, i, id)
    requires ParentStays(m, b, i, n)
    requires KeyOf(Entities, b.sequence[i]) !in b.c.entities
    ensures id in run.Remote(n).entities
    ensures PlacedUnder(m, b, run, n, i, Get(run.Remote(n).entities[id], "parent_entity_id"))
  {
    hide ParentStays, ValidManifest, FoldDistinct, Compiles, ValidRemote, RunTo, Serve, PlanItem, PlanItems, Assemble,
      Resolve, WritesField, ParentValue, PlainSlugs, PlainReferences, IdsMatch, DoneBy, ManagedDiff, Canonical,
      CreatesKey, FoldedIdentity;
    var item := b.sequence[i];
    var key := KeyOf(Entities, item);
    var q :| 0 <= q < n && CreatesKey(run.ops[q], Entities, key) && run.replies(q).Accepted? && run.replies(q).id == id;
    var j := CreationPlace(m, remote, b, q, Entities, key);
    KeysArePlaces(m, remote, b, Entities, i, j);
    CreatedPath(run.ops[q], Entities, key);
    CreatedRowStays(m, remote, b, run, n, q, Entities);
    ParentPlanned(b.c, item);
    CreatedParent(b.c, item);
    CreatedBodyField(run, n, q, "parent_entity_id");
    if Get(item, "parent") != Null {
      ResolvedParent(m, remote, b, run, n, q, i);
    }
  }

  /** A settled entity stands where the manifest puts it. */
  lemma SettledPlaced(m: Manifest, remote: Remote, b: Blueprint, run: Run, n: nat, i: nat, id: string)
    requires RunsUnder(m, remote, b, run) && run.Ran(n) && SettledAs(m, b, run, n, i, id)
    requires ParentStays(m, b, i, n)
    ensures id in run.Remote(n).entities
    ensures PlacedUnder(m, b, run, n, i, Get(run.Remote(n).entities[id], "parent_entity_id"))
  {
    hide ParentStays, RunsUnder, RunTo, PlanItem, PlanItems, DoneBy, CreatesKey, FoldedIdentity, Moves, PlacedUnder;
    if KeyOf(Entities, b.sequence[i]) in b.c.entities {
      SettledNamesRow(m, remote, b, run, n, i, id);
      if Moves(b.c, b.sequence[i], b.c.entities[KeyOf(Entities, b.sequence[i])]) == [] {
        StayingPlaced(m, remote, b, run, n, i, id);
      } else {
        MovedPlaced(m, remote, b, run, n, i, id);
      }
    } else {
      NewPlaced(m, remote, b, run, n, i, id);
    }
  }

  lemma SettledNamesRow(m: Manifest, remote: Remote, b: Blueprint, run: Run, n: nat, i: nat, id: string)
    requires RunsUnder(m, remote, b, run) && n <= |run.ops| && SettledAs(m, b, run, n, i, id)
    requires KeyOf(Entities, b.sequence[i]) in b.c.entities
    ensures NamesRow(m, b, Entities, i, id)
  {
    hide ValidManifest, FoldDistinct, Compiles, ValidRemote, RunTo, PlanItem, PlanItems, DoneBy, CreatesKey,
      FoldedIdentity, PlainSlugs, PlainReferences, IdsMatch;
    ItemPlanned(m, remote, b, Entities, i);
  }

  // ---- the links outside the settled part -----------------------------------------------------

  /** A creation is the only operation of its item. */
  lemma CreatorSettles(m: Manifest, remote: Remote, b: Blueprint, q: nat, key: string) returns (i: nat)
    requires ValidManifest(m) && FoldDistinct(m) && Compiles(m, remote, b)
    requires q < |b.Ops()| && CreatesKey(b.Ops()[q], Entities, key)
    ensures Settles(b, i) && KeyOf(Entities, b.sequence[i]) == key && LastOf(b, i, q)
  {
    hide ValidManifest, FoldDistinct, Compiles, PlanItem, PlanItems, Assemble, CreatesKey, DoneBy;
    i := CreationPlace(m, remote, b, q, Entities, key);
    EndOfItem(m, remote, b, i, q + 1);
  }

  /** Only moves write the parent of a stored entity, and a move is the last operation of its item. */
  lemma WriterIsLastMove(m: Manifest, remote: Remote, b: Blueprint, q: nat, id: string) returns (i: nat)
    requires ValidManifest(m) && FoldDistinct(m) && ValidRemote(remote) && Compiles(m, remote, b)
    requires q < |b.Ops()| && TouchesRow(b.Ops()[q].path, Entities, id) && WritesField(b.Ops()[q], "parent_entity_id")
    ensures i < |b.sequence| && Present(b.sequence[i]) && "parent" in b.sequence[i]
    ensures KeyOf(Entities, b.sequence[i]) in b.c.entities
    ensures Get(b.c.entities[KeyOf(Entities, b.sequence[i])], "id") == Str(id)
    ensures LastOf(b, i, q)
  {
    hide ValidManifest, FoldDistinct, Compiles, ValidRemote, PlanItem, PlanItems, Assemble, FoldedIdentity, DoneBy,
      TouchesRow;
    TouchedRow(m, remote, b, q, Entities, id);
    WriterIsChange(m, remote, b, q);
    var r, i' := OwnerOfOperation(m, remote, b, q);
    i := i';
    var lo, hi := ChangeInSlice(m, remote, b, Entities, i, q);
    var changes := PlanItem(Entities, b.c, b.sequence[i]).value.changes;
    assert |b.Group(Entities).changes[lo..hi]| == hi - lo;
    GroupPosition(b, Entities, q - b.Base(Entities));
    assert changes[q - b.Base(Entities) - lo] == b.Ops()[q];
    TouchedKnown(m, remote, b, q, id);
    MoveIsLast(b.c, b.sequence[i], q - b.Base(Entities) - lo);
    EndOfItem(m, remote, b, i, q + 1);
  }

  lemma WriterIsChange(m: Manifest, remote: Remote, b: Blueprint, q: nat)
    requires Compiles(m, remote, b) && q < |b.Ops()| && WritesField(b.Ops()[q], "parent_entity_id")
    ensures q < b.ChangeCount()
  {
    hide Compiles, Assemble;
    if b.ChangeCount() <= q {
      DeletesCarryNoBody(m, remote, b, q);
      MovesHaveBodies(m, remote, b, q);
    }
  }

  lemma TouchedKnown(m: Manifest, remote: Remote, b: Blueprint, q: nat, id: string)
    requires Compiles(m, remote, b) && ValidRemote(remote) && q < |b.Ops()| && TouchesRow(b.Ops()[q].path, Entities, id)
    ensures var key := Fold(b.Ops()[q].identity); key in b.c.entities && Get(b.c.entities[key], "id") == Str(id)
  {
    hide FetchSnapshot, MakeContext, EntitySequence, PlanItems, Assemble, FoldedIdentity;
    var r, i := OwnerOfOperation(m, remote, b, q);
    TouchedRow(m, remote, b, q, Entities, id);
    CurrentRow(m, remote, b, Entities, Fold(b.Ops()[q].identity));
    assert ValidRow(Entities, id, remote.entities[id]);
  }

  lemma MoveIsLast(c: Context, item: Dict, k: nat)
    requires Present(item) && PlanItem(Entities, c, item).Success? && KeyOf(Entities, item) in c.entities
    requires k < |PlanItem(Entities, c, item).value.changes|
    requires WritesField(PlanItem(Entities, c, item).value.changes[k], "parent_entity_id")
    ensures k == |PlanItem(Entities, c, item).value.changes| - 1 && "parent" in item
  {
    hide PlanItem, Canonical, ParentValue;
    ManagedNotLookedUp(Entities);
    ExistingChanges(Entities, c, item);
  }

  /** Where nothing writes it, a surviving row's parent is the original one. */
  lemma {:induction false} ParentOriginal(m: Manifest, remote: Remote, b: Blueprint, run: Run, n: nat, id: string)
    requires Applies(m, remote, b, run) && run.Ran(n) && id in remote.entities && id in run.Remote(n).entities
    requires forall q | 0 <= q < n && TouchesRow(run.ops[q].path, Entities, id) ::
      !WritesField(run.ops[q], "parent_entity_id")
    ensures Get(run.Remote(n).entities[id], "parent_entity_id") == Get(remote.entities[id], "parent_entity_id")
    decreases n
  {
    hide ValidManifest, FoldDistinct, Compiles, ValidRemote, RunTo, Serve, WritesField, TouchesRow;
    if n == 0 {
      StartOfRun(run);
    } else {
      RanStep(run, n, n - 1);
      StoredNotNew(m, remote, b, run, n, id);
      ParentOriginal(m, remote, b, run, n - 1, id);
      ResolvedKeys(run.ops[n - 1].body, run.At(n - 1).ids);
      SurvivorKeepsField(run.Remote(n - 1), run.ops[n - 1], run.Body(n - 1), run.replies(n - 1).id, Entities, id,
        "parent_entity_id");
    }
  }

  lemma StoredNotNew(m: Manifest, remote: Remote, b: Blueprint, run: Run, n: nat, id: string)
    requires Applies(m, remote, b, run) && run.Ran(n) && 0 < n && id in remote.entities && id in run.Remote(n).entities
    ensures id in run.Remote(n - 1).entities
  {
    hide ValidManifest, FoldDistinct, Compiles, ValidRemote, RunTo, Serve, TouchesRow;
    RanStep(run, n, n - 1);
    if id !in run.Remote(n - 1).entities {
      ServeAddsRow(run.Remote(n - 1), run.ops[n - 1].verb, run.ops[n - 1].path, run.Body(n - 1), run.replies(n - 1).id,
        Entities, id);
      CreatedIdIsNew(m, remote, b, run, n - 1, Entities, Entities);
    }
  }
}
