/** Exactly when the stored entities stay a forest while a plan is applied, said of the manifest and the store alone. */
module ForestStages {
  import opened Outcomes
  import opened Text
  import opened JsonValues
  import opened Manifests
  import opened RemoteStore
  import opened ParentForest
  import opened DeleteDepth
  import opened DeleteOrder
  import opened Planner
  import opened PlanShape
  import opened SnapshotFacts
  import opened Executor
  import opened RunFacts
  import opened ReferenceSafety
  import opened RunOfPlan
  import opened FinalState
  import opened SecondPlan
  import opened ApplyPlan
  import opened IntermediateForests

  // ---- the links of a stage -------------------------------------------------------------------

  /** The stored entities by casefolded slug. */
  function EntityIndex(remote: Remote): map<string, Dict> {
    ItemsByIdentity(Entities, Listing(remote.entities))
  }

  function StoredParentKey(remote: Remote, row: Dict): Option<string> {
    match ParentText(row)
    case None => None
    case Some(id) => if id in remote.entities then FoldedIdentity(Entities, remote.entities[id]) else None
  }

  /** The stored parent links, from slug to slug. */
  function KeyLinks(remote: Remote): Parents {
    map k | k in EntityIndex(remote) :: StoredParentKey(remote, EntityIndex(remote)[k])
  }

  /** The manifest decides where the item's entity stands: it says so, or the entity is new. */
  predicate SettlesPlace(remote: Remote, item: Dict) {
    Present(item) && ("parent" in item || KeyOf(Entities, item) !in EntityIndex(remote))
  }

  function NamedParent(item: Dict): Option<string> {
    if NonemptyText(Get(item, "parent")) then Some(Fold(Get(item, "parent").s)) else None
  }

  /** The links once the first `i` items of the planning order are done: the declared parent for those of them that
      settle their place, the stored one for every other entity. */
  function StageLinks(remote: Remote, sequence: seq<Dict>, i: nat): Parents
    requires i <= |sequence|
  {
    if i == 0 then KeyLinks(remote)
    else
      var before, item := StageLinks(remote, sequence, i - 1), sequence[i - 1];
      if SettlesPlace(remote, item) then before[KeyOf(Entities, item) := NamedParent(item)] else before
  }

  /** Placing the i-th item closes a circle: climbing from the parent it names reaches the item itself. */
  ghost predicate ClosesCircle(remote: Remote, sequence: seq<Dict>, i: nat)
    requires i < |sequence|
  {
    && SettlesPlace(remote, sequence[i]) && NamedParent(sequence[i]).Some?
    && Reaches(StageLinks(remote, sequence, i), NamedParent(sequence[i]).value, KeyOf(Entities, sequence[i]))
  }

  ghost predicate ForestAt(remote: Remote, sequence: seq<Dict>, i: nat)
    requires i <= |sequence|
  {
    !Cyclic(StageLinks(remote, sequence, i))
  }

  lemma StageStep(remote: Remote, sequence: seq<Dict>, i: nat)
    requires i < |sequence| && ForestAt(remote, sequence, i)
    ensures ForestAt(remote, sequence, i + 1) <==> !ClosesCircle(remote, sequence, i)
  {
    hide EntityIndex, KeyLinks, Cyclic, Reaches;
    RelinkCyclicIff(StageLinks(remote, sequence, i), KeyOf(Entities, sequence[i]), NamedParent(sequence[i]));
  }

  /** All stages are forests exactly when the first one is and no item closes a circle. */
  lemma {:induction false} StagesAcyclicIff(remote: Remote, sequence: seq<Dict>, n: nat)
    requires n <= |sequence| && !Cyclic(KeyLinks(remote))
    ensures (forall i | 0 <= i <= n :: ForestAt(remote, sequence, i)) <==>
      forall i | 0 <= i < n :: !ClosesCircle(remote, sequence, i)
  {
    if n > 0 {
      hide ForestAt, ClosesCircle, KeyLinks;
      StagesAcyclicIff(remote, sequence, n - 1);
      if ForestAt(remote, sequence, n - 1) {
        StageStep(remote, sequence, n - 1);
      }
    } else {
      assert ForestAt(remote, sequence, 0);
    }
  }

  lemma {:induction false} StageSettled(remote: Remote, sequence: seq<Dict>, i: nat, j: nat)
    requires j < i <= |sequence| && SettlesPlace(remote, sequence[j])
    requires forall l | j < l < i :: KeyOf(Entities, sequence[l]) != KeyOf(Entities, sequence[j])
    ensures Parent(StageLinks(remote, sequence, i), KeyOf(Entities, sequence[j])) == NamedParent(sequence[j])
  {
    hide SettlesPlace, KeyLinks;
    if j < i - 1 {
      StageSettled(remote, sequence, i - 1, j);
    }
  }

  lemma {:induction false} StageUntouched(remote: Remote, sequence: seq<Dict>, i: nat, k: string)
    requires i <= |sequence|
    requires forall j | 0 <= j < i && SettlesPlace(remote, sequence[j]) :: KeyOf(Entities, sequence[j]) != k
    ensures Parent(StageLinks(remote, sequence, i), k) == Parent(KeyLinks(remote), k)
  {
    hide SettlesPlace, KeyLinks;
    if i > 0 {
      StageUntouched(remote, sequence, i - 1, k);
    }
  }

  // ---- stages of a run ------------------------------------------------------------------------

  lemma IndexIs(m: Manifest, remote: Remote, b: Blueprint)
    requires Compiles(m, remote, b) && Reads(m, Entities)
    ensures b.c.entities == EntityIndex(remote)
  {
    hide FetchMemberships, PlanItems, EntitySequence, ItemsByIdentity, UsersByEmail, Listing, NeedsEntities;
  }

  lemma SettlesIs(m: Manifest, remote: Remote, b: Blueprint, j: nat)
    requires ValidManifest(m) && FoldDistinct(m) && Compiles(m, remote, b) && j < |b.sequence|
    ensures Settles(b, j) <==> SettlesPlace(remote, b.sequence[j])
  {
    hide ValidManifest, FoldDistinct, Compiles, EntityIndex, KeyOf;
    SequenceIsRead(m, remote, b, j);
    IndexIs(m, remote, b);
  }

  /** After `n` operations the first `i` items are done, and none of the others has had its last operation. */
  ghost predicate InStage(b: Blueprint, n: nat, i: nat) {
    && i <= |b.sequence|
    && (forall j: nat | j < i :: DoneBy(b, j, n))
    && (forall j: nat, q: nat | i <= j && q < n :: !LastOf(b, j, q))
  }

  lemma {:induction false} StageFrom(m: Manifest, remote: Remote, b: Blueprint, n: nat, from: nat) returns (i: nat)
    requires Compiles(m, remote, b) && from <= |b.sequence| && forall j: nat | j < from :: DoneBy(b, j, n)
    ensures InStage(b, n, i)
    decreases |b.sequence| - from
  {
    hide Compiles, PlanItems;
    if from < |b.sequence| && DoneBy(b, from, n) {
      i := StageFrom(m, remote, b, n, from + 1);
    } else {
      i := from;
      forall j: nat, q: nat | i <= j && q < n ensures !LastOf(b, j, q) {
        if LastOf(b, j, q) {
          EarlierIsDone(m, remote, b, j, i, n);
        }
      }
    }
  }

  /** Every stage is met: the i-th one where the operations of the i-th item begin. */
  lemma StageStart(m: Manifest, remote: Remote, b: Blueprint, i: nat) returns (n: nat)
    requires Compiles(m, remote, b) && i <= |b.sequence|
    ensures n <= b.ChangeCount() <= |b.Ops()| && InStage(b, n, i)
  {
    hide PlanItem, PlanItems, FetchSnapshot, MakeContext, EntitySequence, Offset;
    assert b.Items(m, Entities) == b.sequence && b.Group(Entities) == b.entities;
    OffsetWithin(m, remote, b, i);
    n := b.Base(Entities) + Offset(Entities, b.c, b.sequence, i);
    forall j: nat | j < i ensures DoneBy(b, j, n) {
      OffsetsGrow(Entities, b.c, b.sequence, j + 1, i);
    }
    forall j: nat, q: nat | i <= j && q < n ensures !LastOf(b, j, q) {
      if j < |b.sequence| {
        OffsetsGrow(Entities, b.c, b.sequence, i, j);
      }
    }
  }

  lemma OffsetWithin(m: Manifest, remote: Remote, b: Blueprint, i: nat)
    requires Compiles(m, remote, b) && i <= |b.sequence|
    ensures PlanItems(Entities, b.c, b.sequence[..i]).Success?
    ensures b.Base(Entities) + Offset(Entities, b.c, b.sequence, i) <= b.ChangeCount() <= |b.Ops()|
  {
    hide PlanItem, PlanItems, FetchSnapshot, MakeContext, EntitySequence;
    assert b.Items(m, Entities) == b.sequence && b.Group(Entities) == b.entities;
    PrefixPlanned(Entities, b.c, b.sequence, i);
  }

  // ---- the store of a run at a stage ----------------------------------------------------------

  function SlugsOf(t: map<string, Dict>): (names: map<string, string>)
    ensures names.Keys == t.Keys
  {
    map id | id in t :: match FoldedIdentity(Entities, t[id]) case Some(k) => k case None => ""
  }

  /** The changes have got as far as the i-th item. */
  ghost predicate AtStage(m: Manifest, remote: Remote, b: Blueprint, run: Run, n: nat, i: nat) {
    RunsUnder(m, remote, b, run) && n <= b.ChangeCount() && run.Ran(n) && InStage(b, n, i)
  }

  function LinksAt(run: Run, n: nat): Parents
    requires n <= |run.ops|
  {
    StoreLinks(run.Remote(n).entities)
  }

  lemma NamesAre(m: Manifest, remote: Remote, b: Blueprint, run: Run, n: nat)
    requires Applies(m, remote, b, run) && PlainSlugs(m) && run.Ran(n)
    ensures var t := run.Remote(n).entities;
      && (forall id | id in t :: id != "" && FoldedIdentity(Entities, t[id]) == Some(SlugsOf(t)[id]))
      && (forall a, c | a in t && c in t && SlugsOf(t)[a] == SlugsOf(t)[c] :: a == c)
  {
    hide Applies, PlainSlugs, RunTo, FoldedIdentity;
    var t := run.Remote(n).entities;
    TableStaysValid(m, remote, b, run, n, Entities);
    assert ValidTable(Entities, t);
    forall id | id in t ensures id != "" && FoldedIdentity(Entities, t[id]) == Some(SlugsOf(t)[id]) {
      assert ValidRow(Entities, id, t[id]);
      ValidRowIdentity(Entities, id, t[id]);
    }
  }

  /** The row of an item that is done and settles its place hangs where the manifest says. */
  lemma SettledNode(m: Manifest, remote: Remote, b: Blueprint, run: Run, n: nat, i: nat, j: nat) returns (id: string)
    requires AtStage(m, remote, b, run, n, i) && j < i && Settles(b, j)
    ensures id in run.Remote(n).entities && SlugsOf(run.Remote(n).entities)[id] == KeyOf(Entities, b.sequence[j])
    ensures Parent(StageLinks(remote, b.sequence, i), KeyOf(Entities, b.sequence[j])) ==
      NamedNode(LinksAt(run, n), SlugsOf(run.Remote(n).entities), ParentText(run.Remote(n).entities[id]))
  {
    hide ValidManifest, FoldDistinct, Compiles, ValidRemote, RunTo, PlainSlugs, PlainReferences, IdsMatch, DoneBy,
      KeyOf, StageLinks, SettlesPlace;
    id := DoneDenotes(m, remote, b, run, n, j);
    NamesAre(m, remote, b, run, n);
    SettledPlaced(m, remote, b, run, n, j, id);
    SettlesIs(m, remote, b, j);
    forall l | j < l < i ensures KeyOf(Entities, b.sequence[l]) != KeyOf(Entities, b.sequence[j]) {
      if KeyOf(Entities, b.sequence[l]) == KeyOf(Entities, b.sequence[j]) {
        KeysArePlaces(m, remote, b, Entities, l, j);
      }
    }
    StageSettled(remote, b.sequence, i, j);
  }

  /** Without such an item nothing has written the row's parent. */
  ghost predicate Unsettled(b: Blueprint, i: nat, key: string) {
    i <= |b.sequence| && forall j: nat | j < i && Settles(b, j) :: KeyOf(Entities, b.sequence[j]) != key
  }

  lemma UnsettledIsStored(m: Manifest, remote: Remote, b: Blueprint, run: Run, n: nat, i: nat, id: string)
    requires AtStage(m, remote, b, run, n, i) && id in run.Remote(n).entities
    requires Unsettled(b, i, SlugsOf(run.Remote(n).entities)[id])
    ensures id in remote.entities
    ensures FoldedIdentity(Entities, remote.entities[id]) == Some(SlugsOf(run.Remote(n).entities)[id])
  {
    hide ValidManifest, FoldDistinct, Compiles, ValidRemote, RunTo, PlainSlugs, PlainReferences, IdsMatch, DoneBy,
      KeyOf, CreatesKey, LastOf, FoldedIdentity, Settles;
    NamesAre(m, remote, b, run, n);
    RowOrigin(run, n, n, Entities, id);
    if id in remote.entities {
      StoredIdentity(m, remote, id);
      RowSurvives(m, remote, b, run, n, Entities, id, FoldedIdentity(Entities, remote.entities[id]).value);
    } else {
      var q :| 0 <= q < n && run.ops[q].path == Collection(Entities) && run.replies(q).Accepted? &&
        run.replies(q).id == id;
      var key := Fold(run.ops[q].identity);
      CollectionIsCreation(m, remote, b, q, Entities);
      CreatedRowKey(m, remote, b, run, n, q, Entities, key);
      var j := CreatorSettles(m, remote, b, q, key);
    }
  }

  lemma StoredIdentity(m: Manifest, remote: Remote, id: string)
    requires ValidRemote(remote) && id in remote.entities
    ensures FoldedIdentity(Entities, remote.entities[id]).Some?
  {
    assert ValidRow(Entities, id, remote.entities[id]);
    ValidRowIdentity(Entities, id, remote.entities[id]);
  }

  lemma UnsettledNotWritten(m: Manifest, remote: Remote, b: Blueprint, n: nat, i: nat, id: string, key: string, q: nat)
    requires ValidManifest(m) && FoldDistinct(m) && ValidRemote(remote) && Compiles(m, remote, b) && InStage(b, n, i)
    requires id in remote.entities && FoldedIdentity(Entities, remote.entities[id]) == Some(key) && Unsettled(b, i, key)
    requires q < n && q < |b.Ops()| && TouchesRow(b.Ops()[q].path, Entities, id)
    ensures !WritesField(b.Ops()[q], "parent_entity_id")
  {
    hide ValidManifest, FoldDistinct, Compiles, ValidRemote, Assemble, DoneBy, KeyOf, LastOf, FoldedIdentity,
      TouchesRow, WritesField;
    if WritesField(b.Ops()[q], "parent_entity_id") {
      var j := WriterIsLastMove(m, remote, b, q, id);
      CurrentRow(m, remote, b, Entities, KeyOf(Entities, b.sequence[j]));
    }
  }

  lemma UnsettledParent(m: Manifest, remote: Remote, b: Blueprint, run: Run, n: nat, i: nat, id: string, p: nat)
    requires AtStage(m, remote, b, run, n, i) && id in run.Remote(n).entities && p <= n
    requires Unsettled(b, i, SlugsOf(run.Remote(n).entities)[id])
    ensures id in remote.entities && run.Ran(p) && id in run.Remote(p).entities
    ensures Get(run.Remote(p).entities[id], "parent_entity_id") == Get(remote.entities[id], "parent_entity_id")
  {
    hide ValidManifest, FoldDistinct, Compiles, ValidRemote, RunTo, PlainSlugs, PlainReferences, IdsMatch, InStage,
      FoldedIdentity, Unsettled, TouchesRow, WritesField;
    var key := SlugsOf(run.Remote(n).entities)[id];
    UnsettledIsStored(m, remote, b, run, n, i, id);
    RanPrefix(run, n, p);
    RowSurvives(m, remote, b, run, p, Entities, id, key);
    forall q | 0 <= q < p && TouchesRow(run.ops[q].path, Entities, id)
      ensures !WritesField(run.ops[q], "parent_entity_id") {
      UnsettledNotWritten(m, remote, b, n, i, id, key, q);
    }
    ParentOriginal(m, remote, b, run, p, id);
  }

  lemma FreshNotMentioned(s: Remote, op: Operation, body: Option<Dict>, newId: string, id: string)
    requires op.path == Collection(Entities) && Serve(s, op.verb, op.path, body, newId).Some? && id in s.entities
    ensures Get(s.entities[id], "parent_entity_id") != Str(newId)
  {
    ServeNeedsFreshId(s, op, body, newId, Entities, Entities);
    assert id in s.entities.Keys && !Mentions(s.entities[id], newId);
    assert "parent_entity_id" in s.entities[id] ==> "parent_entity_id" in s.entities[id].Keys;
  }

  /** An id that such a row mentions as parent but that no stored row bears is never given to a new row. */
  lemma DanglingStays(m: Manifest, remote: Remote, b: Blueprint, run: Run, n: nat, i: nat, id: string, parent: string)
    requires AtStage(m, remote, b, run, n, i) && id in run.Remote(n).entities
    requires Unsettled(b, i, SlugsOf(run.Remote(n).entities)[id])
    requires id in remote.entities && ParentText(remote.entities[id]) == Some(parent) && parent !in remote.entities
    ensures parent !in run.Remote(n).entities
  {
    hide Unused, FoldedIdentity, ValidManifest, FoldDistinct, Compiles, ValidRemote, RunTo, PlainSlugs, IdsMatch,
      InStage, Unsettled, Serve, ResolveBody;
    if parent in run.Remote(n).entities {
      RowOrigin(run, n, n, Entities, parent);
      var q :| 0 <= q < n && run.ops[q].path == Collection(Entities) && run.replies(q).Accepted? &&
        run.replies(q).id == parent;
      RanStep(run, n, q);
      UnsettledParent(m, remote, b, run, n, i, id, q);
      FreshNotMentioned(run.Remote(q), run.ops[q], run.Body(q), parent, id);
    }
  }

  /** The row of any other entity hangs where it hung. */
  lemma UnsettledNode(m: Manifest, remote: Remote, b: Blueprint, run: Run, n: nat, i: nat, id: string)
    requires AtStage(m, remote, b, run, n, i) && id in run.Remote(n).entities
    requires Unsettled(b, i, SlugsOf(run.Remote(n).entities)[id])
    ensures Parent(StageLinks(remote, b.sequence, i), SlugsOf(run.Remote(n).entities)[id]) ==
      NamedNode(LinksAt(run, n), SlugsOf(run.Remote(n).entities), ParentText(run.Remote(n).entities[id]))
  {
    hide ValidManifest, FoldDistinct, Compiles, RunTo, PlainSlugs, PlainReferences, IdsMatch, InStage, Settles, KeyOf,
      StageLinks, SettlesPlace, FoldedIdentity, EntityIndex, ValidTable, KeyLinks;
    var t := run.Remote(n).entities;
    var key := SlugsOf(t)[id];
    UnsettledIsStored(m, remote, b, run, n, i, id);
    UnsettledParent(m, remote, b, run, n, i, id, n);
    NamesAre(m, remote, b, run, n);
    UnsettledStage(m, remote, b, i, key);
    StoredKeyLink(remote, id, key);
    var parent := ParentText(t[id]);
    if parent.Some? {
      if parent.value in remote.entities {
        StoredIdentity(m, remote, parent.value);
        RowSurvives(m, remote, b, run, n, Entities, parent.value,
          FoldedIdentity(Entities, remote.entities[parent.value]).value);
      } else {
        DanglingStays(m, remote, b, run, n, i, id, parent.value);
      }
    }
  }

  lemma UnsettledStage(m: Manifest, remote: Remote, b: Blueprint, i: nat, key: string)
    requires ValidManifest(m) && FoldDistinct(m) && Compiles(m, remote, b) && Unsettled(b, i, key)
    ensures Parent(StageLinks(remote, b.sequence, i), key) == Parent(KeyLinks(remote), key)
  {
    hide ValidManifest, FoldDistinct, Compiles, SettlesPlace, KeyLinks, KeyOf, StageLinks, Settles;
    forall j | 0 <= j < i && SettlesPlace(remote, b.sequence[j]) ensures KeyOf(Entities, b.sequence[j]) != key {
      SettlesIs(m, remote, b, j);
    }
    StageUntouched(remote, b.sequence, i, key);
  }

  lemma StoredKeyLink(remote: Remote, id: string, key: string)
    requires ValidTable(Entities, remote.entities) && id in remote.entities
    requires FoldedIdentity(Entities, remote.entities[id]) == Some(key)
    ensures key in EntityIndex(remote) && EntityIndex(remote)[key] == remote.entities[id]
    ensures Parent(KeyLinks(remote), key) == StoredParentKey(remote, remote.entities[id])
  {
    hide FoldedIdentity, ItemsByIdentity, Listing, ValidTable, StoredParentKey;
    ListingIndexed(Entities, remote.entities);
  }

  lemma NodeMirrored(m: Manifest, remote: Remote, b: Blueprint, run: Run, n: nat, i: nat, id: string)
    requires AtStage(m, remote, b, run, n, i) && id in run.Remote(n).entities
    ensures Parent(StageLinks(remote, b.sequence, i), SlugsOf(run.Remote(n).entities)[id]) ==
      NamedNode(LinksAt(run, n), SlugsOf(run.Remote(n).entities), LinksAt(run, n)[id])
  {
    hide ValidManifest, FoldDistinct, Compiles, ValidRemote, RunTo, PlainSlugs, PlainReferences, IdsMatch, InStage,
      Settles, KeyOf, StageLinks, FoldedIdentity, SlugsOf, NamedNode;
    var key := SlugsOf(run.Remote(n).entities)[id];
    if Unsettled(b, i, key) {
      UnsettledNode(m, remote, b, run, n, i, id);
    } else {
      StageWithin(b, n, i);
      var j: nat :| j < i && Settles(b, j) && KeyOf(Entities, b.sequence[j]) == key;
      var id' := SettledNode(m, remote, b, run, n, i, j);
      NamesAre(m, remote, b, run, n);
    }
  }

  lemma StageWithin(b: Blueprint, n: nat, i: nat)
    requires InStage(b, n, i)
    ensures i <= |b.sequence|
  {
  }

  lemma LinkedIsStored(remote: Remote, k: string) returns (id: string)
    requires ValidTable(Entities, remote.entities) && Parent(KeyLinks(remote), k).Some?
    ensures id in remote.entities && FoldedIdentity(Entities, remote.entities[id]) == Some(k)
  {
    hide FoldedIdentity, ItemsByIdentity, Listing, ValidTable, StoredParentKey;
    ListingIndexed(Entities, remote.entities);
    id := RowId(EntityIndex(remote)[k]);
  }

  lemma NodeListed(m: Manifest, remote: Remote, b: Blueprint, run: Run, n: nat, i: nat, k: string) returns (id: string)
    requires AtStage(m, remote, b, run, n, i) && Parent(StageLinks(remote, b.sequence, i), k).Some?
    ensures id in run.Remote(n).entities && SlugsOf(run.Remote(n).entities)[id] == k
  {
    hide ValidManifest, FoldDistinct, Compiles, RunTo, PlainSlugs, PlainReferences, IdsMatch, InStage, Settles, KeyOf,
      StageLinks, FoldedIdentity, NamedNode, KeyLinks, ValidTable, Parent;
    StageWithin(b, n, i);
    if Unsettled(b, i, k) {
      UnsettledStage(m, remote, b, i, k);
      id := LinkedIsStored(remote, k);
      RowSurvives(m, remote, b, run, n, Entities, id, k);
    } else {
      var j: nat :| j < i && Settles(b, j) && KeyOf(Entities, b.sequence[j]) == k;
      id := SettledNode(m, remote, b, run, n, i, j);
    }
  }

  /** The links of the store are those of the stage under other names. */
  lemma StageMirrored(m: Manifest, remote: Remote, b: Blueprint, run: Run, n: nat, i: nat)
    requires AtStage(m, remote, b, run, n, i)
    ensures Mirrors(LinksAt(run, n), StageLinks(remote, b.sequence, i), SlugsOf(run.Remote(n).entities))
  {
    hide RunTo, StageLinks, FoldedIdentity, NamedNode, RunsUnder, InStage, SlugsOf, StoreLinks, Parent, Applies,
      PlainSlugs;
    StageWithin(b, n, i);
    var t, g := run.Remote(n).entities, StageLinks(remote, b.sequence, i);
    RunIsApplied(m, remote, b, run);
    NamesAre(m, remote, b, run, n);
    LinksListed(run, n);
    forall id | id in LinksAt(run, n)
      ensures Parent(g, SlugsOf(t)[id]) == NamedNode(LinksAt(run, n), SlugsOf(t), LinksAt(run, n)[id])
    {
      NodeMirrored(m, remote, b, run, n, i, id);
    }
    forall k | Parent(g, k).Some? ensures exists id :: id in SlugsOf(t) && SlugsOf(t)[id] == k {
      var id := NodeListed(m, remote, b, run, n, i, k);
    }
  }

  lemma LinksListed(run: Run, n: nat)
    requires n <= |run.ops|
    ensures LinksAt(run, n).Keys == run.Remote(n).entities.Keys
  {
    hide RunTo;
  }

  lemma RunIsApplied(m: Manifest, remote: Remote, b: Blueprint, run: Run)
    requires RunsUnder(m, remote, b, run)
    ensures Applies(m, remote, b, run) && PlainSlugs(m) && |run.ops| == |b.Ops()|
  {
  }

  lemma StageCyclicIff(m: Manifest, remote: Remote, b: Blueprint, run: Run, n: nat, i: nat)
    requires AtStage(m, remote, b, run, n, i)
    ensures Cyclic(LinksAt(run, n)) <==> Cyclic(StageLinks(remote, b.sequence, i))
  {
    hide RunTo, StageLinks, RunsUnder, InStage, Mirrors, Cyclic, LinksAt;
    StageWithin(b, n, i);
    StageMirrored(m, remote, b, run, n, i);
    MirrorsCyclicIff(LinksAt(run, n), StageLinks(remote, b.sequence, i), SlugsOf(run.Remote(n).entities));
  }

  // ---- the deletions --------------------------------------------------------------------------

  lemma DeletionKeeps(m: Manifest, remote: Remote, b: Blueprint, run: Run, n: nat)
    requires Applies(m, remote, b, run) && b.ChangeCount() < n && run.Ran(n)
    ensures forall id | id in run.Remote(n).entities ::
      id in run.Remote(n - 1).entities && run.Remote(n - 1).entities[id] == run.Remote(n).entities[id]
  {
    hide ValidManifest, FoldDistinct, Compiles, ValidRemote, RunTo, Serve, ResolveBody;
    RanStep(run, n, n - 1);
    DeletesCarryNoBody(m, remote, b, n - 1);
    ServedTable(run.Remote(n - 1), run.ops[n - 1].verb, run.ops[n - 1].path, run.Body(n - 1), run.replies(n - 1).id,
      Entities);
  }

  lemma FewerRowsAcyclic(before: map<string, Dict>, after: map<string, Dict>)
    requires forall id | id in after :: id in before && before[id] == after[id]
    requires !Cyclic(StoreLinks(before))
    ensures !Cyclic(StoreLinks(after))
  {
    hide Cyclic, ParentText;
    CutKeepsAcyclic(StoreLinks(before), StoreLinks(after));
  }

  lemma {:induction false} DeletionsCut(m: Manifest, remote: Remote, b: Blueprint, run: Run, n: nat)
    requires RunsUnder(m, remote, b, run) && b.ChangeCount() <= n && run.Ran(n)
    requires !Cyclic(LinksAt(run, b.ChangeCount()))
    ensures !Cyclic(LinksAt(run, n))
    decreases n
  {
    hide RunsUnder, RunTo, Cyclic, StoreLinks, Applies, PlainSlugs;
    if b.ChangeCount() < n {
      RanPrefix(run, n, n - 1);
      RunIsApplied(m, remote, b, run);
      DeletionsCut(m, remote, b, run, n - 1);
      DeletionKeeps(m, remote, b, run, n);
      FewerRowsAcyclic(run.Remote(n - 1).entities, run.Remote(n).entities);
    }
  }

  // ---- the theorem ----------------------------------------------------------------------------

  /** No item closes a circle. */
  ghost predicate NoCircleClosed(remote: Remote, sequence: seq<Dict>) {
    forall i | 0 <= i < |sequence| :: !ClosesCircle(remote, sequence, i)
  }

  lemma StartStage(m: Manifest, remote: Remote, b: Blueprint, run: Run)
    requires RunsUnder(m, remote, b, run)
    ensures Cyclic(StoreLinks(remote.entities)) <==> Cyclic(KeyLinks(remote))
  {
    hide Cyclic, StoreLinks, KeyLinks, Applies, PlainSlugs, PlainReferences, IdsMatch;
    StartOfRun(run);
    BlueprintStart(m, remote, b, run);
    StageCyclicIff(m, remote, b, run, 0, 0);
    assert StageLinks(remote, b.sequence, 0) == KeyLinks(remote);
  }

  lemma BlueprintStart(m: Manifest, remote: Remote, b: Blueprint, run: Run)
    requires Applies(m, remote, b, run)
    ensures run.Ran(0) && run.Remote(0) == remote && InStage(b, 0, 0)
  {
    hide ValidManifest, FoldDistinct, Compiles, ValidRemote;
    StartOfRun(run);
  }

  /** At every accepted point the links are a forest, if no item closes a circle. */
  lemma AcceptedIsForest(m: Manifest, remote: Remote, b: Blueprint, run: Run, n: nat)
    requires RunsUnder(m, remote, b, run) && run.Ran(n)
    requires !Cyclic(StoreLinks(remote.entities)) && NoCircleClosed(remote, b.sequence)
    ensures !Cyclic(LinksAt(run, n))
  {
    hide RunsUnder, RunTo, Cyclic, StoreLinks, KeyLinks, ClosesCircle, LinksAt, InStage, StageLinks;
    RunIsApplied(m, remote, b, run);
    RunCompiles(m, remote, b, run);
    StartStage(m, remote, b, run);
    StagesAcyclicIff(remote, b.sequence, |b.sequence|);
    var changes := if n <= b.ChangeCount() then n else b.ChangeCount();
    RanPrefix(run, n, changes);
    var i := StageFrom(m, remote, b, changes, 0);
    StageWithin(b, changes, i);
    assert ForestAt(remote, b.sequence, i);
    StageCyclicIff(m, remote, b, run, changes, i);
    if changes < n {
      DeletionsCut(m, remote, b, run, n);
    }
  }

  lemma RunCompiles(m: Manifest, remote: Remote, b: Blueprint, run: Run)
    requires RunsUnder(m, remote, b, run)
    ensures Compiles(m, remote, b) && b.ChangeCount() <= |run.ops|
  {
    hide ValidManifest, FoldDistinct, ValidRemote, PlainSlugs, PlainReferences, IdsMatch, Compiles;
    ChangesWithin(b);
  }

  lemma ChangesWithin(b: Blueprint)
    ensures b.ChangeCount() <= |b.Ops()|
  {
  }

  /** The plan for `m` is run on the store it was made from, as far as it gets. */
  ghost predicate RunsPlan(m: Manifest, remote: Remote, run: Run) {
    && ValidManifest(m) && FoldDistinct(m) && PlainSlugs(m) && ValidRemote(remote) && PlainReferences(remote)
    && Plan(m, remote) == Success(run.ops) && run.start.remote == remote && run.start.failure == None
    && run.start.completed == [] && IdsMatch(remote, run.start.ids)
  }

  lemma PlanUnder(m: Manifest, remote: Remote, run: Run) returns (b: Blueprint)
    requires RunsPlan(m, remote, run)
    ensures RunsUnder(m, remote, b, run) && EntitySequence(m.entities) == Success(b.sequence)
  {
    hide Plan, ValidManifest, FoldDistinct, PlainSlugs, ValidRemote, PlainReferences, IdsMatch, Assemble;
    b := PlanCompiles(m, remote);
  }

  /** Wherever a run stands or has stopped, the stored entities form a forest if they did before and no item closes a
      circle. */
  lemma EveryPrefixIsForest(m: Manifest, remote: Remote, run: Run, sequence: seq<Dict>)
    requires RunsPlan(m, remote, run) && EntitySequence(m.entities) == Success(sequence)
    requires !Cyclic(StoreLinks(remote.entities)) && NoCircleClosed(remote, sequence)
    ensures forall n: nat | n <= |run.ops| :: !Cyclic(StoreLinks(run.Remote(n).entities))
  {
    hide RunsUnder, RunTo, Cyclic, StoreLinks, NoCircleClosed, EntitySequence, Plan;
    var b := PlanUnder(m, remote, run);
    forall n: nat | n <= |run.ops| ensures !Cyclic(StoreLinks(run.Remote(n).entities)) {
      var k := PrefixExecution(run, n);
      AcceptedIsForest(m, remote, b, run, k);
    }
  }

  lemma StagesOfRun(m: Manifest, remote: Remote, b: Blueprint, run: Run, i: nat)
    requires RunsUnder(m, remote, b, run) && NeverFails(run) && i <= |b.sequence|
    requires forall n: nat | n <= |run.ops| :: !Cyclic(LinksAt(run, n))
    ensures ForestAt(remote, b.sequence, i)
  {
    hide RunsUnder, RunTo, Cyclic, LinksAt, InStage, StageLinks;
    RunIsApplied(m, remote, b, run);
    RunCompiles(m, remote, b, run);
    var n := StageStart(m, remote, b, i);
    assert run.Ran(n);
    StageCyclicIff(m, remote, b, run, n, i);
  }

  /** Exactly when a complete run keeps the stored entities a forest throughout: started from a forest, all its
      states are forests if and only if no item of the manifest names a parent from which the links of its stage
      lead back to it. */
  lemma ForestThroughoutIff(m: Manifest, remote: Remote, run: Run, sequence: seq<Dict>)
    requires RunsPlan(m, remote, run) && EntitySequence(m.entities) == Success(sequence) && NeverFails(run)
    requires !Cyclic(StoreLinks(remote.entities))
    ensures (forall n: nat | n <= |run.ops| :: !Cyclic(StoreLinks(run.Remote(n).entities))) <==>
      NoCircleClosed(remote, sequence)
  {
    hide RunsUnder, RunTo, Cyclic, StoreLinks, ClosesCircle, EntitySequence, Plan, ForestAt, KeyLinks, NeverFails;
    var b := PlanUnder(m, remote, run);
    if NoCircleClosed(remote, sequence) {
      EveryPrefixIsForest(m, remote, run, sequence);
    }
    if forall n: nat | n <= |run.ops| :: !Cyclic(StoreLinks(run.Remote(n).entities)) {
      forall i | 0 <= i <= |sequence| ensures ForestAt(remote, sequence, i) {
        StagesOfRun(m, remote, b, run, i);
      }
      StartStage(m, remote, b, run);
      StagesAcyclicIff(remote, sequence, |sequence|);
    }
  }

  // ---- conditions that are easier to check ----------------------------------------------------

  /** No parent that an item names stands, in the store, on or below an entity that the manifest moves. */
  ghost predicate ChainsKept(remote: Remote, sequence: seq<Dict>) {
    forall i, j | 0 <= i < |sequence| && 0 <= j < |sequence| && SettlesPlace(remote, sequence[i]) &&
      SettlesPlace(remote, sequence[j])
      && NamedParent(sequence[i]).Some? ::
        !Reaches(KeyLinks(remote), NamedParent(sequence[i]).value, KeyOf(Entities, sequence[j]))
  }

  lemma {:induction false} KeptClimb(remote: Remote, sequence: seq<Dict>, i: nat, from: string, t: nat)
    requires i <= |sequence|
    requires forall j | 0 <= j < |sequence| && SettlesPlace(remote, sequence[j]) ::
      !Reaches(KeyLinks(remote), from, KeyOf(Entities, sequence[j]))
    ensures Climb(StageLinks(remote, sequence, i), from, t) == Climb(KeyLinks(remote), from, t)
  {
    hide SettlesPlace, KeyLinks, StageLinks;
    if t > 0 {
      KeptClimb(remote, sequence, i, from, t - 1);
      if Climb(KeyLinks(remote), from, t - 1).Some? {
        StageUntouched(remote, sequence, i, Climb(KeyLinks(remote), from, t - 1).value);
      }
    }
  }

  /** Such a manifest closes no circle; putting new entities below stored ones is a case of it. */
  lemma KeptChainsCloseNothing(remote: Remote, sequence: seq<Dict>)
    requires ChainsKept(remote, sequence)
    ensures NoCircleClosed(remote, sequence)
  {
    hide SettlesPlace, KeyLinks, StageLinks;
    forall i | 0 <= i < |sequence| ensures !ClosesCircle(remote, sequence, i) {
      if ClosesCircle(remote, sequence, i) {
        var from, k := NamedParent(sequence[i]).value, KeyOf(Entities, sequence[i]);
        var t: nat :| Climb(StageLinks(remote, sequence, i), from, t) == Some(k);
        KeptClimb(remote, sequence, i, from, t);
      }
    }
  }

  /** Every parent that a present item names is itself declared present, and either with a parent of its own or not
      stored yet. */
  ghost predicate ParentsSettled(m: Manifest, remote: Remote) {
    forall item | item in m.entities && Present(item) && NamedParent(item).Some? ::
      exists other ::
        other in m.entities && SettlesPlace(remote, other) && Some(KeyOf(Entities, other)) == NamedParent(item)
  }

  /** A manifest that declares every stored entity present with a parent. */
  ghost predicate DeclaresAll(m: Manifest, remote: Remote) {
    forall id | id in remote.entities ::
      exists item :: item in m.entities && Present(item) && "parent" in item
                     && FoldedIdentity(Entities, remote.entities[id]) == Some(KeyOf(Entities, item))
  }

  lemma SettledBefore(m: Manifest, remote: Remote, b: Blueprint, i: nat) returns (j: nat)
    requires ValidManifest(m) && FoldDistinct(m) && Compiles(m, remote, b) && ParentsSettled(m, remote)
    requires i < |b.sequence| && Present(b.sequence[i]) && NamedParent(b.sequence[i]).Some?
    ensures j < i && SettlesPlace(remote, b.sequence[j])
    ensures Some(KeyOf(Entities, b.sequence[j])) == NamedParent(b.sequence[i])
  {
    hide ValidManifest, FoldDistinct, Compiles, SettlesPlace, KeyOf;
    var item := b.sequence[i];
    assert item in b.Items(m, Entities);
    SequenceMembers(m, remote, b, Entities, item);
    var other :|
      other in m.entities && SettlesPlace(remote, other) && Some(KeyOf(Entities, other)) == NamedParent(item);
    PresentIsDeclared(m, remote, b, other);
    j := DeclaredBefore(m, remote, b, i, KeyOf(Entities, other));
    SequenceMembers(m, remote, b, Entities, other);
    var k :| 0 <= k < |b.Items(m, Entities)| && b.Items(m, Entities)[k] == other;
    KeysArePlaces(m, remote, b, Entities, j, k);
  }

  lemma PresentIsDeclared(m: Manifest, remote: Remote, b: Blueprint, other: Dict)
    requires Compiles(m, remote, b) && other in m.entities && SettlesPlace(remote, other)
    ensures KeyOf(Entities, other) in Declared(b.c, Entities)
  {
    hide FetchMemberships, PlanItems, ItemsByIdentity, UsersByEmail, EntityIndex;
  }

  lemma {:induction false} SettledClimb(m: Manifest, remote: Remote, b: Blueprint, i: nat, t: nat) returns (j: nat)
    requires ValidManifest(m) && FoldDistinct(m) && Compiles(m, remote, b) && ParentsSettled(m, remote)
    requires i < |b.sequence| && Present(b.sequence[i]) && NamedParent(b.sequence[i]).Some?
    requires Climb(StageLinks(remote, b.sequence, i), NamedParent(b.sequence[i]).value, t).Some?
    ensures j < i && SettlesPlace(remote, b.sequence[j])
    ensures Climb(StageLinks(remote, b.sequence, i), NamedParent(b.sequence[i]).value, t) ==
      Some(KeyOf(Entities, b.sequence[j]))
  {
    hide ValidManifest, FoldDistinct, Compiles, KeyOf, NamedParent, StageLinks, ParentsSettled, EntityIndex;
    if t == 0 {
      j := SettledBefore(m, remote, b, i);
    } else {
      var j' := SettledClimb(m, remote, b, i, t - 1);
      forall l | j' < l < i ensures KeyOf(Entities, b.sequence[l]) != KeyOf(Entities, b.sequence[j']) {
        if KeyOf(Entities, b.sequence[l]) == KeyOf(Entities, b.sequence[j']) {
          KeysArePlaces(m, remote, b, Entities, l, j');
        }
      }
      StageSettled(remote, b.sequence, i, j');
      j := SettledBefore(m, remote, b, j');
    }
  }

  /** A manifest that settles every parent it names closes no circle. */
  lemma SettledParentsCloseNothing(m: Manifest, remote: Remote, sequence: seq<Dict>)
    requires ValidManifest(m) && FoldDistinct(m) && Plan(m, remote).Success?
    requires EntitySequence(m.entities) == Success(sequence)
    requires ParentsSettled(m, remote)
    ensures NoCircleClosed(remote, sequence)
  {
    hide ValidManifest, FoldDistinct, Plan, KeyOf, NamedParent, StageLinks, ParentsSettled, EntityIndex, Assemble;
    var b := PlanCompiles(m, remote);
    forall i | 0 <= i < |sequence| ensures !ClosesCircle(remote, sequence, i) {
      if ClosesCircle(remote, sequence, i) {
        var t: nat :|
          Climb(StageLinks(remote, sequence, i), NamedParent(sequence[i]).value, t) ==
            Some(KeyOf(Entities, sequence[i]));
        var j := SettledClimb(m, remote, b, i, t);
        KeysArePlaces(m, remote, b, Entities, i, j);
      }
    }
  }

  /** A manifest that declares every stored entity with a parent settles every parent it names, swaps of ancestor and
      descendant included. */
  lemma DeclaringAllSettles(m: Manifest, remote: Remote)
    requires ValidManifest(m) && FoldDistinct(m) && ValidRemote(remote) && Plan(m, remote).Success?
    requires DeclaresAll(m, remote)
    ensures ParentsSettled(m, remote)
  {
    hide Plan, ValidManifest, FoldDistinct, ValidRemote, Compiles, SettlesPlace, KeyOf, DeclaresAll, LookupOrRef,
      Assemble;
    var b := PlanCompiles(m, remote);
    forall item | item in m.entities && Present(item) && NamedParent(item).Some?
      ensures exists other ::
        other in m.entities && SettlesPlace(remote, other) && Some(KeyOf(Entities, other)) == NamedParent(item)
    {
      SequenceMembers(m, remote, b, Entities, item);
      var i :| 0 <= i < |b.Items(m, Entities)| && b.Items(m, Entities)[i] == item;
      SequenceIsRead(m, remote, b, i);
      IndexIs(m, remote, b);
      ItemPlanned(m, remote, b, Entities, i);
      ParentPlanned(b.c, item);
      var other := LookedUpSettles(m, remote, b, Get(item, "parent").s);
    }
  }

  lemma LookedUpSettles(m: Manifest, remote: Remote, b: Blueprint, parent: string) returns (other: Dict)
    requires ValidRemote(remote) && Compiles(m, remote, b) && DeclaresAll(m, remote)
    requires b.c.entities == EntityIndex(remote)
    requires LookupOrRef(Entities, parent, b.c.entities, b.c.presentEntities).Success?
    ensures other in m.entities && SettlesPlace(remote, other) && KeyOf(Entities, other) == Fold(parent)
  {
    hide ValidRemote, Compiles, FoldedIdentity, EntityIndex, KeyOf;
    var key := Fold(parent);
    if key in b.c.Current(Entities) {
      CurrentRow(m, remote, b, Entities, key);
      other :| other in m.entities && Present(other) && "parent" in other && Some(key) == Some(KeyOf(Entities, other));
    } else {
      other := DeclaredOther(m, remote, b, key);
    }
  }

  lemma DeclaredOther(m: Manifest, remote: Remote, b: Blueprint, key: string) returns (other: Dict)
    requires Compiles(m, remote, b) && key in b.c.presentEntities
    ensures other in m.entities && Present(other) && KeyOf(Entities, other) == key
  {
    hide FetchMemberships, PlanItems, ItemsByIdentity, UsersByEmail;
    other :| other in m.entities && Present(other) && Fold(NameOf(Entities, other)) == key;
  }
}
