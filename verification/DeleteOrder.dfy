/** Entities are deleted bottom-up. */
module DeleteOrder {
  import opened Outcomes
  import opened Sorting
  import opened Text
  import opened JsonValues
  import opened Indexing
  import opened Manifests
  import opened RemoteStore
  import opened ParentForest
  import opened DeleteDepth
  import opened Planner
  import opened PlanShape

  /** The parent links the remote store holds. */
  function StoreLinks(t: map<string, Dict>): Parents {
    map id | id in t :: ParentText(t[id])
  }

  lemma ListingIdsDistinct(t: map<string, Dict>)
    requires forall id | id in t :: Get(t[id], "id") == Str(id)
    ensures Distinct(IdText, Listing(t))
  {
    var rows, ids := Listing(t), SortedKeys(t.Keys);
    forall i, j | 0 <= i < j < |rows| ensures IdText(rows[i]) != IdText(rows[j]) {
      assert ids[i] in ids && ids[j] in ids;
    }
  }

  lemma IdTextOf(t: map<string, Dict>, id: string)
    requires id in t && Get(t[id], "id") == Str(id)
    ensures IdText(t[id]) == Some(id)
  {
  }

  lemma ListedById(t: map<string, Dict>)
    requires forall id | id in t :: Get(t[id], "id") == Str(id)
    ensures IndexBy(IdText, Listing(t)) == t
  {
    hide Listing, IdText;
    var index := IndexBy(IdText, Listing(t));
    ListingIdsDistinct(t);
    ListingMembers(t);
    IndexFinds(IdText, Listing(t));
    IndexSound(IdText, Listing(t));
    forall id | id in t ensures id in index && index[id] == t[id] {
      IdTextOf(t, id);
    }
    forall id | id in index ensures id in t {
      var other :| other in t && t[other] == index[id];
      IdTextOf(t, other);
    }
  }

  lemma SnapshotLinks(t: map<string, Dict>)
    requires forall id | id in t :: Get(t[id], "id") == Str(id)
    ensures LinksOf(Listing(t)) == StoreLinks(t)
  {
    ListedById(t);
  }

  lemma DeletesAreDeletes(r: Resource, c: Context, items: seq<Dict>, op: Operation)
    requires PlanItems(r, c, items).Success? && op in PlanItems(r, c, items).value.deletes
    ensures op.resource == r
  {
    hide PlanItem, PlanItems;
    var i := OwnerOfDelete(r, c, items, op);
    ItemOperations(r, c, items[i]);
  }

  lemma ChangesAreNoDeletes(m: Manifest, remote: Remote, b: Blueprint, q: nat)
    requires Compiles(m, remote, b) && q < b.ChangeCount()
    ensures q < |b.Ops()| && b.Ops()[q].action != DeleteAction
  {
    hide FetchSnapshot, MakeContext, EntitySequence, PlanItem, PlanItems, Assemble;
    var r := ChangePosition(b, q);
    var i := OwnerOfPosition(r, b.c, b.Items(m, r), q - b.Base(r));
    ItemOperations(r, b.c, b.Items(m, r)[i]);
  }

  /** Where entity deletions stand in the plan. */
  lemma EntityDeletePosition(m: Manifest, remote: Remote, b: Blueprint, q: nat) returns (p: nat)
    requires Compiles(m, remote, b) && q < |b.Ops()|
    requires b.Ops()[q].action == DeleteAction && b.Ops()[q].resource == Entities
    ensures var sorted := SortDeletes(b.links, b.entities.deletes);
      && p < |sorted| && b.Ops()[q] == sorted[p]
      && q == b.ChangeCount() + |b.memberships.deletes| + |b.roles.deletes| + p
  {
    hide FetchSnapshot, MakeContext, EntitySequence, PlanItem, PlanItems, SortDeletes;
    if q < b.ChangeCount() {
      ChangesAreNoDeletes(m, remote, b, q);
    }
    var sorted := SortDeletes(b.links, b.entities.deletes);
    var rest := b.memberships.deletes + b.roles.deletes + sorted + b.permissions.deletes;
    var i := q - b.ChangeCount();
    RestPosition(b, i);
    var op := b.Ops()[q];
    if i < |b.memberships.deletes| {
      assert op in b.Group(Memberships).deletes;
      DeletesAreDeletes(Memberships, b.c, b.Items(m, Memberships), op);
    } else if i < |b.memberships.deletes| + |b.roles.deletes| {
      assert op in b.Group(Roles).deletes;
      DeletesAreDeletes(Roles, b.c, b.Items(m, Roles), op);
    } else if i >= |b.memberships.deletes| + |b.roles.deletes| + |sorted| {
      assert op in b.Group(Permissions).deletes;
      DeletesAreDeletes(Permissions, b.c, b.Items(m, Permissions), op);
    }
    p := i - |b.memberships.deletes| - |b.roles.deletes|;
  }

  lemma SortedByDepth(p: Parents, deletes: seq<Operation>, i: nat, j: nat)
    requires i < j < |SortDeletes(p, deletes)|
    ensures DepthOf(p, SortDeletes(p, deletes)[i].before) >= DepthOf(p, SortDeletes(p, deletes)[j].before)
  {
    var le := (a: Operation, b: Operation) => DepthOf(p, a.before) >= DepthOf(p, b.before);
    SortSorts(le, deletes);
    assert SortDeletes(p, deletes) == Sort(le, deletes);
    assert le(Sort(le, deletes)[i], Sort(le, deletes)[j]);
  }

  lemma DescendantBeforeAncestor(m: Manifest, remote: Remote, ops: seq<Operation>, i: nat, j: nat, id: string, k: nat,
                                 ancestor: string)
    requires Plan(m, remote) == Success(ops) && i < |ops| && j < |ops|
    requires ValidTable(Entities, remote.entities) && !Cyclic(StoreLinks(remote.entities))
    requires forall q | q in {i, j} :: ops[q].action == DeleteAction && ops[q].resource == Entities
    requires id in remote.entities && ops[i].before == Some(remote.entities[id])
    requires ancestor in remote.entities && ops[j].before == Some(remote.entities[ancestor])
    requires k > 0 && Climb(StoreLinks(remote.entities), id, k) == Some(ancestor)
    ensures i < j
  {
    hide FetchSnapshot, MakeContext, EntitySequence, PlanItem, PlanItems, Assemble, Plan, StoreLinks, Cyclic,
      DepthFrom, Climb;
    hide Plan, Compiles, Assemble, StoreLinks, Cyclic, Climb, DepthOf, SortDeletes, FoldedIdentity, ValidRow;
    var b := PlanCompiles(m, remote);
    var pi := EntityDeletePosition(m, remote, b, i);
    var pj := EntityDeletePosition(m, remote, b, j);
    SortedEntityWasRead(m, remote, b, pi);
    DeeperRow(remote.entities, id, k, ancestor);
    var sorted := SortDeletes(b.links, b.entities.deletes);
    assert sorted[pi].before == Some(remote.entities[id]) && sorted[pj].before == Some(remote.entities[ancestor]);
    DeeperIsEarlier(b.links, b.entities.deletes, pi, pj);
  }

  lemma DeeperIsEarlier(p: Parents, deletes: seq<Operation>, i: nat, j: nat)
    requires i < |SortDeletes(p, deletes)| && j < |SortDeletes(p, deletes)|
    requires DepthOf(p, SortDeletes(p, deletes)[i].before) > DepthOf(p, SortDeletes(p, deletes)[j].before)
    ensures i < j
  {
    hide SortDeletes, DepthOf;
    if j < i {
      SortedByDepth(p, deletes, j, i);
    }
  }

  /** Operation `i` deletes the entity stored under `id`. */
  ghost predicate DeletesEntity(remote: Remote, op: Operation, id: string) {
    op.action == DeleteAction && op.resource == Entities && id in remote.entities &&
      op.before == Some(remote.entities[id])
  }

  /** Whenever a plan deletes an entity and one of its ancestors, the entity goes first. */
  ghost predicate BottomUp(remote: Remote, ops: seq<Operation>) {
    forall i, j, id, ancestor, k: nat |
      0 <= i < |ops| && 0 <= j < |ops| && DeletesEntity(remote, ops[i], id) && DeletesEntity(remote, ops[j], ancestor)
      && k > 0 && Climb(StoreLinks(remote.entities), id, k) == Some(ancestor) ::
      i < j
  }

  /** In a plan made from data whose parent links do not circle, every entity is deleted before all its ancestors. */
  lemma DescendantsDeletedFirst(m: Manifest, remote: Remote, ops: seq<Operation>)
    requires Plan(m, remote) == Success(ops)
    requires ValidTable(Entities, remote.entities) && !Cyclic(StoreLinks(remote.entities))
    ensures BottomUp(remote, ops)
  {
    hide Plan, Cyclic, StoreLinks, Climb, ValidTable;
    forall i, j, id, ancestor, k: nat |
      0 <= i < |ops| && 0 <= j < |ops| && DeletesEntity(remote, ops[i], id) && DeletesEntity(remote, ops[j], ancestor)
      && k > 0 && Climb(StoreLinks(remote.entities), id, k) == Some(ancestor)
      ensures i < j
    {
      DescendantBeforeAncestor(m, remote, ops, i, j, id, k, ancestor);
    }
  }

  /** A descendant's row counts more links than its ancestor's. */
  lemma DeeperRow(t: map<string, Dict>, id: string, k: nat, ancestor: string)
    requires ValidTable(Entities, t) && !Cyclic(StoreLinks(t)) && id in t && ancestor in t
    requires k > 0 && Climb(StoreLinks(t), id, k) == Some(ancestor)
    ensures DepthOf(LinksOf(Listing(t)), Some(t[id])) > DepthOf(LinksOf(Listing(t)), Some(t[ancestor]))
  {
    hide LinksOf, Listing, Cyclic, Climb, DepthFrom, FoldedIdentity;
    SnapshotLinks(t);
    DescendantIsDeeper(StoreLinks(t), id, k, ancestor);
  }

  lemma SortedEntityWasRead(m: Manifest, remote: Remote, b: Blueprint, p: nat)
    requires Compiles(m, remote, b) && p < |SortDeletes(b.links, b.entities.deletes)|
    ensures b.links == LinksOf(Listing(remote.entities))
  {
    hide Compiles;
    var sorted := SortDeletes(b.links, b.entities.deletes);
    SameElements(sorted, b.entities.deletes);
    assert sorted[p] in sorted;
    EntitiesWereRead(m, remote, b, sorted[p]);
  }

  /** A planned entity deletion shows that the entity list was read. */
  lemma EntitiesWereRead(m: Manifest, remote: Remote, b: Blueprint, op: Operation)
    requires Compiles(m, remote, b) && op in b.entities.deletes
    ensures b.links == LinksOf(Listing(remote.entities))
  {
    assert b.Items(m, Entities) == b.sequence && b.Group(Entities) == b.entities;
    var i := OwnerOfDelete(Entities, b.c, b.sequence, op);
    ItemOperations(Entities, b.c, b.sequence[i]);
    var rows := FetchSnapshot(remote, m).value.entities;
    IndexSound(Keyed(Entities), rows);
    assert b.c.entities[KeyOf(Entities, b.sequence[i])] in rows;
  }
}
