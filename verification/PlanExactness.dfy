/** A plan is exactly what manifest and store call for: every operation in all its parts, none missing, none twice. */
module PlanExactness {
  import opened Outcomes
  import opened ParentForest
  import opened Text
  import opened JsonValues
  import opened Manifests
  import opened RemoteStore
  import opened EntityOrder
  import opened Planner
  import opened PlanShape
  import opened SnapshotFacts
  import opened RunOfPlan
  import opened Convergence
  import opened FinalMemberships
  import opened DriftExactness
  import opened DeclaredState
  import opened PlannedRequests

  // ---- nothing twice --------------------------------------------------------------------------

  predicate SameTask(a: Operation, b: Operation) {
    a.resource == b.resource && a.action == b.action && Fold(a.identity) == Fold(b.identity)
  }

  ghost predicate NothingTwice(ops: seq<Operation>) {
    forall i, j | 0 <= i < j < |ops| :: !SameTask(ops[i], ops[j])
  }

  lemma JoinedOnce(a: seq<Operation>, b: seq<Operation>)
    requires NothingTwice(a) && NothingTwice(b) && forall x <- a, y <- b :: !SameTask(x, y)
    ensures NothingTwice(a + b)
  {
    hide SameTask;
    var ops := a + b;
    forall i, j | 0 <= i < j < |ops| ensures !SameTask(ops[i], ops[j]) {
      if i < |a| <= j {
        assert a[i] in a && b[j - |a|] in b;
      }
    }
  }

  lemma PhaseTellsApart(a: Operation, b: Operation)
    requires SameTask(a, b)
    ensures Phase(a) == Phase(b)
  {
  }

  /** Operations of a new phase repeat nothing. */
  lemma JoinedPhase(ops: seq<Operation>, more: seq<Operation>, phase: nat)
    requires NothingTwice(ops) && NothingTwice(more) && (forall op <- ops :: Phase(op) < phase) && AllIn(more, phase)
    ensures NothingTwice(ops + more) && forall op <- ops + more :: Phase(op) < phase + 1
  {
    hide SameTask, Phase, NothingTwice;
    forall x, y | x in ops && y in more ensures !SameTask(x, y) {
      if SameTask(x, y) {
        PhaseTellsApart(x, y);
      }
    }
    JoinedOnce(ops, more);
  }

  lemma CountedTwice<T>(s: seq<T>, i: nat, j: nat)
    requires i < j < |s| && s[i] == s[j]
    ensures multiset(s)[s[i]] >= 2
  {
    assert s == s[..j] + s[j..];
    assert s[i] == s[..j][i] && s[i] in s[..j];
    assert s[j] == s[j..][0] && s[j] in s[j..];
  }

  lemma RearrangedOnce(ops: seq<Operation>, other: seq<Operation>)
    requires NothingTwice(ops) && multiset(ops) == multiset(other)
    ensures NothingTwice(other)
  {
    hide SameTask;
    forall i, j | 0 <= i < j < |other| ensures !SameTask(other[i], other[j]) {
      assert other[i] in multiset(ops) && other[j] in multiset(ops);
      var k :| 0 <= k < |ops| && ops[k] == other[i];
      var l :| 0 <= l < |ops| && ops[l] == other[j];
      if k == l {
        CountedTwice(other, i, j);
        DistinctOps(ops);
        MultisetOfDistinct(ops);
      } else {
        SameTaskSymmetric(ops[k], ops[l]);
      }
    }
  }

  lemma SameTaskSymmetric(a: Operation, b: Operation)
    ensures SameTask(a, b) <==> SameTask(b, a)
    ensures SameTask(a, a)
  {
  }

  lemma DistinctOps(ops: seq<Operation>)
    requires NothingTwice(ops)
    ensures forall i, j | 0 <= i < j < |ops| :: ops[i] != ops[j]
  {
    hide SameTask;
    forall i, j | 0 <= i < j < |ops| ensures ops[i] != ops[j] {
      SameTaskSymmetric(ops[i], ops[i]);
    }
  }

  /** The items are all different. */
  ghost predicate DifferentKeys(r: Resource, items: seq<Dict>) {
    forall i, j | 0 <= i < j < |items| :: KeyOf(r, items[i]) != KeyOf(r, items[j])
  }

  ghost predicate OnceEach(r: Resource, c: Context, items: seq<Dict>) {
    forall item <- items :: PlanItem(r, c, item).Success?
      && NothingTwice(PlanItem(r, c, item).value.changes) && NothingTwice(PlanItem(r, c, item).value.deletes)
  }

  lemma OwnIdentity(r: Resource, c: Context, item: Dict)
    requires PlanItem(r, c, item).Success?
    ensures forall op | op in PlanItem(r, c, item).value.changes || op in PlanItem(r, c, item).value.deletes ::
      op.resource == r && Fold(op.identity) == KeyOf(r, item)
  {
    hide PlanItem;
    ItemOperations(r, c, item);
  }

  ghost predicate BearsKeyOf(r: Resource, items: seq<Dict>, op: Operation) {
    exists i :: 0 <= i < |items| && Fold(op.identity) == KeyOf(r, items[i])
  }

  lemma {:induction false} GroupOnce(r: Resource, c: Context, items: seq<Dict>)
    requires DifferentKeys(r, items) && OnceEach(r, c, items) && PlanItems(r, c, items).Success?
    ensures NothingTwice(PlanItems(r, c, items).value.changes) && NothingTwice(PlanItems(r, c, items).value.deletes)
    ensures forall op | op in PlanItems(r, c, items).value.changes || op in PlanItems(r, c, items).value.deletes ::
      BearsKeyOf(r, items, op)
  {
    hide PlanItem, KeyOf, SameTask, NothingTwice;
    if items == [] {
      NothingRepeated();
    } else {
      var n := |items| - 1;
      assert items[n] in items;
      assert forall item <- items[..n] :: item in items;
      GroupOnce(r, c, items[..n]);
      OwnIdentity(r, c, items[n]);
      var front, last := PlanItems(r, c, items[..n]).value, PlanItem(r, c, items[n]).value;
      OtherTasks(r, items, front.changes, last.changes);
      OtherTasks(r, items, front.deletes, last.deletes);
      JoinedOnce(front.changes, last.changes);
      JoinedOnce(front.deletes, last.deletes);
      forall op | op in PlanItems(r, c, items).value.changes || op in PlanItems(r, c, items).value.deletes
        ensures BearsKeyOf(r, items, op)
      {
        if op in front.changes || op in front.deletes {
          var i :| 0 <= i < n && Fold(op.identity) == KeyOf(r, items[..n][i]);
          assert Fold(op.identity) == KeyOf(r, items[i]);
        } else {
          assert Fold(op.identity) == KeyOf(r, items[n]);
        }
      }
    }
  }

  lemma NothingRepeated()
    ensures NothingTwice([])
  {
  }

  lemma OtherTasks(r: Resource, items: seq<Dict>, front: seq<Operation>, last: seq<Operation>)
    requires items != [] && DifferentKeys(r, items)
    requires forall op | op in front :: BearsKeyOf(r, items[..|items| - 1], op)
    requires forall op | op in last :: Fold(op.identity) == KeyOf(r, items[|items| - 1])
    ensures forall x <- front, y <- last :: !SameTask(x, y)
  {
    hide KeyOf;
    forall x, y | x in front && y in last ensures !SameTask(x, y) {
      var i :| 0 <= i < |items| - 1 && Fold(x.identity) == KeyOf(r, items[..|items| - 1][i]);
      assert KeyOf(r, items[i]) != KeyOf(r, items[|items| - 1]);
    }
  }

  // ---- the whole plan -------------------------------------------------------------------------

  lemma ItemOnce(m: Manifest, remote: Remote, c: Context, r: Resource, item: Dict)
    requires Readable(m, remote, c) && item in m.Items(r) && PlanItem(r, c, item).Success?
    ensures NothingTwice(PlanItem(r, c, item).value.changes) && NothingTwice(PlanItem(r, c, item).value.deletes)
  {
    hide Readable, PlanItem, Intended, CallsFor;
    ItemAnswers(m, remote, c, r, item);
    var changes, deletes := PlanItem(r, c, item).value.changes, PlanItem(r, c, item).value.deletes;
    var ops := changes + deletes;
    forall i, j | 0 <= i < j < |changes| ensures !SameTask(changes[i], changes[j]) {
      assert ops[i] == changes[i] && ops[j] == changes[j];
    }
    forall i, j | 0 <= i < j < |deletes| ensures !SameTask(deletes[i], deletes[j]) {
      assert ops[|changes| + i] == deletes[i] && ops[|changes| + j] == deletes[j];
    }
  }

  lemma GroupsOnce(m: Manifest, remote: Remote, b: Blueprint, r: Resource)
    requires ValidManifest(m) && FoldDistinct(m) && PlainMembershipNames(m) && ValidRemote(remote)
    requires Compiles(m, remote, b)
    ensures NothingTwice(b.Group(r).changes) && NothingTwice(b.Group(r).deletes)
  {
    hide ValidManifest, FoldDistinct, PlainMembershipNames, ValidRemote, PlanItem, PlanItems, FetchSnapshot,
      MakeContext, EntitySequence, KeyOf, NothingTwice;
    var items := b.Items(m, r);
    CompiledContext(m, remote, b);
    forall i, j | 0 <= i < j < |items| ensures KeyOf(r, items[i]) != KeyOf(r, items[j]) {
      if KeyOf(r, items[i]) == KeyOf(r, items[j]) {
        KeysArePlaces(m, remote, b, r, i, j);
      }
    }
    GroupPlans(r, b.c, items);
    forall item | item in items
      ensures NothingTwice(PlanItem(r, b.c, item).value.changes) && NothingTwice(PlanItem(r, b.c, item).value.deletes)
    {
      SequenceMembers(m, remote, b, r, item);
      ItemOnce(m, remote, b.c, r, item);
    }
    GroupOnce(r, b.c, items);
  }

  lemma GroupPlans(r: Resource, c: Context, items: seq<Dict>)
    requires PlanItems(r, c, items).Success?
    ensures forall item <- items :: PlanItem(r, c, item).Success?
  {
    hide PlanItem, PlanItems;
    forall item | item in items ensures PlanItem(r, c, item).Success? {
      var i :| 0 <= i < |items| && items[i] == item;
      var lo, hi := SliceOfItem(r, c, items, i);
    }
  }

  lemma AllOnce(m: Manifest, remote: Remote, b: Blueprint)
    requires ValidManifest(m) && FoldDistinct(m) && PlainMembershipNames(m) && ValidRemote(remote)
    requires Compiles(m, remote, b)
    ensures NothingTwice(b.Ops())
  {
    hide ValidManifest, FoldDistinct, PlainMembershipNames, ValidRemote, Compiles, SortDeletes, NothingTwice, AllIn,
      Phase;
    forall r: Resource ensures NothingTwice(b.Group(r).changes) && NothingTwice(b.Group(r).deletes) {
      GroupsOnce(m, remote, b, r);
    }
    GroupsInPhase(m, remote, b);
    assert b.Group(Permissions) == b.permissions && b.Group(Entities) == b.entities;
    assert b.Group(Roles) == b.roles && b.Group(Memberships) == b.memberships;
    var sorted := SortDeletes(b.links, b.entities.deletes);
    SortedOnce(b.links, b.entities.deletes);
    var a := b.permissions.changes;
    NothingRepeated();
    assert [] + a == a;
    JoinedPhase([], a, 0);
    JoinedPhase(a, b.entities.changes, 1);
    JoinedPhase(a + b.entities.changes, b.roles.changes, 2);
    var changes := a + b.entities.changes + b.roles.changes + b.memberships.changes;
    JoinedPhase(a + b.entities.changes + b.roles.changes, b.memberships.changes, 3);
    JoinedPhase(changes, b.memberships.deletes, 4);
    JoinedPhase(changes + b.memberships.deletes, b.roles.deletes, 5);
    JoinedPhase(changes + b.memberships.deletes + b.roles.deletes, sorted, 6);
    JoinedPhase(changes + b.memberships.deletes + b.roles.deletes + sorted, b.permissions.deletes, 7);
  }

  lemma SortedOnce(links: Parents, deletes: seq<Operation>)
    requires NothingTwice(deletes)
    ensures NothingTwice(SortDeletes(links, deletes))
  {
    hide NothingTwice;
    RearrangedOnce(deletes, SortDeletes(links, deletes));
  }

  /** The operation does this for the row of this identity. */
  predicate Does(op: Operation, r: Resource, key: string, action: Action) {
    op.resource == r && Fold(op.identity) == key && op.action == action
  }

  lemma OperationIntended(m: Manifest, remote: Remote, b: Blueprint, p: nat) returns (r: Resource, i: nat)
    requires ValidManifest(m) && FoldDistinct(m) && PlainMembershipNames(m) && ValidRemote(remote)
    requires Compiles(m, remote, b) && p < |b.Ops()|
    ensures i < |b.Items(m, r)| && b.Items(m, r)[i] in m.Items(r)
    ensures Intended(remote, r, b.Items(m, r)[i], b.Ops()[p])
    ensures CallsFor(remote, r, b.Items(m, r)[i], b.Ops()[p].action)
    ensures b.Ops()[p].resource == r && Fold(b.Ops()[p].identity) == KeyOf(r, b.Items(m, r)[i])
  {
    hide ValidManifest, FoldDistinct, PlainMembershipNames, ValidRemote, Compiles, PlanItem, Assemble, Intended,
      CallsFor, Reads;
    r, i := OperationItem(m, remote, b, p);
    var item := b.Items(m, r)[i];
    assert item in b.Items(m, r);
    SequenceMembers(m, remote, b, r, item);
    CompiledContext(m, remote, b);
    ItemAnswers(m, remote, b.c, r, item);
    OwnIdentity(r, b.c, item);
    var planned := PlanItem(r, b.c, item).value;
    var ops := planned.changes + planned.deletes;
    assert b.Ops()[p] in ops;
    var k :| 0 <= k < |ops| && ops[k] == b.Ops()[p];
  }

  lemma CalledForIsPlanned(m: Manifest, remote: Remote, b: Blueprint, r: Resource, item: Dict, action: Action)
    returns (p: nat)
    requires ValidManifest(m) && FoldDistinct(m) && PlainMembershipNames(m) && ValidRemote(remote)
    requires Compiles(m, remote, b) && item in m.Items(r) && CallsFor(remote, r, item, action)
    ensures p < |b.Ops()| && Does(b.Ops()[p], r, KeyOf(r, item), action)
  {
    hide ValidManifest, FoldDistinct, PlainMembershipNames, ValidRemote, FetchSnapshot, MakeContext, EntitySequence,
      PlanItem, PlanItems, Assemble, Intended, CallsFor, KeyOf;
    SequenceMembers(m, remote, b, r, item);
    var i :| 0 <= i < |b.Items(m, r)| && b.Items(m, r)[i] == item;
    CompiledContext(m, remote, b);
    GroupPlans(r, b.c, b.Items(m, r));
    ItemAnswers(m, remote, b.c, r, item);
    OwnIdentity(r, b.c, item);
    var changes, deletes := PlanItem(r, b.c, item).value.changes, PlanItem(r, b.c, item).value.deletes;
    var all: seq<Operation> := changes + deletes;
    var k :| 0 <= k < |all| && all[k].action == action;
    if k < |changes| {
      assert changes[k] in changes && all[k] == changes[k];
      p := ItemOperationAt(m, remote, b, r, i, k);
    } else {
      assert deletes[k - |changes|] in deletes && all[k] == deletes[k - |changes|];
      DeletesOfItem(r, b.c, b.Items(m, r), i);
      p := DeleteIsPlanned(b, r, deletes[k - |changes|]);
    }
  }

  /** Some item of the manifest intends the operation. */
  ghost predicate Stems(m: Manifest, remote: Remote, op: Operation) {
    exists item :: item in m.Items(op.resource) && Intended(remote, op.resource, item, op)
  }

  ghost predicate Done(ops: seq<Operation>, r: Resource, key: string, action: Action) {
    exists p :: 0 <= p < |ops| && Does(ops[p], r, key, action)
  }

  /** The plan is exact: each operation is one that some item calls for, in all its parts; what an item calls for is
      there, and what it does not call for is not; and nothing is there twice. */
  ghost predicate ExactPlan(m: Manifest, remote: Remote, ops: seq<Operation>) {
    && (forall p | 0 <= p < |ops| :: Stems(m, remote, ops[p]))
    && (forall r: Resource, item, action | item in m.Items(r) ::
          CallsFor(remote, r, item, action) <==> Done(ops, r, KeyOf(r, item), action))
    && NothingTwice(ops)
  }

  lemma PlansAreExact(m: Manifest, remote: Remote, ops: seq<Operation>)
    requires ValidManifest(m) && FoldDistinct(m) && PlainMembershipNames(m) && ValidRemote(remote)
    requires Plan(m, remote) == Success(ops)
    ensures ExactPlan(m, remote, ops)
  {
    hide ValidManifest, FoldDistinct, PlainMembershipNames, ValidRemote, Plan, Compiles, Assemble, Intended, CallsFor,
      KeyOf, NothingTwice;
    var b := PlanCompiles(m, remote);
    AllOnce(m, remote, b);
    forall p | 0 <= p < |ops| ensures Stems(m, remote, ops[p]) {
      var r, i := OperationIntended(m, remote, b, p);
    }
    forall r: Resource, item, action | item in m.Items(r)
      ensures CallsFor(remote, r, item, action) <==> Done(ops, r, KeyOf(r, item), action)
    {
      if CallsFor(remote, r, item, action) {
        var p := CalledForIsPlanned(m, remote, b, r, item, action);
      }
      if Done(ops, r, KeyOf(r, item), action) {
        var p :| 0 <= p < |ops| && Does(ops[p], r, KeyOf(r, item), action);
        var r', i := OperationIntended(m, remote, b, p);
        SequenceMembers(m, remote, b, r, item);
        var j :| 0 <= j < |b.Items(m, r)| && b.Items(m, r)[j] == item;
        KeysArePlaces(m, remote, b, r, i, j);
      }
    }
  }
}
