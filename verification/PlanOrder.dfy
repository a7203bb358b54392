/** The order of a plan within each phase: operations come as their items do. */
module PlanOrder {
  import opened Outcomes
  import opened Text
  import opened JsonValues
  import opened Manifests
  import opened RemoteStore
  import opened Planner
  import opened PlanShape
  import opened PlanExactness

  /** The item of the first operation stands no later in the list than that of the second. */
  ghost predicate InItemOrder(r: Resource, items: seq<Dict>, a: Operation, b: Operation) {
    exists i, j ::
      0 <= i <= j < |items| && Fold(a.identity) == KeyOf(r, items[i]) && Fold(b.identity) == KeyOf(r, items[j])
  }

  ghost predicate Follows(r: Resource, items: seq<Dict>, ops: seq<Operation>) {
    forall p, q | 0 <= p < q < |ops| :: InItemOrder(r, items, ops[p], ops[q])
  }

  /** Operations of one more item come after those of the items before. */
  lemma FollowsLater(r: Resource, items: seq<Dict>, front: seq<Operation>, last: seq<Operation>)
    requires items != [] && Follows(r, items[..|items| - 1], front)
    requires forall op | op in front :: BearsKeyOf(r, items[..|items| - 1], op)
    requires forall op | op in last :: Fold(op.identity) == KeyOf(r, items[|items| - 1])
    ensures Follows(r, items, front + last)
  {
    hide KeyOf;
    var n := |items| - 1;
    var ops := front + last;
    forall p, q | 0 <= p < q < |ops| ensures InItemOrder(r, items, ops[p], ops[q]) {
      if q < |front| {
        assert InItemOrder(r, items[..n], front[p], front[q]);
        var i, j :| 0 <= i <= j < n && Fold(front[p].identity) == KeyOf(r, items[..n][i]) &&
          Fold(front[q].identity) == KeyOf(r, items[..n][j]);
        assert items[i] == items[..n][i] && items[j] == items[..n][j];
      } else {
        assert ops[q] in last;
        if p < |front| {
          assert ops[p] in front && BearsKeyOf(r, items[..n], ops[p]);
          var i :| 0 <= i < n && Fold(ops[p].identity) == KeyOf(r, items[..n][i]);
          assert items[i] == items[..n][i];
        } else {
          assert ops[p] in last;
        }
      }
    }
  }

  lemma {:induction false} GroupFollows(r: Resource, c: Context, items: seq<Dict>)
    requires PlanItems(r, c, items).Success?
    ensures Follows(r, items, PlanItems(r, c, items).value.changes)
    ensures Follows(r, items, PlanItems(r, c, items).value.deletes)
    ensures forall op | op in PlanItems(r, c, items).value.changes || op in PlanItems(r, c, items).value.deletes ::
      BearsKeyOf(r, items, op)
  {
    hide PlanItem, KeyOf, Follows;
    if items == [] {
      NothingToFollow(r);
    } else {
      var n := |items| - 1;
      GroupFollows(r, c, items[..n]);
      OwnIdentity(r, c, items[n]);
      var front, last := PlanItems(r, c, items[..n]).value, PlanItem(r, c, items[n]).value;
      FollowsLater(r, items, front.changes, last.changes);
      FollowsLater(r, items, front.deletes, last.deletes);
      StillBears(r, items, front.changes + front.deletes, last.changes + last.deletes);
    }
  }

  lemma NothingToFollow(r: Resource)
    ensures Follows(r, [], [])
  {
  }

  lemma StillBears(r: Resource, items: seq<Dict>, front: seq<Operation>, last: seq<Operation>)
    requires items != [] && forall op | op in front :: BearsKeyOf(r, items[..|items| - 1], op)
    requires forall op | op in last :: Fold(op.identity) == KeyOf(r, items[|items| - 1])
    ensures forall op | op in front || op in last :: BearsKeyOf(r, items, op)
  {
    hide KeyOf;
    var n := |items| - 1;
    forall op | op in front || op in last ensures BearsKeyOf(r, items, op) {
      if op in front {
        var i :| 0 <= i < n && Fold(op.identity) == KeyOf(r, items[..n][i]);
        assert Fold(op.identity) == KeyOf(r, items[i]);
      } else {
        assert Fold(op.identity) == KeyOf(r, items[n]);
      }
    }
  }

  // ---- the whole plan -------------------------------------------------------------------------

  /** Entities are deleted by depth; all else follows the items. */
  predicate ByDepth(op: Operation) {
    op.resource == Entities && op.action == DeleteAction
  }

  /** Within each phase the operations follow the items, entities being taken in parent-first order. */
  ghost predicate FollowsItems(m: Manifest, sequence: seq<Dict>, ops: seq<Operation>) {
    forall p, q | 0 <= p < q < |ops| && Phase(ops[p]) == Phase(ops[q]) && !ByDepth(ops[p]) ::
      InItemOrder(ops[p].resource, if ops[p].resource == Entities then sequence else m.Items(ops[p].resource), ops[p],
                  ops[q])
  }

  lemma PhaseFollows(m: Manifest, sequence: seq<Dict>, ops: seq<Operation>, more: seq<Operation>, phase: nat)
    requires FollowsItems(m, sequence, ops) && (forall op <- ops :: Phase(op) < phase) && AllIn(more, phase)
    requires FollowsItems(m, sequence, more)
    ensures FollowsItems(m, sequence, ops + more) && forall op <- ops + more :: Phase(op) < phase + 1
  {
    hide InItemOrder, Phase;
    var all := ops + more;
    forall p | 0 <= p < |all| ensures if p < |ops| then Phase(all[p]) < phase else Phase(all[p]) == phase {
      assert if p < |ops| then all[p] in ops else all[p] in more;
    }
  }

  /** The operations of one group follow the items it was planned from. */
  lemma GroupFollowsItems(m: Manifest, remote: Remote, b: Blueprint, r: Resource, ops: seq<Operation>)
    requires Compiles(m, remote, b)
    requires ops == b.Group(r).changes || (r != Entities && ops == b.Group(r).deletes)
    requires forall op <- ops :: op.resource == r
    ensures FollowsItems(m, b.sequence, ops)
  {
    hide PlanItem, PlanItems, FetchSnapshot, MakeContext, EntitySequence, InItemOrder, Phase;
    var items := b.Items(m, r);
    GroupFollows(r, b.c, items);
    assert Follows(r, items, ops);
    forall p, q | 0 <= p < q < |ops| && Phase(ops[p]) == Phase(ops[q]) && !ByDepth(ops[p])
      ensures InItemOrder(r, if r == Entities then b.sequence else m.Items(r), ops[p], ops[q])
    {
      assert InItemOrder(r, items, ops[p], ops[q]);
    }
    assert forall p | 0 <= p < |ops| :: ops[p] in ops;
  }

  lemma DepthFollows(m: Manifest, sequence: seq<Dict>, ops: seq<Operation>)
    requires AllIn(ops, 6)
    ensures FollowsItems(m, sequence, ops)
  {
    hide InItemOrder;
    assert forall p | 0 <= p < |ops| :: ops[p] in ops;
  }

  lemma NothingFollows(m: Manifest, sequence: seq<Dict>)
    ensures FollowsItems(m, sequence, [])
  {
  }

  lemma BlueprintFollows(m: Manifest, remote: Remote, b: Blueprint)
    requires Compiles(m, remote, b)
    ensures FollowsItems(m, b.sequence, b.Ops())
  {
    hide Compiles, SortDeletes, FollowsItems, AllIn, Phase;
    GroupsInPhase(m, remote, b);
    assert b.Group(Permissions) == b.permissions && b.Group(Entities) == b.entities;
    assert b.Group(Roles) == b.roles && b.Group(Memberships) == b.memberships;
    forall r: Resource
      ensures FollowsItems(m, b.sequence, b.Group(r).changes)
      ensures r != Entities ==> FollowsItems(m, b.sequence, b.Group(r).deletes)
    {
      ChangesInPhase(m, remote, b, r);
      DeletesInPhase(m, remote, b, r);
      GroupFollowsItems(m, remote, b, r, b.Group(r).changes);
      if r != Entities {
        GroupFollowsItems(m, remote, b, r, b.Group(r).deletes);
      }
    }
    var sorted := SortDeletes(b.links, b.entities.deletes);
    DepthFollows(m, b.sequence, sorted);
    var a := b.permissions.changes;
    NothingFollows(m, b.sequence);
    assert [] + a == a;
    PhaseFollows(m, b.sequence, [], a, 0);
    PhaseFollows(m, b.sequence, a, b.entities.changes, 1);
    PhaseFollows(m, b.sequence, a + b.entities.changes, b.roles.changes, 2);
    var changes := a + b.entities.changes + b.roles.changes + b.memberships.changes;
    PhaseFollows(m, b.sequence, a + b.entities.changes + b.roles.changes, b.memberships.changes, 3);
    PhaseFollows(m, b.sequence, changes, b.memberships.deletes, 4);
    PhaseFollows(m, b.sequence, changes + b.memberships.deletes, b.roles.deletes, 5);
    PhaseFollows(m, b.sequence, changes + b.memberships.deletes + b.roles.deletes, sorted, 6);
    PhaseFollows(m, b.sequence, changes + b.memberships.deletes + b.roles.deletes + sorted, b.permissions.deletes, 7);
  }

  /** Within each phase a plan takes the items as the manifest lists them, present entities parents first; only entities
      are deleted in an order of their own. */
  lemma PlansFollowTheManifest(m: Manifest, remote: Remote, ops: seq<Operation>)
    requires Plan(m, remote) == Success(ops)
    ensures EntitySequence(m.entities).Success? && FollowsItems(m, EntitySequence(m.entities).value, ops)
  {
    hide Plan, SortDeletes, FollowsItems, PlanItems, FetchSnapshot, MakeContext;
    var b := PlanCompiles(m, remote);
    BlueprintFollows(m, remote, b);
  }
}
