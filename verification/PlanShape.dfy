/** How a plan is laid out: which operations stem from which item, and where they stand. */
module PlanShape {
  import opened Outcomes
  import opened Text
  import opened Sorting
  import opened JsonValues
  import opened Manifests
  import opened RemoteStore
  import opened ParentForest
  import opened DeleteDepth
  import opened Planner

  /** The intermediate results of one planning call. */
  datatype Blueprint = Blueprint(
    c: Context,
    sequence: seq<Dict>,
    permissions: Planned,
    entities: Planned,
    roles: Planned,
    memberships: Planned,
    links: Parents)
  {
    function Ops(): seq<Operation> {
      Assemble(permissions, entities, roles, memberships, links)
    }

    function Group(r: Resource): Planned {
      match r
      case Permissions => permissions
      case Entities => entities
      case Roles => roles
      case Memberships => memberships
    }

    /** The position of a group's first change. */
    function Base(r: Resource): nat {
      match r
      case Permissions => 0
      case Entities => |permissions.changes|
      case Roles => |permissions.changes| + |entities.changes|
      case Memberships => |permissions.changes| + |entities.changes| + |roles.changes|
    }

    /** The number of operations that create, update or move; the rest delete. */
    function ChangeCount(): nat {
      Base(Memberships) + |memberships.changes|
    }

    /** The items a group was planned from, in planning order. */
    function Items(m: Manifest, r: Resource): seq<Dict> {
      if r == Entities then sequence else m.Items(r)
    }
  }

  ghost predicate Compiles(m: Manifest, remote: Remote, b: Blueprint) {
    && FetchSnapshot(remote, m).Success?
    && b.c == MakeContext(m, FetchSnapshot(remote, m).value)
    && b.links == LinksOf(FetchSnapshot(remote, m).value.entities)
    && EntitySequence(m.entities) == Success(b.sequence)
    && forall r: Resource :: PlanItems(r, b.c, b.Items(m, r)) == Success(b.Group(r))
  }

  lemma PlanCompiles(m: Manifest, remote: Remote) returns (b: Blueprint)
    requires Plan(m, remote).Success?
    ensures Compiles(m, remote, b) && Plan(m, remote) == Success(b.Ops())
  {
    var s := FetchSnapshot(remote, m).value;
    var c := MakeContext(m, s);
    var sequence := EntitySequence(m.entities).value;
    b := Blueprint(c, sequence, PlanItems(Permissions, c, m.permissions).value, PlanItems(Entities, c, sequence).value,
                   PlanItems(Roles, c, m.roles).value, PlanItems(Memberships, c, m.memberships).value,
                     LinksOf(s.entities));
    forall r: Resource ensures PlanItems(r, b.c, b.Items(m, r)) == Success(b.Group(r)) {
      match r case Permissions => case Entities => case Roles => case Memberships =>
    }
  }

  lemma CompiledIsPlan(m: Manifest, remote: Remote, b: Blueprint)
    requires Compiles(m, remote, b)
    ensures Plan(m, remote) == Success(b.Ops())
  {
    assert b.Items(m, Permissions) == m.permissions && b.Group(Permissions) == b.permissions;
    assert b.Items(m, Entities) == b.sequence && b.Group(Entities) == b.entities;
    assert b.Items(m, Roles) == m.roles && b.Group(Roles) == b.roles;
    assert b.Items(m, Memberships) == m.memberships && b.Group(Memberships) == b.memberships;
  }

  function KeyOf(r: Resource, item: Dict): string {
    Fold(NameOf(r, item))
  }

  // ---- the operations of one item -------------------------------------------------------------

  /** The shape of an operation among the changes planned for a present item. */
  ghost predicate ChangeOf(r: Resource, c: Context, item: Dict, op: Operation) {
    && op.resource == r && op.identity == NameOf(r, item) && op.body.Some?
    && if KeyOf(r, item) in c.Current(r) then
         var row := c.Current(r)[KeyOf(r, item)];
         && op.before == Some(row)
         && ((op.action == UpdateAction && op.verb == Patch && op.path == ElementPath(r, row))
             || (r == Entities && op.action == MoveAction && op.verb == Post &&
               op.path == MoveOf(PyStr(Get(row, "id")))))
       else
         op.before == None && op.action == CreateAction && op.verb == Post && op.path == Collection(r)
  }

  /** The shape of the operation that deletes the row an absent item names. */
  ghost predicate DeleteOf(r: Resource, c: Context, item: Dict, op: Operation) {
    && !Present(item) && KeyOf(r, item) in c.Current(r)
    && op.resource == r && op.identity == NameOf(r, item) && op.body == None
    && op.action == DeleteAction && op.verb == Delete
    && op.before == Some(c.Current(r)[KeyOf(r, item)])
    && op.path == ElementPath(r, c.Current(r)[KeyOf(r, item)])
  }

  ghost predicate WellShaped(r: Resource, c: Context, item: Dict, p: Planned) {
    && (forall op <- p.changes :: Present(item) && ChangeOf(r, c, item, op))
    && (forall op <- p.deletes :: DeleteOf(r, c, item, op))
    && (Present(item) ==> p.deletes == [])
    && (Present(item) && KeyOf(r, item) !in c.Current(r) ==> |p.changes| == 1)
    && (!Present(item) ==> p.changes == [])
    && (!Present(item) && KeyOf(r, item) in c.Current(r) ==> |p.deletes| == 1)
  }

  lemma AbsentOperations(r: Resource, c: Context, item: Dict)
    requires !Present(item)
    ensures WellShaped(r, c, item, PlanAbsent(r, c, item))
  {
  }

  lemma PermissionOperations(c: Context, item: Dict)
    requires Present(item) && PlanPermission(c, item).Success?
    ensures WellShaped(Permissions, c, item, PlanPermission(c, item).value)
  {
    hide Restrict, ManagedDiff, ManagedFields;
  }

  lemma EntityOperations(c: Context, item: Dict)
    requires Present(item) && PlanEntity(c, item).Success?
    ensures WellShaped(Entities, c, item, PlanEntity(c, item).value)
  {
    hide Restrict, ManagedDiff, ManagedFields, ParentValue, Canonical;
  }

  lemma RoleOperations(c: Context, item: Dict)
    requires Present(item) && PlanRole(c, item).Success?
    ensures WellShaped(Roles, c, item, PlanRole(c, item).value)
  {
    hide Restrict, ManagedDiff, ManagedFields, WithReference;
  }

  lemma MembershipOperations(c: Context, item: Dict)
    requires Present(item) && PlanMembership(c, item).Success?
    ensures WellShaped(Memberships, c, item, PlanMembership(c, item).value)
  {
    hide Restrict, ManagedDiff, ManagedFields, LookupOrRef, RoleIds;
  }

  lemma ItemOperations(r: Resource, c: Context, item: Dict)
    requires PlanItem(r, c, item).Success?
    ensures WellShaped(r, c, item, PlanItem(r, c, item).value)
  {
    hide PlanAbsent, PlanPermission, PlanEntity, PlanRole, PlanMembership, WellShaped;
    if !Present(item) {
      AbsentOperations(r, c, item);
    } else {
      match r
      case Permissions => PermissionOperations(c, item);
      case Entities => EntityOperations(c, item);
      case Roles => RoleOperations(c, item);
      case Memberships => MembershipOperations(c, item);
    }
  }

  // ---- slices ---------------------------------------------------------------------------------

  function Offset(r: Resource, c: Context, items: seq<Dict>, i: nat): nat
    requires i <= |items| && PlanItems(r, c, items[..i]).Success?
  {
    |PlanItems(r, c, items[..i]).value.changes|
  }

  lemma {:induction false} PrefixPlanned(r: Resource, c: Context, items: seq<Dict>, i: nat)
    requires i <= |items| && PlanItems(r, c, items).Success?
    ensures PlanItems(r, c, items[..i]).Success?
    ensures PlanItems(r, c, items[..i]).value.changes <= PlanItems(r, c, items).value.changes
    ensures PlanItems(r, c, items[..i]).value.deletes <= PlanItems(r, c, items).value.deletes
    decreases |items|
  {
    hide PlanItem;
    if i == |items| {
      assert items[..i] == items;
    } else {
      var front := items[..|items| - 1];
      assert front[..i] == items[..i];
      PrefixPlanned(r, c, front, i);
    }
  }

  /** The i-th item's changes stand between two consecutive offsets. */
  lemma SliceOfItem(r: Resource, c: Context, items: seq<Dict>, i: nat) returns (lo: nat, hi: nat)
    requires i < |items| && PlanItems(r, c, items).Success?
    ensures PlanItems(r, c, items[..i]).Success? && PlanItems(r, c, items[..i + 1]).Success?
    ensures PlanItem(r, c, items[i]).Success?
    ensures lo == Offset(r, c, items, i) && hi == Offset(r, c, items, i + 1)
    ensures lo <= hi <= |PlanItems(r, c, items).value.changes|
    ensures PlanItems(r, c, items).value.changes[lo..hi] == PlanItem(r, c, items[i]).value.changes
  {
    hide PlanItem;
    PrefixPlanned(r, c, items, i);
    PrefixPlanned(r, c, items, i + 1);
    assert items[..i + 1][..i] == items[..i];
    var all := PlanItems(r, c, items).value.changes;
    var upto := PlanItems(r, c, items[..i + 1]).value.changes;
    lo, hi := Offset(r, c, items, i), Offset(r, c, items, i + 1);
    assert upto == PlanItems(r, c, items[..i]).value.changes + PlanItem(r, c, items[i]).value.changes;
    assert all[lo..hi] == upto[lo..hi];
  }

  lemma {:induction false} OffsetsGrow(r: Resource, c: Context, items: seq<Dict>, i: nat, j: nat)
    requires i <= j <= |items| && PlanItems(r, c, items).Success?
    ensures PlanItems(r, c, items[..i]).Success? && PlanItems(r, c, items[..j]).Success?
    ensures Offset(r, c, items, i) <= Offset(r, c, items, j)
  {
    PrefixPlanned(r, c, items, i);
    PrefixPlanned(r, c, items, j);
    PrefixPlanned(r, c, items[..j], i);
    assert items[..j][..i] == items[..i];
  }

  /** Every change stands in the slice of some item. */
  lemma {:induction false} OwnerOfPosition(r: Resource, c: Context, items: seq<Dict>, q: nat) returns (i: nat)
    requires PlanItems(r, c, items).Success? && q < |PlanItems(r, c, items).value.changes|
    ensures i < |items|
    ensures PlanItems(r, c, items[..i]).Success? && PlanItems(r, c, items[..i + 1]).Success?
    ensures PlanItem(r, c, items[i]).Success?
    ensures Offset(r, c, items, i) <= q < Offset(r, c, items, i + 1)
    ensures PlanItems(r, c, items).value.changes[q] in PlanItem(r, c, items[i]).value.changes
    decreases |items|
  {
    hide PlanItem;
    var n := |items| - 1;
    var front := items[..n];
    PrefixPlanned(r, c, items, n);
    if q < |PlanItems(r, c, front).value.changes| {
      i := OwnerOfPosition(r, c, front, q);
      assert front[..i] == items[..i] && front[..i + 1] == items[..i + 1];
    } else {
      i := n;
      assert items[..n + 1] == items;
    }
  }

  lemma {:induction false} OwnerOfDelete(r: Resource, c: Context, items: seq<Dict>, op: Operation) returns (i: nat)
    requires PlanItems(r, c, items).Success? && op in PlanItems(r, c, items).value.deletes
    ensures i < |items| && PlanItem(r, c, items[i]).Success? && op in PlanItem(r, c, items[i]).value.deletes
    decreases |items|
  {
    hide PlanItem;
    var n := |items| - 1;
    if op in PlanItems(r, c, items[..n]).value.deletes {
      i := OwnerOfDelete(r, c, items[..n], op);
    } else {
      i := n;
    }
  }

  lemma {:induction false} DeletesOfItem(r: Resource, c: Context, items: seq<Dict>, i: nat)
    requires PlanItems(r, c, items).Success? && i < |items|
    ensures PlanItem(r, c, items[i]).Success?
    ensures forall op <- PlanItem(r, c, items[i]).value.deletes :: op in PlanItems(r, c, items).value.deletes
    decreases |items|
  {
    hide PlanItem;
    var n := |items| - 1;
    if i < n {
      DeletesOfItem(r, c, items[..n], i);
    }
  }

  // ---- positions in the whole plan ------------------------------------------------------------

  lemma GroupPosition(b: Blueprint, r: Resource, q: nat)
    requires q < |b.Group(r).changes|
    ensures b.Base(r) + q < b.ChangeCount() <= |b.Ops()|
    ensures b.Ops()[b.Base(r) + q] == b.Group(r).changes[q]
  {
  }

  lemma ChangePosition(b: Blueprint, q: nat) returns (r: Resource)
    requires q < b.ChangeCount()
    ensures b.Base(r) <= q < b.Base(r) + |b.Group(r).changes| && q < |b.Ops()|
    ensures b.Ops()[q] == b.Group(r).changes[q - b.Base(r)]
  {
    hide Assemble;
    r := if q < b.Base(Entities) then Permissions else if q < b.Base(Roles) then Entities
         else if q < b.Base(Memberships) then Roles else Memberships;
    GroupPosition(b, r, q - b.Base(r));
  }

  lemma RestMember(a: seq<Operation>, b: seq<Operation>, c: seq<Operation>, d: seq<Operation>, p: nat)
    requires p < |a + b + c + d|
    ensures var op := (a + b + c + d)[p]; op in a || op in b || op in c || op in d
  {
    if p < |a| {
      assert (a + b + c + d)[p] == a[p];
    } else if p < |a| + |b| {
      assert (a + b + c + d)[p] == b[p - |a|];
    } else if p < |a| + |b| + |c| {
      assert (a + b + c + d)[p] == c[p - |a| - |b|];
    } else {
      assert (a + b + c + d)[p] == d[p - |a| - |b| - |c|];
    }
  }

  lemma RestOf(b: Blueprint, q: nat)
    requires b.ChangeCount() <= q < |b.Ops()|
    ensures var sorted := SortDeletes(b.links, b.entities.deletes);
      var rest := b.memberships.deletes + b.roles.deletes + sorted + b.permissions.deletes;
      q - b.ChangeCount() < |rest| && b.Ops()[q] == rest[q - b.ChangeCount()]
  {
    hide SortDeletes;
  }

  lemma DeletePosition(b: Blueprint, q: nat) returns (r: Resource)
    requires b.ChangeCount() <= q < |b.Ops()|
    ensures b.Ops()[q] in b.Group(r).deletes
  {
    var sorted := SortDeletes(b.links, b.entities.deletes);
    SameElements(sorted, b.entities.deletes);
    hide SortDeletes, Assemble;
    RestOf(b, q);
    RestMember(b.memberships.deletes, b.roles.deletes, sorted, b.permissions.deletes, q - b.ChangeCount());
    var op := b.Ops()[q];
    r := if op in b.memberships.deletes then Memberships else if op in b.roles.deletes then Roles
         else if op in sorted then Entities else Permissions;
  }

  lemma RestIndex(a: seq<Operation>, b: seq<Operation>, c: seq<Operation>, d: seq<Operation>, op: Operation)
    returns (p: nat)
    requires op in a || op in b || op in c || op in d
    ensures p < |a + b + c + d| && (a + b + c + d)[p] == op
  {
    if op in a {
      p :| 0 <= p < |a| && a[p] == op;
    } else if op in b {
      var i :| 0 <= i < |b| && b[i] == op;
      p := |a| + i;
    } else if op in c {
      var i :| 0 <= i < |c| && c[i] == op;
      p := |a| + |b| + i;
    } else {
      var i :| 0 <= i < |d| && d[i] == op;
      p := |a| + |b| + |c| + i;
    }
  }

  lemma InRest(b: Blueprint, r: Resource, op: Operation)
    requires op in b.Group(r).deletes
    ensures var sorted := SortDeletes(b.links, b.entities.deletes);
      op in b.memberships.deletes || op in b.roles.deletes || op in sorted || op in b.permissions.deletes
  {
    SameElements(SortDeletes(b.links, b.entities.deletes), b.entities.deletes);
  }

  lemma RestPosition(b: Blueprint, p: nat)
    requires var sorted := SortDeletes(b.links, b.entities.deletes);
      p < |b.memberships.deletes + b.roles.deletes + sorted + b.permissions.deletes|
    ensures var sorted := SortDeletes(b.links, b.entities.deletes);
      b.ChangeCount() + p < |b.Ops()| &&
      b.Ops()[b.ChangeCount() + p] == (b.memberships.deletes + b.roles.deletes + sorted + b.permissions.deletes)[p]
  {
  }

  lemma DeleteIsPlanned(b: Blueprint, r: Resource, op: Operation) returns (q: nat)
    requires op in b.Group(r).deletes
    ensures b.ChangeCount() <= q < |b.Ops()| && b.Ops()[q] == op
  {
    InRest(b, r, op);
    var p := RestIndex(b.memberships.deletes, b.roles.deletes, SortDeletes(b.links, b.entities.deletes),
      b.permissions.deletes, op);
    RestPosition(b, p);
    q := b.ChangeCount() + p;
  }

  // ---- phases ---------------------------------------------------------------------------------

  /** When an operation's turn comes: what others refer to is created first and deleted last. */
  function Phase(op: Operation): nat {
    if op.action == DeleteAction then
      match op.resource case Memberships => 4 case Roles => 5 case Entities => 6 case Permissions => 7
    else
      match op.resource case Permissions => 0 case Entities => 1 case Roles => 2 case Memberships => 3
  }

  /** All operations of a group's changes are of its phase. */
  lemma ChangesInPhase(m: Manifest, remote: Remote, b: Blueprint, r: Resource)
    requires Compiles(m, remote, b)
    ensures forall op <- b.Group(r).changes :: op.action != DeleteAction && op.resource == r
  {
    hide FetchSnapshot, MakeContext, EntitySequence, PlanItem, PlanItems;
    var changes := b.Group(r).changes;
    forall op | op in changes ensures op.action != DeleteAction && op.resource == r {
      var q :| 0 <= q < |changes| && changes[q] == op;
      var i := OwnerOfPosition(r, b.c, b.Items(m, r), q);
      ItemOperations(r, b.c, b.Items(m, r)[i]);
    }
  }

  lemma DeletesInPhase(m: Manifest, remote: Remote, b: Blueprint, r: Resource)
    requires Compiles(m, remote, b)
    ensures forall op <- b.Group(r).deletes :: op.action == DeleteAction && op.resource == r
  {
    hide FetchSnapshot, MakeContext, EntitySequence, PlanItem, PlanItems;
    forall op | op in b.Group(r).deletes ensures op.action == DeleteAction && op.resource == r {
      var i := OwnerOfDelete(r, b.c, b.Items(m, r), op);
      ItemOperations(r, b.c, b.Items(m, r)[i]);
    }
  }

  /** Every operation of a list is of one phase. */
  ghost predicate AllIn(ops: seq<Operation>, phase: nat) {
    forall op <- ops :: Phase(op) == phase
  }

  ghost predicate PhasesGrow(ops: seq<Operation>) {
    forall i, j | 0 <= i < j < |ops| :: Phase(ops[i]) <= Phase(ops[j])
  }

  lemma AppendPhase(ops: seq<Operation>, more: seq<Operation>, phase: nat)
    requires PhasesGrow(ops) && (forall op <- ops :: Phase(op) < phase) && AllIn(more, phase)
    ensures PhasesGrow(ops + more) && forall op <- ops + more :: Phase(op) < phase + 1
  {
    hide Phase;
    assert forall i | 0 <= i < |ops| :: ops[i] in ops;
    assert forall i | 0 <= i < |more| :: more[i] in more;
  }

  /** A plan creates and updates permissions, entities, roles and memberships in this order, and deletes in the
      opposite one afterwards. */
  lemma PlanInPhases(m: Manifest, remote: Remote, ops: seq<Operation>)
    requires Plan(m, remote) == Success(ops)
    ensures PhasesGrow(ops)
  {
    hide Plan, Compiles, SortDeletes, PhasesGrow;
    var b := PlanCompiles(m, remote);
    BlueprintInPhases(m, remote, b);
  }

  lemma BlueprintInPhases(m: Manifest, remote: Remote, b: Blueprint)
    requires Compiles(m, remote, b)
    ensures PhasesGrow(b.Ops())
  {
    GroupsInPhase(m, remote, b);
    hide Compiles, SortDeletes, PhasesGrow, AllIn, Phase;
    var sorted := SortDeletes(b.links, b.entities.deletes);
    var a := b.permissions.changes;
    assert PhasesGrow([]) by {
      NoPhases();
    }
    assert [] + a == a;
    AppendPhase([], a, 0);
    AppendPhase(a, b.entities.changes, 1);
    AppendPhase(a + b.entities.changes, b.roles.changes, 2);
    var changes := a + b.entities.changes + b.roles.changes + b.memberships.changes;
    AppendPhase(a + b.entities.changes + b.roles.changes, b.memberships.changes, 3);
    AppendPhase(changes, b.memberships.deletes, 4);
    AppendPhase(changes + b.memberships.deletes, b.roles.deletes, 5);
    AppendPhase(changes + b.memberships.deletes + b.roles.deletes, sorted, 6);
    AppendPhase(changes + b.memberships.deletes + b.roles.deletes + sorted, b.permissions.deletes, 7);
  }

  lemma NoPhases()
    ensures PhasesGrow([])
  {
  }

  lemma GroupsInPhase(m: Manifest, remote: Remote, b: Blueprint)
    requires Compiles(m, remote, b)
    ensures AllIn(b.permissions.changes, 0) && AllIn(b.entities.changes, 1) && AllIn(b.roles.changes, 2)
    ensures AllIn(b.memberships.changes, 3)
    ensures AllIn(b.memberships.deletes, 4) && AllIn(b.roles.deletes, 5)
    ensures AllIn(SortDeletes(b.links, b.entities.deletes), 6) && AllIn(b.permissions.deletes, 7)
  {
    hide Compiles;
    forall r: Resource
      ensures forall op <- b.Group(r).changes :: op.action != DeleteAction && op.resource == r
      ensures forall op <- b.Group(r).deletes :: op.action == DeleteAction && op.resource == r
    {
      ChangesInPhase(m, remote, b, r);
      DeletesInPhase(m, remote, b, r);
    }
    assert b.Group(Permissions) == b.permissions && b.Group(Entities) == b.entities;
    assert b.Group(Roles) == b.roles && b.Group(Memberships) == b.memberships;
    SameElements(SortDeletes(b.links, b.entities.deletes), b.entities.deletes);
  }
}
