/** The drift check reports exactly the plans whose rows have changed. */
module DriftExactness {
  import opened Outcomes
  import opened Text
  import opened JsonValues
  import opened Manifests
  import opened RemoteStore
  import opened Planner
  import opened PlanShape
  import opened SnapshotFacts
  import opened RunOfPlan
  import opened Convergence
  import opened FinalMemberships
  import opened SecondPlan
  import opened SecondMemberships
  import opened EntityOrder
  import opened Drift

  /** `row` is what the store holds under a folded identity; a membership is shown joined with its user and entity. */
  ghost predicate Behind(s: Remote, r: Resource, key: string, row: Dict) {
    if r == Memberships then exists e, u :: IsJoin(s, row, e, u) && PairIdentity(s, e, u) == key
    else exists id :: id in s.Table(r) && FoldedIdentity(r, s.Table(r)[id]) == Some(key) && s.Table(r)[id] == row
  }

  ghost function RowBehind(s: Remote, r: Resource, key: string): Option<Dict> {
    if exists row :: Behind(s, r, key, row) then
      var row :| Behind(s, r, key, row);
      Some(row)
    else None
  }

  // ---- reading under a key --------------------------------------------------------------------

  lemma PlainFiled(m: Manifest, s: Remote, c: Context, r: Resource, key: string, row: Dict)
    requires ContextOf(m, s, c) && ValidRemote(s) && r != Memberships && Reads(m, r)
    ensures Behind(s, r, key, row) <==> key in c.Current(r) && c.Current(r)[key] == row
  {
    hide ContextOf, FoldedIdentity, Reads, ValidRow;
    ContextRows(m, s, c, r);
  }

  /** Whoever has the e-mail of the key is asked for. */
  ghost predicate Asks(m: Manifest, s: Remote, user: string) {
    forall u | u in s.users && EmailKey(s.users[u]) == Some(Fold(user)) :: UserAsked(s, m.memberships, u)
  }

  lemma JoinFiled(m: Manifest, s: Remote, c: Context, user: string, entity: string, row: Dict, e: string, u: string)
    requires ContextOf(m, s, c) && ValidRemote(s) && '@' !in entity && Asks(m, s, user)
    requires IsJoin(s, row, e, u) && PairIdentity(s, e, u) == MembershipIdentity(user, entity)
    ensures MembershipIdentity(user, entity) in c.memberships && c.memberships[MembershipIdentity(user, entity)] == row
  {
    hide ContextOf, ValidRemote, EmailKey, UserAsked, MembershipIdentity, PairIdentity, JoinOf;
    PairIdentityIs(s, e, u);
    NoAt(s, e);
    EmailOf(s, u);
    IdentityDetermines(user, entity, Get(s.users[u], "email").s, Get(s.entities[e], "slug").s);
    MembershipFound(m, s, c, e, u);
  }

  lemma MembershipFiled(m: Manifest, s: Remote, c: Context, user: string, entity: string, row: Dict)
    requires ContextOf(m, s, c) && ValidRemote(s) && '@' !in entity && Asks(m, s, user)
    ensures var key := MembershipIdentity(user, entity);
      Behind(s, Memberships, key, row) <==> key in c.memberships && c.memberships[key] == row
  {
    hide ContextOf, ValidRemote, Asks, IsJoin, MembershipIdentity, PairIdentity, JoinOf;
    var key := MembershipIdentity(user, entity);
    if Behind(s, Memberships, key, row) {
      var e, u :| IsJoin(s, row, e, u) && PairIdentity(s, e, u) == key;
      JoinFiled(m, s, c, user, entity, row, e, u);
    }
    if key in c.memberships && c.memberships[key] == row {
      var e, u := FoundMembership(m, s, c, key);
      JoinEnds(s, row, e, u);
      PairIdentityIs(s, e, u);
    }
  }

  lemma FiledIsBehind(s: Remote, r: Resource, key: string, current: map<string, Dict>)
    requires forall row :: Behind(s, r, key, row) <==> key in current && current[key] == row
    ensures RowBehind(s, r, key) == Lookup(current, key)
  {
    hide Behind;
    if key in current {
      assert Behind(s, r, key, current[key]);
    }
  }

  /** What an identity names: some text, or a user and an entity whose name has no '@'. */
  ghost predicate Names(r: Resource, key: string, user: string, entity: string) {
    r == Memberships ==> '@' !in entity && key == MembershipIdentity(user, entity)
  }

  /** Reading a key gives what the store holds under it. */
  lemma ReadIsBehind(m: Manifest, s: Remote, c: Context, r: Resource, key: string, user: string, entity: string)
    requires ContextOf(m, s, c) && ValidRemote(s) && Names(r, key, user, entity)
    requires if r == Memberships then Asks(m, s, user) else Reads(m, r)
    ensures RowBehind(s, r, key) == Lookup(c.Current(r), key)
  {
    hide ContextOf, ValidRemote, Asks, Behind, RowBehind, Reads;
    forall row ensures Behind(s, r, key, row) <==> key in c.Current(r) && c.Current(r)[key] == row {
      if r == Memberships {
        MembershipFiled(m, s, c, user, entity, row);
      } else {
        PlainFiled(m, s, c, r, key, row);
      }
    }
    FiledIsBehind(s, r, key, c.Current(r));
  }

  // ---- the synthetic manifest -----------------------------------------------------------------

  lemma {:induction false} SyntheticAbsent(ops: seq<Operation>, r: Resource)
    ensures forall item | item in Synthetic(ops).Items(r) :: !Present(item)
  {
    if ops != [] {
      SyntheticAbsent(ops[..|ops| - 1], r);
      var last := ops[|ops| - 1];
      var before, after := Synthetic(ops[..|ops| - 1]).Items(r), Synthetic(ops).Items(r);
      assert after == before || (|after| == |before| + 1 && after[..|before|] == before && !Present(after[|before|]));
    }
  }

  lemma {:induction false} SyntheticHolds(ops: seq<Operation>, op: Operation)
    requires op in ops
    ensures op.resource != Memberships ==> Synthetic(ops).Items(op.resource) != []
    ensures op.resource == Memberships && '@' in op.identity ==>
      exists item :: item in Synthetic(ops).memberships && Get(item, "user") == Str(RSplitAt(op.identity).0)
  {
    var n := |ops| - 1;
    assert ops == ops[..n] + [ops[n]];
    if op in ops[..n] {
      SyntheticHolds(ops[..n], op);
      SyntheticGrows(ops);
    } else if op.resource == Memberships && '@' in op.identity {
      var items := Synthetic(ops).memberships;
      assert Get(items[|items| - 1], "user") == Str(RSplitAt(op.identity).0);
    }
  }

  lemma SyntheticGrows(ops: seq<Operation>)
    requires ops != []
    ensures forall r: Resource, item | item in Synthetic(ops[..|ops| - 1]).Items(r) :: item in Synthetic(ops).Items(r)
    ensures forall r: Resource | Synthetic(ops[..|ops| - 1]).Items(r) != [] :: Synthetic(ops).Items(r) != []
  {
  }

  /** An identity that the check can take apart again. */
  ghost predicate WellNamed(op: Operation, user: string, entity: string) {
    op.resource == Memberships ==> '@' !in entity && op.identity == MembershipIdentity(user, entity)
  }

  lemma WellNamedKey(op: Operation, user: string, entity: string)
    requires WellNamed(op, user, entity)
    ensures Names(op.resource, Fold(op.identity), user, entity)
    ensures op.resource == Memberships ==> '@' in op.identity && RSplitAt(op.identity) == (Fold(user), Fold(entity))
  {
    if op.resource == Memberships {
      FoldConcat(Fold(user) + "@", Fold(entity));
      FoldConcat(Fold(user), "@");
      FoldIdempotent(user);
      FoldIdempotent(entity);
      assert Fold("@") == "@";
      FoldKeepsAt(entity);
      RSplitJoin(Fold(user), Fold(entity));
    }
  }

  lemma SyntheticAsks(ops: seq<Operation>, op: Operation, s: Remote, user: string, entity: string)
    requires op in ops && op.resource == Memberships && WellNamed(op, user, entity)
    ensures Asks(Synthetic(ops), s, user)
  {
    hide EmailKey, RSplitAt;
    WellNamedKey(op, user, entity);
    SyntheticHolds(ops, op);
    var items := Synthetic(ops).memberships;
    var item :| item in items && Get(item, "user") == Str(Fold(user));
    var i :| 0 <= i < |items| && items[i] == item;
    FoldIdempotent(user);
    assert UserKey(items[i]) == Fold(user);
  }

  lemma SyntheticRead(now: Remote, ops: seq<Operation>)
    ensures FetchSnapshot(now, Synthetic(ops)).Success?
  {
    hide FetchSnapshot, MakeContext, Synthetic;
    SyntheticAbsent(ops, Memberships);
    SnapshotSucceedsIff(now, Synthetic(ops));
  }

  /** What the check compares an operation with is what the store holds under its identity. */
  lemma CurrentIsBehind(now: Remote, ops: seq<Operation>, op: Operation, user: string, entity: string)
    requires ValidRemote(now) && op in ops && WellNamed(op, user, entity)
    ensures FetchSnapshot(now, Synthetic(ops)).Success?
    ensures CurrentFor(FetchSnapshot(now, Synthetic(ops)).value, op) == RowBehind(now, op.resource, Fold(op.identity))
  {
    hide FetchSnapshot, Synthetic, ValidRemote, RowBehind, WellNamed, Names, Asks, ItemsByIdentity, UsersByEmail,
      PresentKeys;
    SyntheticRead(now, ops);
    var c := MakeContext(Synthetic(ops), FetchSnapshot(now, Synthetic(ops)).value);
    WellNamedKey(op, user, entity);
    if op.resource == Memberships {
      SyntheticAsks(ops, op, now, user, entity);
    } else {
      SyntheticHolds(ops, op);
    }
    ReadIsBehind(Synthetic(ops), now, c, op.resource, Fold(op.identity), user, entity);
  }

  // ---- what a plan was made from --------------------------------------------------------------

  lemma PlannedBefore(r: Resource, c: Context, item: Dict, op: Operation)
    requires PlanItem(r, c, item).Success? &&
      (op in PlanItem(r, c, item).value.changes || op in PlanItem(r, c, item).value.deletes)
    ensures op.resource == r && op.identity == NameOf(r, item)
    ensures op.before == Lookup(c.Current(r), KeyOf(r, item)) && op.beforeHash == DigestOf(op.before)
  {
    hide Restrict, ManagedDiff, ManagedFields, LookupOrRef, RoleIds, ParentValue, Canonical, WithReference, RowDigest,
      EntityReference;
  }

  lemma ItemAsks(m: Manifest, remote: Remote, item: Dict)
    requires item in m.memberships
    ensures Asks(m, remote, PyStr(Get(item, "user")))
  {
    hide EmailKey;
    var i :| 0 <= i < |m.memberships| && m.memberships[i] == item;
    assert UserKey(m.memberships[i]) == Fold(PyStr(Get(item, "user")));
  }

  lemma ItemNames(m: Manifest, i: nat)
    requires ValidManifest(m) && PlainMembershipNames(m) && i < |m.memberships|
    ensures var item := m.memberships[i];
      var user, entity := PyStr(Get(item, "user")), PyStr(Get(item, "entity"));
      '@' !in entity && NameOf(Memberships, item) == KeyOf(Memberships, item) == MembershipIdentity(user, entity)
  {
    hide ValidManifest;
    assert m.memberships[i] in m.Items(Memberships);
    ManifestKeys(m, Memberships, m.memberships[i]);
    FoldedName(m.memberships[i]);
  }

  lemma EmptySequence(m: Manifest, sequence: seq<Dict>)
    requires EntitySequence(m.entities) == Success(sequence) && sequence != []
    ensures m.entities != []
  {
    if m.entities == [] {
      OutputMembers([]);
    }
  }

  /** The item an operation stems from. */
  lemma OperationItem(m: Manifest, remote: Remote, b: Blueprint, q: nat) returns (r: Resource, i: nat)
    requires Compiles(m, remote, b) && q < |b.Ops()|
    ensures i < |b.Items(m, r)| && PlanItem(r, b.c, b.Items(m, r)[i]).Success? && Reads(m, r)
    ensures b.Ops()[q] in PlanItem(r, b.c, b.Items(m, r)[i]).value.changes ||
      b.Ops()[q] in PlanItem(r, b.c, b.Items(m, r)[i]).value.deletes
  {
    hide PlanItem, PlanItems, FetchSnapshot, MakeContext, Assemble, EntitySequence;
    if q < b.ChangeCount() {
      r := ChangePosition(b, q);
      i := OwnerOfPosition(r, b.c, b.Items(m, r), q - b.Base(r));
    } else {
      r := DeletePosition(b, q);
      i := OwnerOfDelete(r, b.c, b.Items(m, r), b.Ops()[q]);
    }
    if r == Entities {
      EmptySequence(m, b.sequence);
    }
  }

  /** An operation remembers what the store held under its identity. */
  lemma PlannedFromBehind(m: Manifest, remote: Remote, ops: seq<Operation>, p: nat)
    returns (user: string, entity: string)
    requires ValidManifest(m) && PlainMembershipNames(m) && ValidRemote(remote) && Plan(m, remote) == Success(ops)
    requires p < |ops|
    ensures WellNamed(ops[p], user, entity)
    ensures ops[p].beforeHash == DigestOf(RowBehind(remote, ops[p].resource, Fold(ops[p].identity)))
  {
    hide Plan, ValidManifest, PlainMembershipNames, ValidRemote, Compiles, Assemble, PlanItem, Reads, RowBehind, Asks,
      MembershipIdentity, DigestOf;
    var b := PlanCompiles(m, remote);
    var r, i := OperationItem(m, remote, b, p);
    var item := b.Items(m, r)[i];
    PlannedBefore(r, b.c, item, ops[p]);
    CompiledContext(m, remote, b);
    user, entity := "", "";
    if r == Memberships {
      user, entity := PyStr(Get(item, "user")), PyStr(Get(item, "entity"));
      ItemNames(m, i);
      assert item in m.memberships;
      ItemAsks(m, remote, item);
    }
    ReadIsBehind(m, remote, b.c, r, KeyOf(r, item), user, entity);
  }

  // ---- the check is exact ---------------------------------------------------------------------

  /** Nothing in either place, or rows with the same fields whose canonical values agree one by one. */
  ghost predicate SameValues(a: Option<Dict>, b: Option<Dict>) {
    match (a, b)
    case (None, None) => true
    case (Some(x), Some(y)) => x.Keys == y.Keys && forall f | f in x :: Canonical(x[f]) == Canonical(y[f])
    case _ => false
  }

  /** The digest tells exactly that. */
  lemma DigestsAgreeIff(a: Option<Dict>, b: Option<Dict>)
    ensures DigestOf(a) == DigestOf(b) <==> SameValues(a, b)
  {
    hide Canonical;
    if a.Some? && b.Some? {
      assert RowDigest(a.value).Keys == a.value.Keys && RowDigest(b.value).Keys == b.value.Keys;
      if RowDigest(a.value) == RowDigest(b.value) {
        forall f | f in a.value ensures Canonical(a.value[f]) == Canonical(b.value[f]) {
          assert RowDigest(a.value)[f] == RowDigest(b.value)[f];
        }
      }
    }
  }

  /** The store holds the same under the operation's identity as another store. */
  ghost predicate SameBehind(now: Remote, remote: Remote, op: Operation) {
    SameValues(RowBehind(now, op.resource, Fold(op.identity)), RowBehind(remote, op.resource, Fold(op.identity)))
  }

  lemma UnmovedIff(m: Manifest, remote: Remote, now: Remote, ops: seq<Operation>, p: nat)
    requires ValidManifest(m) && PlainMembershipNames(m) && ValidRemote(remote) && Plan(m, remote) == Success(ops)
    requires p < |ops|
    requires ValidRemote(now)
    ensures FetchSnapshot(now, Synthetic(ops)).Success?
    ensures Unmoved(FetchSnapshot(now, Synthetic(ops)).value, ops[p]) <==> SameBehind(now, remote, ops[p])
    ensures CurrentFor(FetchSnapshot(now, Synthetic(ops)).value, ops[p]) ==
      RowBehind(now, ops[p].resource, Fold(ops[p].identity))
  {
    hide FetchSnapshot, Synthetic, Plan, ValidManifest, PlainMembershipNames, ValidRemote, RowBehind, CurrentFor,
      DigestOf, WellNamed, SameValues;
    var user, entity := PlannedFromBehind(m, remote, ops, p);
    CurrentIsBehind(now, ops, ops[p], user, entity);
    DigestsAgreeIff(RowBehind(now, ops[p].resource, Fold(ops[p].identity)),
                    RowBehind(remote, ops[p].resource, Fold(ops[p].identity)));
  }

  /** The check lets a plan pass exactly when nothing it was made from has changed. */
  lemma DriftFreeIff(m: Manifest, remote: Remote, now: Remote, ops: seq<Operation>)
    requires ValidManifest(m) && PlainMembershipNames(m) && ValidRemote(remote) && Plan(m, remote) == Success(ops)
    requires ValidRemote(now)
    ensures CheckDrift(now, ops).Success? <==> forall p | 0 <= p < |ops| :: SameBehind(now, remote, ops[p])
  {
    hide FetchSnapshot, Synthetic, Plan, ValidManifest, PlainMembershipNames, ValidRemote, SameBehind, Unmoved;
    SyntheticRead(now, ops);
    var s := FetchSnapshot(now, Synthetic(ops)).value;
    forall p | 0 <= p < |ops| ensures Unmoved(s, ops[p]) <==> SameBehind(now, remote, ops[p]) {
      UnmovedIff(m, remote, now, ops, p);
    }
    NoDriftIff(s, ops);
  }

  /** A rejected plan is told what has changed: in the order of the plan exactly the operations behind which something
      has, each with the digest of what is there now, or with none where nothing is stored any more. Nothing else makes
      the check fail. */
  lemma DriftIsReported(m: Manifest, remote: Remote, now: Remote, ops: seq<Operation>) returns (places: seq<nat>)
    requires ValidManifest(m) && PlainMembershipNames(m) && ValidRemote(remote) && Plan(m, remote) == Success(ops)
    requires ValidRemote(now) && CheckDrift(now, ops).Failure?
    ensures CheckDrift(now, ops).error.DriftDetected?
    ensures forall k, l | 0 <= k < l < |places| :: places[k] < places[l]
    ensures forall p: nat :: p in places <==> p < |ops| && !SameBehind(now, remote, ops[p])
    ensures var entries := CheckDrift(now, ops).error.entries;
      && |entries| == |places|
      && forall k | 0 <= k < |entries| ::
           && places[k] < |ops| && entries[k].operation == ops[places[k]]
           && entries[k].actual == match RowBehind(now, ops[places[k]].resource, Fold(ops[places[k]].identity))
                case None => None
                case Some(row) => Some(RowDigest(row))
  {
    hide FetchSnapshot, Synthetic, Plan, ValidManifest, PlainMembershipNames, ValidRemote, SameBehind, Unmoved,
      CurrentFor, RowBehind;
    SyntheticRead(now, ops);
    var s := FetchSnapshot(now, Synthetic(ops)).value;
    forall p | 0 <= p < |ops|
      ensures Unmoved(s, ops[p]) <==> SameBehind(now, remote, ops[p])
      ensures CurrentFor(s, ops[p]) == RowBehind(now, ops[p].resource, Fold(ops[p].identity))
    {
      UnmovedIff(m, remote, now, ops, p);
    }
    places := Reported(s, ops);
  }

  /** In particular a plan never drifts on the store it was made from. */
  lemma UnchangedNeverDrifts(m: Manifest, remote: Remote, ops: seq<Operation>)
    requires ValidManifest(m) && PlainMembershipNames(m) && ValidRemote(remote) && Plan(m, remote) == Success(ops)
    ensures CheckDrift(remote, ops).Success?
    ensures FetchSnapshot(remote, Synthetic(ops)) == Success(CheckDrift(remote, ops).value)
  {
    hide FetchSnapshot, Synthetic, Plan, ValidManifest, PlainMembershipNames, ValidRemote;
    DriftFreeIff(m, remote, remote, ops);
    SyntheticRead(remote, ops);
  }
}
