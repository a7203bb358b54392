/** The main theorem: a complete application reaches the declared state, and planning again says so. */
module SecondApply {
  import opened Outcomes
  import opened Text
  import opened JsonValues
  import opened Manifests
  import opened RemoteStore
  import opened DeleteDepth
  import opened Planner
  import opened PlanShape
  import opened SnapshotFacts
  import opened Executor
  import opened RunFacts
  import opened References
  import opened ReferenceSafety
  import opened RunOfPlan
  import opened FinalState
  import opened Convergence
  import opened FinalMemberships
  import opened SecondPlan
  import opened SecondMemberships
  import opened MembershipsAgain

  // ---- present memberships --------------------------------------------------------------------

  /** The second call finds the pair's membership under the item's identity. */
  lemma PairRead(m: Manifest, remote: Remote, b: Blueprint, run: Run, c: Context, i: nat, e: string, u: string)
    requires Again(m, remote, b, run, c) && Pair(m, remote, b, run, i, e, u) && (e, u) in Final(run).memberships
    ensures u in Final(run).users && e in Final(run).entities
    ensures KeyOf(Memberships, m.memberships[i]) in c.memberships
    ensures c.memberships[KeyOf(Memberships, m.memberships[i])] == JoinOf(Final(run), e, u)
  {
    hide ContextOf, RunTo, PlanItem, PlanItems, EmailKey, LookupOrRef, PlannedRoleIds, PlannedEntity, ValidRemote,
      FoldedIdentity, FoldDistinct, Compiles, ValidManifest, PlainSlugs, PlainMembershipNames, NoAbsentReferences,
      PlainReferences, IdsMatch, CreatesKey, MembershipIdentity;
    PairKey(m, Final(run), i, e, u);
    MembershipFound(m, Final(run), c, e, u);
  }

  lemma PairPlans(c: Context, item: Dict)
    requires Present(item) && UserKey(item) in c.users && PlannedEntity(c, item).Success?
    requires PlannedRoleIds(c, item).Success?
    requires KeyOf(Memberships, item) in c.memberships
    ensures PlanItem(Memberships, c, item).Success? && PlanItem(Memberships, c, item).value.deletes == []
    ensures PlanItem(Memberships, c, item).value.changes == [] <==>
      Changed(c, item, c.memberships[KeyOf(Memberships, item)]) == map[]
  {
    hide PlanMembership, Wanted, WithReason, ManagedDiff, PlannedRoleIds, PlannedEntity;
    MembershipPlanned(c, item);
  }

  lemma EntityAgain(m: Manifest, remote: Remote, b: Blueprint, run: Run, c: Context, i: nat)
    requires Again(m, remote, b, run, c) && i < |m.memberships| && Present(m.memberships[i])
    requires PlannedEntity(b.c, m.memberships[i]).Success?
    ensures PlannedEntity(c, m.memberships[i]).Success?
  {
    hide Applies, ContextOf, RunTo, ValidRemote, DeclaredAbsent, PlainReferences, IdsMatch, LookupOrRef;
    assert Reads(m, Entities);
    var id := LookupAgain(m, remote, b, run, c, Entities, PyStr(Get(m.memberships[i], "entity")));
  }

  lemma PresentMembershipAgain(m: Manifest, remote: Remote, b: Blueprint, run: Run, c: Context, i: nat)
    requires Again(m, remote, b, run, c) && i < |m.memberships| && Present(m.memberships[i])
    ensures PlanItem(Memberships, b.c, m.memberships[i]).Success? && PlanItem(Memberships, c, m.memberships[i]).Success?
    ensures PlanItem(Memberships, c, m.memberships[i]).value.deletes == []
    ensures PlanItem(Memberships, c, m.memberships[i]).value.changes == [] <==>
      Plain(Memberships, b.c, m.memberships[i])
  {
    hide Applied, ContextOf, RunTo, PlanItem, PlanItems, EmailKey, UserAsked, LookupOrRef, PlannedRoleIds,
      PlannedEntity, ValidRemote, Denotes, Canonical, RefFree, ManagedFields, Changed, Written;
    var item := m.memberships[i];
    assert item in m.memberships;
    var e, u := ItemPair(m, remote, b, run, i);
    RolesAgain(m, remote, b, run, c, item);
    EntityAgain(m, remote, b, run, c, i);
    PairStored(m, remote, b, run, i, e, u);
    PairRead(m, remote, b, run, c, i, e, u);
    PairPlans(c, item);
    PairUnchangedIff(m, remote, b, run, c, i, e, u);
  }

  lemma PairStored(m: Manifest, remote: Remote, b: Blueprint, run: Run, i: nat, e: string, u: string)
    requires Applied(m, remote, b, run) && Pair(m, remote, b, run, i, e, u)
    ensures (e, u) in Final(run).memberships
  {
    hide Applied, RunTo, PlanItem, PlanItems, Denotes, Resolve, UserAsked, EmailKey, Changed, PlannedRoleIds,
      PlannedEntity;
    var item := m.memberships[i];
    if KeyOf(Memberships, item) in b.c.memberships {
      PairUpdate(b, item);
      var p := StoredPairField(m, remote, b, run, i, e, u, "status",
        Changed(b.c, item, b.c.memberships[KeyOf(Memberships, item)]));
    } else {
      var p := NewPairField(m, remote, b, run, i, e, u, "status");
    }
  }

  lemma PairUnchangedIff(m: Manifest, remote: Remote, b: Blueprint, run: Run, c: Context, i: nat, e: string, u: string)
    requires Again(m, remote, b, run, c) && Pair(m, remote, b, run, i, e, u)
    requires (e, u) in Final(run).memberships && u in Final(run).users && e in Final(run).entities
    requires PlannedRoleIds(c, m.memberships[i]).Success?
    ensures Changed(c, m.memberships[i], JoinOf(Final(run), e, u)) == map[] <==>
      Plain(Memberships, b.c, m.memberships[i])
  {
    hide Applied, ContextOf, RunTo, PlanItem, PlanItems, EmailKey, UserAsked, LookupOrRef, PlannedRoleIds,
      PlannedEntity, ValidRemote, Denotes, Canonical, RefFree, ManagedFields, Changed, JoinOf, Written;
    var item := m.memberships[i];
    var row := JoinOf(Final(run), e, u);
    ComparedFields();
    NothingChangedIff(c, item, row);
    JoinField(Final(run), e, u, "role_ids");
    if "roles" in item {
      PairRoles(m, remote, b, run, c, i, e, u);
    }
    forall f | f in item && f in ManagedFields(Memberships)
      ensures Canonical(Get(row, f)) == Canonical(item[f]) <==>
        (Written(Memberships, b.c, item, f) ==> RefFree(item[f]))
    {
      JoinField(Final(run), e, u, f);
      PairManagedField(m, remote, b, run, i, e, u, f);
    }
    assert forall f :: Written(Memberships, b.c, item, f) ==> f in ManagedFields(Memberships) by {
      WrittenIsManaged(b.c, item);
    }
  }

  lemma WrittenIsManaged(c: Context, item: Dict)
    requires PlanItem(Memberships, c, item).Success?
    ensures forall f :: Written(Memberships, c, item, f) ==> f in ManagedFields(Memberships)
  {
    hide PlanItem, ManagedFields;
  }

  // ---- absent memberships ---------------------------------------------------------------------

  lemma {:induction false} MembershipStays(run: Run, n: nat, j: nat, k: (string, string))
    requires run.Ran(n) && j <= n && k in run.start.remote.memberships
    requires forall q | 0 <= q < j :: run.ops[q].verb != Delete
    ensures k in run.Remote(j).memberships
    decreases j
  {
    hide RunTo, Serve;
    if j == 0 {
      StartOfRun(run);
    } else {
      MembershipStays(run, n, j - 1, k);
      RanStep(run, n, j - 1);
      ServeKeepsMembershipPresence(run.Remote(j - 1), run.ops[j - 1].verb, run.ops[j - 1].path, run.Body(j - 1),
        run.replies(j - 1).id, k);
    }
  }

  lemma ServeKeepsMembershipPresence(s: Remote, verb: Verb, path: Path, body: Option<Dict>, newId: string,
                                     k: (string, string))
    requires verb != Delete && k in s.memberships && Serve(s, verb, path, body, newId).Some?
    ensures k in Serve(s, verb, path, body, newId).value.memberships
  {
  }

  /** An entity that joins an original membership, as the final store names it, was stored under that name before. */
  lemma JoinedEntityIsOld(m: Manifest, remote: Remote, b: Blueprint, run: Run, e: string, u: string, key: string)
    requires Applied(m, remote, b, run) && (e, u) in remote.memberships
    requires e in Final(run).entities && FoldedIdentity(Entities, Final(run).entities[e]) == Some(key)
    ensures e in remote.entities && FoldedIdentity(Entities, remote.entities[e]) == Some(key)
  {
    hide Compiles, ValidManifest, FoldDistinct, FoldedIdentity, RunTo, PlainSlugs, PlainMembershipNames,
      NoAbsentReferences, PlainReferences, IdsMatch, ValidRemote, ValidRow, CreatesKey;
    RowAt(m, remote, b, run, |run.ops|, Entities, e);
    if q :|
      0 <= q < |run.ops| && CreatesKey(run.ops[q], Entities, key) && run.replies(q).Accepted?
      && run.replies(q).id == e {
      CreatedPath(run.ops[q], Entities, key);
      FreshIdJoinsNothing(m, remote, b, run, q, e, u);
    }
  }

  lemma FreshIdJoinsNothing(m: Manifest, remote: Remote, b: Blueprint, run: Run, q: nat, e: string, u: string)
    requires Applied(m, remote, b, run) && (e, u) in remote.memberships
    requires q < |run.ops| && run.ops[q].path == Collection(Entities) && run.replies(q).Accepted?
    ensures run.replies(q).id != e
  {
    hide Compiles, ValidManifest, FoldDistinct, RunTo, PlainSlugs, PlainMembershipNames, NoAbsentReferences,
      PlainReferences, IdsMatch, ValidRemote, Mentions;
    CollectionIsCreation(m, remote, b, q, Entities);
    forall k | 0 <= k < q ensures run.ops[k].verb != Delete {
      ChangesDoNotDelete(m, remote, b, k);
    }
    MembershipStays(run, |run.ops|, q, (e, u));
    RanStep(run, |run.ops|, q);
    assert Unused(run.Remote(q), run.replies(q).id);
    assert (e, u).0 == e;
  }

  /** The deletion of an original membership sticks. */
  lemma DeletedMembershipGone(m: Manifest, remote: Remote, b: Blueprint, run: Run, q: nat, e: string, u: string)
    requires Applied(m, remote, b, run) && b.ChangeCount() <= q < |run.ops|
    requires run.ops[q].verb == Delete && run.ops[q].path == MembershipOf(e, u)
    ensures (e, u) !in Final(run).memberships
  {
    hide Compiles, ValidManifest, FoldDistinct, RunTo, PlainSlugs, PlainMembershipNames, NoAbsentReferences,
      PlainReferences, IdsMatch, ValidRemote, Assemble;
    RanStep(run, |run.ops|, q);
    forall p | q + 1 <= p < |run.ops| ensures run.ops[p].path != Collection(Memberships) {
      DeletesDoNotCreate(m, remote, b, p, Memberships);
    }
    MembershipStaysGone(run, |run.ops|, q + 1, |run.ops|, (e, u));
  }

  /** The pair of a membership the plan created is that of a present item. */
  lemma CreatedPair(m: Manifest, remote: Remote, b: Blueprint, run: Run, q: nat) returns (i: nat, e: string, u: string)
    requires Applied(m, remote, b, run) && q < |run.ops| && run.ops[q].path == Collection(Memberships)
    ensures Pair(m, remote, b, run, i, e, u)
    ensures Get(AttributesOf(run.Body(q)), "entity_id") == Str(e) && Get(AttributesOf(run.Body(q)), "user_id") == Str(u)
  {
    hide Compiles, ValidManifest, FoldDistinct, RunTo, PlainSlugs, PlainMembershipNames, NoAbsentReferences, PlanItem,
      PlanItems, PlainReferences, IdsMatch, ValidRemote, Assemble, EmailKey, UserAsked, Denotes, Resolve;
    var u': string;
    i, u' := CreatedMembership(m, remote, b, run, |run.ops|, q);
    e, u := ItemPair(m, remote, b, run, i);
    SameUser(remote, u, u');
    assert Reads(m, Entities);
    LookupMeans(m, remote, b, run, |run.ops|, q, Entities, PyStr(Get(m.memberships[i], "entity")), e);
  }

  lemma CreatedNotAbsent(m: Manifest, remote: Remote, b: Blueprint, run: Run, q: nat, e: string, u: string)
    requires Applied(m, remote, b, run) && ValidRemote(Final(run)) && Final(run).users == remote.users
    requires q < |run.ops| && run.ops[q].path == Collection(Memberships)
    requires (e, u) ==
      (PyStr(Get(AttributesOf(run.Body(q)), "entity_id")), PyStr(Get(AttributesOf(run.Body(q)), "user_id")))
    requires e in Final(run).entities && u in Final(run).users
    ensures !DeclaredAbsent(m, Memberships, PairIdentity(Final(run), e, u))
  {
    hide Compiles, ValidManifest, FoldDistinct, RunTo, PlainSlugs, PlainMembershipNames, NoAbsentReferences, PlanItem,
      PlanItems, PlainReferences, IdsMatch, ValidRemote, Assemble, EmailKey, UserAsked, PairIdentity, CreatesKey,
      FoldedIdentity, DeclaredAbsent;
    var i, e', u' := CreatedPair(m, remote, b, run, q);
    PairKey(m, Final(run), i, e, u);
    PresentNotAbsent(m, remote, b, Memberships, i);
  }

  /** No membership of the final store bears an identity that is declared absent. */
  lemma AbsentMembershipGone(m: Manifest, remote: Remote, b: Blueprint, run: Run, e: string, u: string)
    requires Applied(m, remote, b, run) && ValidRemote(Final(run)) && Final(run).users == remote.users
    requires (e, u) in Final(run).memberships && e in Final(run).entities && u in Final(run).users
    requires UserAsked(remote, m.memberships, u)
    ensures !DeclaredAbsent(m, Memberships, PairIdentity(Final(run), e, u))
  {
    hide Compiles, ValidManifest, FoldDistinct, RunTo, PlainSlugs, PlainMembershipNames, NoAbsentReferences, PlanItem,
      PlanItems, PlainReferences, IdsMatch, ValidRemote, Assemble, EmailKey, UserAsked, PairIdentity, CreatesKey,
      FoldedIdentity, DeclaredAbsent, RowDigest;
    MembershipOrigin(run, |run.ops|, |run.ops|, (e, u));
    if (e, u) in remote.memberships {
      if DeclaredAbsent(m, Memberships, PairIdentity(Final(run), e, u)) {
        OldPairKept(m, remote, b, run, e, u);
        PairFiled(m, remote, b, e, u);
        FiledPath(m, remote, b, e, u);
        var q := AbsentIsPlanned(m, remote, b, Memberships, PairIdentity(remote, e, u));
        DeletedMembershipGone(m, remote, b, run, q, e, u);
      }
    } else {
      var q :| 0 <= q < |run.ops| && run.ops[q].path == Collection(Memberships) &&
        (e, u) == (PyStr(Get(AttributesOf(run.Body(q)), "entity_id")),
          PyStr(Get(AttributesOf(run.Body(q)), "user_id")));
      CreatedNotAbsent(m, remote, b, run, q, e, u);
    }
  }

  lemma FiledPath(m: Manifest, remote: Remote, b: Blueprint, e: string, u: string)
    requires Compiles(m, remote, b) && ValidRemote(remote) && UserAsked(remote, m.memberships, u)
    requires e in remote.entities && (e, u) in remote.memberships
    ensures PairIdentity(remote, e, u) in b.c.memberships
    ensures ElementPath(Memberships, b.c.memberships[PairIdentity(remote, e, u)]) == MembershipOf(e, u)
  {
    hide Compiles, ContextOf, ValidRemote, MembershipIdentity, PairIdentity, ElementPath;
    CompiledContext(m, remote, b);
    assert u in remote.users;
    PairIdentityIs(remote, e, u);
    MembershipFound(m, remote, b.c, e, u);
    JoinPath(remote, JoinOf(remote, e, u), e, u);
  }

  lemma OldPairKept(m: Manifest, remote: Remote, b: Blueprint, run: Run, e: string, u: string)
    requires Applied(m, remote, b, run) && ValidRemote(Final(run)) && Final(run).users == remote.users
    requires (e, u) in remote.memberships && e in Final(run).entities && u in Final(run).users
    ensures e in remote.entities && PairIdentity(remote, e, u) == PairIdentity(Final(run), e, u)
  {
    hide Compiles, ValidManifest, FoldDistinct, RunTo, PlainSlugs, PlainMembershipNames, NoAbsentReferences,
      PlainReferences, IdsMatch, ValidRemote, FoldedIdentity;
    SlugOf(Final(run), e);
    JoinedEntityIsOld(m, remote, b, run, e, u, Fold(Get(Final(run).entities[e], "slug").s));
    SlugOf(remote, e);
  }

  lemma AbsentMembershipAgain(m: Manifest, remote: Remote, b: Blueprint, run: Run, c: Context, item: Dict)
    requires Again(m, remote, b, run, c) && item in m.memberships && !Present(item)
    ensures PlanItem(Memberships, c, item) == Success(NOTHING)
  {
    hide Applied, ContextOf, RunTo, ValidRemote, PlanItem, PairIdentity, UserAsked, IsJoin;
    var key := KeyOf(Memberships, item);
    assert DeclaredAbsent(m, Memberships, key) by {
      assert item in m.Items(Memberships);
    }
    if key in c.memberships {
      var e, u := FoundMembership(m, Final(run), c, key);
      JoinEnds(Final(run), c.memberships[key], e, u);
      SameAsked(remote, Final(run), m.memberships, u);
      PairIdentityIs(Final(run), e, u);
      AbsentMembershipGone(m, remote, b, run, e, u);
    } else {
      AbsentPlans(Memberships, c, item);
    }
  }

  lemma SameAsked(s: Remote, s': Remote, desired: seq<Dict>, u: string)
    requires s'.users == s.users
    ensures UserAsked(s', desired, u) == UserAsked(s, desired, u)
  {
  }

  // ---- the whole plan -------------------------------------------------------------------------

  lemma MembershipItemAgain(m: Manifest, remote: Remote, b: Blueprint, run: Run, c: Context, i: nat)
    requires Again(m, remote, b, run, c) && i < |m.memberships|
    ensures PlanItem(Memberships, b.c, m.memberships[i]).Success? && PlanItem(Memberships, c, m.memberships[i]).Success?
    ensures PlanItem(Memberships, c, m.memberships[i]).value.deletes == []
    ensures PlanItem(Memberships, c, m.memberships[i]).value.changes == [] <==>
      Plain(Memberships, b.c, m.memberships[i])
  {
    hide Compiles, ValidManifest, FoldDistinct, ContextOf, RunTo, PlanItem, PlanItems, RefFree, ValidRemote,
      PlainSlugs, PlainMembershipNames, NoAbsentReferences, PlainReferences, IdsMatch;
    ItemPlanned(m, remote, b, Memberships, i);
    ItemOperations(Memberships, b.c, m.memberships[i]);
    if Present(m.memberships[i]) {
      PresentMembershipAgain(m, remote, b, run, c, i);
    } else {
      AbsentMembershipAgain(m, remote, b, run, c, m.memberships[i]);
    }
  }

  /** One group planned again. */
  ghost predicate QuietGroup(r: Resource, c: Context, items: seq<Dict>) {
    forall i | 0 <= i < |items| ::
      PlanItem(r, c, items[i]).Success? && PlanItem(r, c, items[i]).value.deletes == []
  }

  lemma {:induction false} GroupAgain(r: Resource, c: Context, items: seq<Dict>)
    requires QuietGroup(r, c, items)
    ensures PlanItems(r, c, items).Success? && PlanItems(r, c, items).value.deletes == []
    ensures PlanItems(r, c, items).value.changes == [] <==>
      forall i | 0 <= i < |items| :: PlanItem(r, c, items[i]).value.changes == []
  {
    hide PlanItem;
    if items != [] {
      var n := |items| - 1;
      assert forall i | 0 <= i < n :: items[..n][i] == items[i];
      GroupAgain(r, c, items[..n]);
    }
  }

  /** Every value the plan carries for the items of a group is plain. */
  ghost predicate PlainGroup(m: Manifest, b: Blueprint, r: Resource) {
    forall i | 0 <= i < |b.Items(m, r)| && PlanItem(r, b.c, b.Items(m, r)[i]).Success? ::
      Plain(r, b.c, b.Items(m, r)[i])
  }

  lemma ItemAgain(m: Manifest, remote: Remote, b: Blueprint, run: Run, c: Context, r: Resource, i: nat)
    requires Again(m, remote, b, run, c) && i < |b.Items(m, r)|
    ensures PlanItem(r, b.c, b.Items(m, r)[i]).Success? && PlanItem(r, c, b.Items(m, r)[i]).Success?
    ensures PlanItem(r, c, b.Items(m, r)[i]).value.deletes == []
    ensures PlanItem(r, c, b.Items(m, r)[i]).value.changes == [] <==> Plain(r, b.c, b.Items(m, r)[i])
  {
    hide Again, PlanItem, Plain;
    if r == Memberships {
      MembershipItemAgain(m, remote, b, run, c, i);
    } else {
      PlainItemAgain(m, remote, b, run, c, r, i);
    }
  }

  lemma PlanGroupAgain(m: Manifest, remote: Remote, b: Blueprint, run: Run, c: Context, r: Resource)
    requires Again(m, remote, b, run, c)
    ensures PlanItems(r, c, b.Items(m, r)).Success? && PlanItems(r, c, b.Items(m, r)).value.deletes == []
    ensures PlanItems(r, c, b.Items(m, r)).value.changes == [] <==> PlainGroup(m, b, r)
  {
    hide Again, PlanItem, PlanItems, Plain;
    forall i | 0 <= i < |b.Items(m, r)|
      ensures PlanItem(r, b.c, b.Items(m, r)[i]).Success? && PlanItem(r, c, b.Items(m, r)[i]).Success?
      ensures PlanItem(r, c, b.Items(m, r)[i]).value.deletes == []
      ensures PlanItem(r, c, b.Items(m, r)[i]).value.changes == [] <==> Plain(r, b.c, b.Items(m, r)[i])
    {
      ItemAgain(m, remote, b, run, c, r, i);
    }
    GroupAgain(r, c, b.Items(m, r));
  }

  /** No operation of the plan carries a manifest value that holds a placeholder. */
  ghost predicate PlainManaged(ops: seq<Operation>) {
    forall p, f | 0 <= p < |ops| && ops[p].body.Some? && f in ops[p].body.value &&
      f in ManagedFields(ops[p].resource) ::
      RefFree(ops[p].body.value[f])
  }

  /** The managed fields of a planned body are the item's own. */
  lemma CarriedValue(r: Resource, c: Context, item: Dict, op: Operation, f: string)
    requires PlanItem(r, c, item).Success? && op in PlanItem(r, c, item).value.changes && op.body.Some?
    requires f in op.body.value && f in ManagedFields(r)
    ensures f in item && op.body.value[f] == item[f] && Written(r, c, item, f)
  {
    hide PlanItem, ManagedFields, ManagedDiff, Canonical, PlannedRoleIds, Wanted;
    ManagedNotLookedUp(r);
    ItemOperations(r, c, item);
    if r == Memberships {
      CarriedMembershipValue(c, item, op, f);
    } else if KeyOf(r, item) in c.Current(r) {
      CarriedUpdate(r, c, item, op, f);
    } else {
      CreationBody(r, c, item);
    }
  }

  lemma CarriedUpdate(r: Resource, c: Context, item: Dict, op: Operation, f: string)
    requires r != Memberships && Present(item) && PlanItem(r, c, item).Success? && KeyOf(r, item) in c.Current(r)
    requires op in PlanItem(r, c, item).value.changes && op.body.Some? && f in op.body.value && f in ManagedFields(r)
    ensures f in item && op.body.value[f] == item[f]
  {
    hide PlanItem, ManagedFields, Canonical;
    ManagedNotLookedUp(r);
    ExistingChanges(r, c, item);
  }

  lemma CarriedMembershipValue(c: Context, item: Dict, op: Operation, f: string)
    requires Present(item) && PlanItem(Memberships, c, item).Success?
    requires op in PlanItem(Memberships, c, item).value.changes
    requires op.body.Some? && f in op.body.value && f in ManagedFields(Memberships)
    ensures f in item && op.body.value[f] == item[f]
  {
    hide PlanItem, PlanMembership, ManagedFields, Canonical, PlannedRoleIds, PlannedEntity;
    ComparedFields();
    PlansMembership(c, item);
    MembershipReferences(c, item);
    if KeyOf(Memberships, item) in c.memberships {
      MembershipPlanned(c, item);
    } else {
      MembershipCreated(c, item);
    }
  }

  lemma CarriedPlainly(m: Manifest, remote: Remote, b: Blueprint, r: Resource, i: nat)
    requires Compiles(m, remote, b) && PlainManaged(b.Ops())
    requires i < |b.Items(m, r)| && PlanItem(r, b.c, b.Items(m, r)[i]).Success?
    ensures Plain(r, b.c, b.Items(m, r)[i])
  {
    hide Compiles, PlanItem, PlanItems, ManagedFields, RefFree, Assemble;
    var item := b.Items(m, r)[i];
    forall f | f in item && Written(r, b.c, item, f) ensures RefFree(item[f]) {
      var changes := PlanItem(r, b.c, item).value.changes;
      var op :| op in changes && op.body.Some? && f in op.body.value;
      var k :| 0 <= k < |changes| && changes[k] == op;
      var p := ItemOperationAt(m, remote, b, r, i, k);
      ItemOperations(r, b.c, item);
      CarriedValue(r, b.c, item, op, f);
    }
  }

  lemma CarriedByItem(m: Manifest, remote: Remote, b: Blueprint, p: nat, f: string)
    requires Compiles(m, remote, b) && p < |b.Ops()| && b.Ops()[p].body.Some?
    requires f in b.Ops()[p].body.value && f in ManagedFields(b.Ops()[p].resource)
    requires forall r: Resource :: PlainGroup(m, b, r)
    ensures RefFree(b.Ops()[p].body.value[f])
  {
    hide Compiles, PlanItem, PlanItems, ManagedFields, RefFree, Assemble, Written;
    var r, i := BodyOwner(m, remote, b, p);
    ItemOperations(r, b.c, b.Items(m, r)[i]);
    CarriedValue(r, b.c, b.Items(m, r)[i], b.Ops()[p], f);
    assert PlainGroup(m, b, r);
  }

  lemma PlainManagedIff(m: Manifest, remote: Remote, b: Blueprint)
    requires Compiles(m, remote, b)
    ensures PlainManaged(b.Ops()) <==> forall r: Resource :: PlainGroup(m, b, r)
  {
    hide Compiles, PlanItem, PlanItems, ManagedFields, RefFree, Assemble, Plain;
    if PlainManaged(b.Ops()) {
      forall r: Resource, i | 0 <= i < |b.Items(m, r)| && PlanItem(r, b.c, b.Items(m, r)[i]).Success?
        ensures Plain(r, b.c, b.Items(m, r)[i])
      {
        CarriedPlainly(m, remote, b, r, i);
      }
    }
    if forall r: Resource :: PlainGroup(m, b, r) {
      var ops := b.Ops();
      forall p, f | 0 <= p < |ops| && ops[p].body.Some? && f in ops[p].body.value && f in ManagedFields(ops[p].resource)
        ensures RefFree(ops[p].body.value[f])
      {
        CarriedByItem(m, remote, b, p, f);
      }
    }
  }

  /** The blueprint of the second call. */
  ghost function SecondBlueprint(m: Manifest, b: Blueprint, run: Run, c: Context): Blueprint
    requires FetchSnapshot(Final(run), m).Success?
    requires forall r: Resource :: PlanItems(r, c, b.Items(m, r)).Success?
  {
    Blueprint(c, b.sequence,
              PlanItems(Permissions, c, b.Items(m, Permissions)).value,
                PlanItems(Entities, c, b.Items(m, Entities)).value,
              PlanItems(Roles, c, b.Items(m, Roles)).value, PlanItems(Memberships, c, b.Items(m, Memberships)).value,
              LinksOf(FetchSnapshot(Final(run), m).value.entities))
  }

  lemma SecondCompiles(m: Manifest, remote: Remote, b: Blueprint, run: Run, c: Context)
    requires Again(m, remote, b, run, c)
    requires forall r: Resource :: PlanItems(r, c, b.Items(m, r)).Success?
    ensures FetchSnapshot(Final(run), m).Success?
    ensures Compiles(m, Final(run), SecondBlueprint(m, b, run, c))
  {
    hide FetchSnapshot, MakeContext, PlanItems, ValidManifest, FoldDistinct, RunTo, ValidRemote, PlainSlugs,
      PlainMembershipNames, NoAbsentReferences, PlainReferences, IdsMatch;
    var b2 := SecondBlueprint(m, b, run, c);
    forall r: Resource ensures PlanItems(r, c, b2.Items(m, r)) == Success(b2.Group(r)) {
      assert b2.Items(m, r) == b.Items(m, r);
      match r case Permissions => case Entities => case Roles => case Memberships =>
    }
  }

  lemma NoOperationsIff(b: Blueprint)
    requires forall r: Resource :: b.Group(r).deletes == []
    ensures b.Ops() == [] <==> forall r: Resource :: b.Group(r).changes == []
  {
    assert b.Group(Permissions) == b.permissions && b.Group(Entities) == b.entities;
    assert b.Group(Roles) == b.roles && b.Group(Memberships) == b.memberships;
    if b.Ops() == [] {
      forall r: Resource ensures b.Group(r).changes == [] {
        match r case Permissions => case Entities => case Roles => case Memberships =>
      }
    }
  }

  lemma SecondPlanOf(m: Manifest, remote: Remote, b: Blueprint, run: Run, c: Context)
    requires Again(m, remote, b, run, c)
    ensures Plan(m, Final(run)).Success? &&
      (Plan(m, Final(run)).value == [] <==> forall r: Resource :: PlainGroup(m, b, r))
  {
    hide Again, PlanItems, PlainGroup, Compiles, Assemble, Plan;
    forall r: Resource
      ensures PlanItems(r, c, b.Items(m, r)).Success? && PlanItems(r, c, b.Items(m, r)).value.deletes == []
      ensures PlanItems(r, c, b.Items(m, r)).value.changes == [] <==> PlainGroup(m, b, r)
    {
      PlanGroupAgain(m, remote, b, run, c, r);
    }
    SecondCompiles(m, remote, b, run, c);
    var b2 := SecondBlueprint(m, b, run, c);
    CompiledIsPlan(m, Final(run), b2);
    forall r: Resource ensures b2.Group(r) == PlanItems(r, c, b.Items(m, r)).value {
      match r case Permissions => case Entities => case Roles => case Memberships =>
    }
    NoOperationsIff(b2);
  }

  /** What a caller of plan and apply can see: the plan was made from this very store for a valid manifest without
      colliding or absent-but-referenced names, the ids known at the start are those of stored rows, and no request was
      refused. */
  ghost predicate CompleteRun(m: Manifest, remote: Remote, run: Run) {
    && ValidManifest(m) && FoldDistinct(m) && PlainSlugs(m) && PlainMembershipNames(m) && NoAbsentReferences(m)
    && ValidRemote(remote) && PlainReferences(remote)
    && Plan(m, remote) == Success(run.ops)
    && run.start.remote == remote && run.start.failure == None && IdsMatch(remote, run.start.ids)
    && NeverFails(run)
  }

  /** Convergence. After a complete run planning succeeds again, and it finds nothing to do exactly when the manifest
      values the first plan carried hold no placeholder of their own. */
  lemma SecondPlanEmptyIff(m: Manifest, remote: Remote, run: Run)
    requires CompleteRun(m, remote, run)
    ensures Plan(m, Final(run)).Success?
    ensures Plan(m, Final(run)) == Success([]) <==> PlainManaged(run.ops)
  {
    hide Plan, ValidManifest, FoldDistinct, PlainSlugs, PlainMembershipNames, NoAbsentReferences, ValidRemote,
      PlainReferences, IdsMatch, RunTo, Compiles, Assemble, PlainGroup, PlainManaged;
    RanThroughout(run);
    var b := PlanCompiles(m, remote);
    var c := SecondContext(m, remote, b, run);
    SecondPlanOf(m, remote, b, run, c);
    PlainManagedIff(m, remote, b);
  }
}
