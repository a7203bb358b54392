/** Planning again after a plan has been applied completely: memberships. */
module MembershipsAgain {
  import opened Outcomes
  import opened JsonValues
  import opened Manifests
  import opened RemoteStore
  import opened Planner
  import opened PlanShape
  import opened SnapshotFacts
  import opened Executor
  import opened RunFacts
  import opened References
  import opened RunOfPlan
  import opened FinalState
  import opened Convergence
  import opened FinalMemberships
  import opened SecondPlan
  import opened SecondMemberships

  // ---- role ids -------------------------------------------------------------------------------

  ghost predicate AllText(roles: seq<Json>) {
    forall i | 0 <= i < |roles| :: roles[i].Str?
  }

  /** Role ids are looked up one by one. */
  lemma {:induction false} RoleIdsAt(c: Context, roles: seq<Json>)
    requires forall x <- roles :: x.Str?
    ensures RoleIds(c, roles).Success? <==>
      forall i | 0 <= i < |roles| :: LookupOrRef(Roles, roles[i].s, c.roles, c.presentRoles).Success?
    ensures RoleIds(c, roles).Success? ==> |RoleIds(c, roles).value| == |roles|
    ensures RoleIds(c, roles).Success? ==>
      forall i | 0 <= i < |roles| ::
        LookupOrRef(Roles, roles[i].s, c.roles, c.presentRoles) == Success(RoleIds(c, roles).value[i])
  {
    hide LookupOrRef;
    if roles != [] {
      var n := |roles| - 1;
      assert roles[n] in roles;
      assert forall x <- roles[..n] :: x in roles;
      assert forall i | 0 <= i < n :: roles[..n][i] == roles[i];
      RoleIdsAt(c, roles[..n]);
    }
  }

  lemma {:induction false} ResolvedItems(j: Json, n: nat, ids: Ids, ys: seq<Json>)
    requires j.List? && n <= |j.items| && |ys| == |j.items|
    requires forall i | 0 <= i < |ys| && Resolve(j.items[i], ids).Success? :: Resolve(j.items[i], ids) == Success(ys[i])
    ensures ResolveItems(j, n, ids).Success? ==> ResolveItems(j, n, ids) == Success(ys[..n])
    decreases n
  {
    hide Resolve;
    if n > 0 {
      ResolvedItems(j, n - 1, ids, ys);
      assert ys[..n] == ys[..n - 1] + [ys[n - 1]];
    }
  }

  lemma ResolvedList(j: Json, ids: Ids, ys: seq<Json>)
    requires j.List? && |ys| == |j.items|
    requires forall i | 0 <= i < |ys| && Resolve(j.items[i], ids).Success? :: Resolve(j.items[i], ids) == Success(ys[i])
    ensures Resolve(j, ids).Success? ==> Resolve(j, ids) == Success(List(ys))
  {
    ResolvedItems(j, |ys|, ids, ys);
    assert ys[..|ys|] == ys;
  }

  /** What one role reference was, is, and resolves to. */
  ghost predicate SameRole(run: Run, was: Json, now: Json) {
    && now.Str? && (was.Str? ==> was == now)
    && forall p | 0 <= p <= |run.ops| && Resolve(was, run.At(p).ids).Success? ::
      Resolve(was, run.At(p).ids) == Success(now)
  }

  lemma RoleAgain(m: Manifest, remote: Remote, b: Blueprint, run: Run, c: Context, item: Dict, x: Json)
    requires Again(m, remote, b, run, c) && item in m.memberships && Present(item)
    requires DeclaredRoles(item).List? && x in DeclaredRoles(item).items && x.Str?
    requires LookupOrRef(Roles, x.s, b.c.roles, b.c.presentRoles).Success?
    ensures LookupOrRef(Roles, x.s, c.roles, c.presentRoles).Success?
    ensures SameRole(run, LookupOrRef(Roles, x.s, b.c.roles, b.c.presentRoles).value,
      LookupOrRef(Roles, x.s, c.roles, c.presentRoles).value)
  {
    hide Applies, ContextOf, RunTo, ValidRemote, DeclaredAbsent, PlainReferences, IdsMatch, Resolve, LookupOrRef,
      DeclaredRoles;
    assert Reads(m, Roles);
    var id := LookupAgain(m, remote, b, run, c, Roles, x.s);
    var was := LookupOrRef(Roles, x.s, b.c.roles, b.c.presentRoles).value;
    forall p | 0 <= p <= |run.ops| && Resolve(was, run.At(p).ids).Success?
      ensures Resolve(was, run.At(p).ids) == Success(Str(id)) {
      LookupMeans(m, remote, b, run, |run.ops|, p, Roles, x.s, id);
    }
    if was.Str? {
      TextResolves(was, run.At(0).ids);
    }
  }

  /** The role references of a membership: what they were, what they are, what they resolve to. */
  ghost predicate SameRoles(run: Run, was: seq<Json>, now: seq<Json>) {
    |was| == |now| && forall k | 0 <= k < |was| :: SameRole(run, was[k], now[k])
  }

  lemma RolesAgain(m: Manifest, remote: Remote, b: Blueprint, run: Run, c: Context, item: Dict)
    requires Again(m, remote, b, run, c) && item in m.memberships && Present(item) && PlannedRoleIds(b.c, item).Success?
    ensures PlannedRoleIds(c, item).Success?
    ensures SameRoles(run, PlannedRoleIds(b.c, item).value, PlannedRoleIds(c, item).value)
  {
    hide Again, SameRole, LookupOrRef, DeclaredRoles, RoleIds;
    var roles := DeclaredRoles(item).items;
    RoleIdsAt(b.c, roles);
    RoleIdsAt(c, roles);
    forall k | 0 <= k < |roles|
      ensures LookupOrRef(Roles, roles[k].s, c.roles, c.presentRoles).Success?
      ensures SameRole(run, LookupOrRef(Roles, roles[k].s, b.c.roles, b.c.presentRoles).value,
                       LookupOrRef(Roles, roles[k].s, c.roles, c.presentRoles).value)
    {
      assert roles[k] in roles;
      RoleAgain(m, remote, b, run, c, item, roles[k]);
    }
  }

  lemma SameRolesResolve(run: Run, was: seq<Json>, now: seq<Json>, p: nat)
    requires SameRoles(run, was, now) && p <= |run.ops| && Resolve(List(was), run.At(p).ids).Success?
    ensures Resolve(List(was), run.At(p).ids) == Success(List(now))
  {
    hide RunTo, Resolve;
    forall i | 0 <= i < |now| && Resolve(was[i], run.At(p).ids).Success?
      ensures Resolve(was[i], run.At(p).ids) == Success(now[i]) {
      assert SameRole(run, was[i], now[i]);
    }
    ResolvedList(List(was), run.At(p).ids, now);
  }

  /** Role ids that already agree with a stored list of ids contain no placeholder. */
  lemma AgreeingIdsAreText(stored: Json, ids: seq<Json>)
    requires TextList(stored) && Canonical(stored) == Canonical(List(ids))
    ensures AllText(ids)
  {
    EqualCanonicalLists(stored, List(ids));
    assert AllScalar(stored.items) by {
      assert forall i | 0 <= i < |stored.items| :: stored.items[i] in stored.items;
    }
    forall i | 0 <= i < |ids| ensures ids[i].Str? {
      assert ids[i] in multiset(ids);
      assert ids[i] in stored.items;
    }
  }

  lemma SameTextRoles(run: Run, was: seq<Json>, now: seq<Json>)
    requires SameRoles(run, was, now) && AllText(was)
    ensures was == now
  {
    hide RunTo, Resolve;
    forall k | 0 <= k < |was| ensures was[k] == now[k] {
      assert SameRole(run, was[k], now[k]);
    }
  }

  // ---- fields in the end ----------------------------------------------------------------------

  lemma JoinField(s: Remote, e: string, u: string, f: string)
    requires (e, u) in s.memberships && u in s.users && e in s.entities && f !in {"user", "entity"}
    ensures Get(JoinOf(s, e, u), f) == Get(s.memberships[(e, u)], f)
  {
  }

  /** The body of a membership's update. */
  function Changed(c: Context, item: Dict, row: Dict): Dict {
    WithReason(item, ManagedDiff(row, Wanted(c, item), Wanted(c, item).Keys))
  }

  lemma ComparedFields()
    ensures ManagedFields(Memberships) !! {"role_ids", "reason", "user", "entity", "id"}
  {
  }

  lemma WantedField(c: Context, item: Dict, row: Dict, f: string)
    requires f in ManagedFields(Memberships) && f in item
    ensures f in Changed(c, item, row) <==> Canonical(Get(row, f)) != Canonical(item[f])
    ensures f in Changed(c, item, row) ==> Changed(c, item, row)[f] == item[f]
  {
    hide Canonical, PlannedRoleIds, ManagedFields;
    ComparedFields();
    assert f in Wanted(c, item) && Wanted(c, item)[f] == item[f];
  }

  lemma WantedRoles(c: Context, item: Dict, row: Dict)
    requires "roles" in item && PlannedRoleIds(c, item).Success?
    ensures var ids := List(PlannedRoleIds(c, item).value);
      && ("role_ids" in Changed(c, item, row) <==> Canonical(Get(row, "role_ids")) != Canonical(ids))
      && ("role_ids" in Changed(c, item, row) ==> Changed(c, item, row)["role_ids"] == ids)
  {
    hide Canonical, PlannedRoleIds, ManagedFields;
    assert "role_ids" in Wanted(c, item);
  }

  /** Nothing is updated exactly when every compared field agrees. */
  lemma NothingChangedIff(c: Context, item: Dict, row: Dict)
    requires PlannedRoleIds(c, item).Success?
    ensures Changed(c, item, row) == map[] <==>
      && (forall f | f in item && f in ManagedFields(Memberships) :: Canonical(Get(row, f)) == Canonical(item[f]))
      && ("roles" in item ==> Canonical(Get(row, "role_ids")) == Canonical(List(PlannedRoleIds(c, item).value)))
  {
    hide Canonical, PlannedRoleIds, ManagedFields;
    ComparedFields();
    NoDiffIff(row, Wanted(c, item), Wanted(c, item).Keys);
    assert forall f :: f in Wanted(c, item) <==>
      (f in item && f in ManagedFields(Memberships)) || (f == "role_ids" && "roles" in item);
    forall f | f in item && f in ManagedFields(Memberships)
      ensures f in Wanted(c, item) && Wanted(c, item)[f] == item[f] {
    }
  }

  lemma PairUpdate(b: Blueprint, item: Dict)
    requires Present(item) && PlanItem(Memberships, b.c, item).Success? && KeyOf(Memberships, item) in b.c.memberships
    ensures var row := b.c.memberships[KeyOf(Memberships, item)];
      PlanItem(Memberships, b.c, item).value.changes ==
        UpdateOf(Memberships, NameOf(Memberships, item), row, Changed(b.c, item, row))
  {
    hide PlanItem, PlanMembership, Wanted, WithReason, ManagedDiff, PlannedRoleIds, PlannedEntity;
    PlansMembership(b.c, item);
    MembershipReferences(b.c, item);
    MembershipPlanned(b.c, item);
  }

  /** A managed field of a membership ends as declared exactly when the value the plan carried for it was plain. */
  lemma PairManagedField(m: Manifest, remote: Remote, b: Blueprint, run: Run, i: nat, e: string, u: string, f: string)
    requires Applied(m, remote, b, run) && Pair(m, remote, b, run, i, e, u)
    requires f in ManagedFields(Memberships) && f in m.memberships[i]
    ensures (e, u) in Final(run).memberships
    ensures Canonical(Get(Final(run).memberships[(e, u)], f)) == Canonical(m.memberships[i][f])
      <==> (Written(Memberships, b.c, m.memberships[i], f) ==> RefFree(m.memberships[i][f]))
  {
    hide Applied, RunTo, PlanItem, PlanItems, Denotes, Resolve, RefFree, Canonical, ManagedFields, Changed, UserAsked,
      EmailKey, LookupOrRef, PlannedRoleIds, PlannedEntity;
    var item := m.memberships[i];
    ComparedFields();
    if KeyOf(Memberships, item) in b.c.memberships {
      var row := b.c.memberships[KeyOf(Memberships, item)];
      FoundPair(m, remote, b, run, i, e, u);
      PairUpdate(b, item);
      WantedField(b.c, item, row, f);
      JoinField(remote, e, u, f);
      var p := StoredPairField(m, remote, b, run, i, e, u, f, Changed(b.c, item, row));
      if f in Changed(b.c, item, row) {
        assert PlanItem(Memberships, b.c, item).value.changes[0] in PlanItem(Memberships, b.c, item).value.changes;
        ResolveKeepsCanonicalIff(item[f], run.At(p).ids);
      }
    } else {
      var p := NewPairField(m, remote, b, run, i, e, u, f);
      PlansMembership(b.c, item);
      MembershipCreated(b.c, item);
      assert PlanItem(Memberships, b.c, item).value.changes[0] in PlanItem(Memberships, b.c, item).value.changes;
      ResolveKeepsCanonicalIff(item[f], run.At(p).ids);
    }
  }

  lemma StoredRolesPlain(m: Manifest, remote: Remote, b: Blueprint, run: Run, e: string, u: string)
    requires Applied(m, remote, b, run) && (e, u) in remote.memberships
    ensures TextList(Get(remote.memberships[(e, u)], "role_ids"))
  {
    hide Applies, RunTo;
  }

  /** The declared roles are held in the end, under the ids the second call looks up. */
  lemma PairRoles(m: Manifest, remote: Remote, b: Blueprint, run: Run, c: Context, i: nat, e: string, u: string)
    requires Again(m, remote, b, run, c) && Pair(m, remote, b, run, i, e, u) && "roles" in m.memberships[i]
    ensures (e, u) in Final(run).memberships && PlannedRoleIds(c, m.memberships[i]).Success?
    ensures Canonical(Get(Final(run).memberships[(e, u)], "role_ids")) ==
      Canonical(List(PlannedRoleIds(c, m.memberships[i]).value))
  {
    hide Applied, ContextOf, RunTo, PlanItem, PlanItems, Denotes, Resolve, Canonical, Changed, UserAsked, EmailKey,
      LookupOrRef, PlannedRoleIds, PlannedEntity, SameRoles, AllText, ValidRemote;
    var item := m.memberships[i];
    assert item in m.memberships;
    RolesAgain(m, remote, b, run, c, item);
    var was, now := PlannedRoleIds(b.c, item).value, PlannedRoleIds(c, item).value;
    if KeyOf(Memberships, item) in b.c.memberships {
      var row := b.c.memberships[KeyOf(Memberships, item)];
      FoundPair(m, remote, b, run, i, e, u);
      PairUpdate(b, item);
      WantedRoles(b.c, item, row);
      JoinField(remote, e, u, "role_ids");
      var p := StoredPairField(m, remote, b, run, i, e, u, "role_ids", Changed(b.c, item, row));
      if "role_ids" in Changed(b.c, item, row) {
        SameRolesResolve(run, was, now, p);
      } else {
        StoredRolesPlain(m, remote, b, run, e, u);
        AgreeingIdsAreText(Get(remote.memberships[(e, u)], "role_ids"), was);
        SameTextRoles(run, was, now);
      }
    } else {
      var p := NewPairField(m, remote, b, run, i, e, u, "role_ids");
      PlansMembership(b.c, item);
      MembershipCreated(b.c, item);
      SameRolesResolve(run, was, now, p);
    }
  }
}
