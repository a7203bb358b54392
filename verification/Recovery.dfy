/** After a failure: wherever a run stops, a fresh plan can be made from what it left, and completing it gets there. */
module Recovery {
  import opened Outcomes
  import opened Text
  import opened JsonValues
  import opened Manifests
  import opened RemoteStore
  import opened EntityOrder
  import opened Planner
  import opened PlanShape
  import opened Executor
  import opened RunFacts
  import opened ReferenceSafety
  import opened RunOfPlan
  import opened FinalState
  import opened Convergence
  import opened FinalMemberships
  import opened SecondApply
  import opened PlanErrors
  import opened DeclaredState
  import opened Drift
  import opened DriftExactness
  import opened ApplyPlan
  import opened ApplyTheorems
  import opened IntermediateForests
  import opened ForestStages

  // ---- references stay plain ------------------------------------------------------------------

  lemma PlacedIsPlain(m: Manifest, remote: Remote, b: Blueprint, run: Run, n: nat, i: nat, v: Json)
    requires Applies(m, remote, b, run) && PlainSlugs(m) && run.Ran(n) && i < |b.sequence|
    requires PlacedUnder(m, b, run, n, i, v)
    ensures NullOrText(v)
  {
    hide ValidManifest, FoldDistinct, Compiles, ValidRemote, RunTo, PlainSlugs, FoldedIdentity, CreatesKey;
    NamesAre(m, remote, b, run, n);
  }

  lemma ChangedParentPlain(m: Manifest, remote: Remote, b: Blueprint, run: Run, n: nat, id: string)
    requires RunsUnder(m, remote, b, run) && run.Ran(n) && n <= b.ChangeCount() && id in run.Remote(n).entities
    ensures NullOrText(Get(run.Remote(n).entities[id], "parent_entity_id"))
  {
    hide ValidManifest, FoldDistinct, Compiles, ValidRemote, RunTo, PlainSlugs, IdsMatch, InStage, Settles, KeyOf,
      FoldedIdentity, PlacedUnder, DoneBy, Denotes, SlugsOf;
    var i := StageFrom(m, remote, b, n, 0);
    StageWithin(b, n, i);
    var key := SlugsOf(run.Remote(n).entities)[id];
    if Unsettled(b, i, key) {
      UnsettledParent(m, remote, b, run, n, i, id, n);
    } else {
      var j: nat :| j < i && Settles(b, j) && KeyOf(Entities, b.sequence[j]) == key;
      SettledParent(m, remote, b, run, n, i, j, id);
      PlacedIsPlain(m, remote, b, run, n, j, Get(run.Remote(n).entities[id], "parent_entity_id"));
    }
  }

  lemma SettledParent(m: Manifest, remote: Remote, b: Blueprint, run: Run, n: nat, i: nat, j: nat, id: string)
    requires AtStage(m, remote, b, run, n, i) && j < i && Settles(b, j) && id in run.Remote(n).entities
    requires SlugsOf(run.Remote(n).entities)[id] == KeyOf(Entities, b.sequence[j])
    ensures PlacedUnder(m, b, run, n, j, Get(run.Remote(n).entities[id], "parent_entity_id"))
  {
    hide ValidManifest, FoldDistinct, Compiles, ValidRemote, RunTo, PlainSlugs, PlainReferences, IdsMatch, DoneBy,
      KeyOf, PlacedUnder;
    var id' := DoneDenotes(m, remote, b, run, n, j);
    NamesAre(m, remote, b, run, n);
    SettledPlaced(m, remote, b, run, n, j, id');
  }

  lemma {:induction false} ParentStaysPlain(m: Manifest, remote: Remote, b: Blueprint, run: Run, n: nat, id: string)
    requires RunsUnder(m, remote, b, run) && run.Ran(n) && id in run.Remote(n).entities
    ensures NullOrText(Get(run.Remote(n).entities[id], "parent_entity_id"))
    decreases n
  {
    hide RunsUnder, RunTo, NullOrText, Applies, PlainSlugs;
    if n <= b.ChangeCount() {
      ChangedParentPlain(m, remote, b, run, n, id);
    } else {
      RanPrefix(run, n, n - 1);
      RunIsApplied(m, remote, b, run);
      DeletionKeeps(m, remote, b, run, n);
      ParentStaysPlain(m, remote, b, run, n - 1, id);
    }
  }

  lemma RoleResolvesToText(c: Context, j: Json, ids: Ids)
    requires LookedUpRole(c, j) && Resolve(j, ids).Success?
    ensures Resolve(j, ids).value.Str?
  {
    if !j.Str? {
      var key :| IsRefTo(j, Roles, key);
      var identity :| j == Ref(Roles, identity) && Fold(identity) == key;
      ResolveRef(Roles, identity, ids);
    }
  }

  lemma {:induction false} RolesResolveToTexts(c: Context, j: Json, n: nat, ids: Ids)
    requires j.List? && n <= |j.items| && ResolveItems(j, n, ids).Success?
    requires forall i | 0 <= i < |j.items| :: LookedUpRole(c, j.items[i])
    ensures |ResolveItems(j, n, ids).value| == n && forall i | 0 <= i < n :: ResolveItems(j, n, ids).value[i].Str?
    decreases n
  {
    hide LookedUpRole;
    if n > 0 {
      RolesResolveToTexts(c, j, n - 1, ids);
      RoleResolvesToText(c, j.items[n - 1], ids);
    }
  }

  lemma RolesResolved(c: Context, j: Json, ids: Ids)
    requires j.List? && Resolve(j, ids).Success? && forall i | 0 <= i < |j.items| :: LookedUpRole(c, j.items[i])
    ensures TextList(Resolve(j, ids).value)
  {
    RolesResolveToTexts(c, j, |j.items|, ids);
  }

  /** The role list of a request, if it has one, is a list of ids. */
  lemma SentRoles(m: Manifest, remote: Remote, b: Blueprint, run: Run, n: nat, q: nat)
    requires Applies(m, remote, b, run) && run.Ran(n) && q < n
    ensures TextList(Get(AttributesOf(run.Body(q)), "role_ids"))
  {
    hide ValidManifest, FoldDistinct, Compiles, RunTo, Resolve, Assemble, ValidRemote, LookedUpRole;
    RanStep(run, n, q);
    ResolvedKeys(run.ops[q].body, run.At(q).ids);
    if run.ops[q].body.Some? && "role_ids" in run.ops[q].body.value {
      CompiledIsPlan(m, remote, b);
      var b' := PlannedBodyShape(m, remote, run.ops, q);
      ResolvedField(run, n, q, "role_ids");
      RolesResolved(b'.c, run.ops[q].body.value["role_ids"], run.At(q).ids);
    } else {
      assert Get(AttributesOf(run.Body(q)), "role_ids") == Null;
    }
  }

  lemma PatchedRoles(s: Remote, verb: Verb, k: (string, string), body: Option<Dict>, newId: string)
    requires Serve(s, verb, MembershipOf(k.0, k.1), body, newId).Some?
    requires k in Serve(s, verb, MembershipOf(k.0, k.1), body, newId).value.memberships
    ensures k in s.memberships
    ensures Get(Serve(s, verb, MembershipOf(k.0, k.1), body, newId).value.memberships[k], "role_ids") in
      {Get(AttributesOf(body), "role_ids"), Get(s.memberships[k], "role_ids")}
  {
  }

  lemma ServedRoles(s: Remote, verb: Verb, path: Path, body: Option<Dict>, newId: string, k: (string, string))
    requires Serve(s, verb, path, body, newId).Some? && k in Serve(s, verb, path, body, newId).value.memberships
    ensures var after := Get(Serve(s, verb, path, body, newId).value.memberships[k], "role_ids");
      after == Get(AttributesOf(body), "role_ids") || (k in s.memberships && after == Get(s.memberships[k], "role_ids"))
  {
    hide Serve;
    if k !in s.memberships {
      ServeAddsMembership(s, verb, path, body, newId, k);
    } else if path == MembershipOf(k.0, k.1) {
      PatchedRoles(s, verb, k, body, newId);
    } else {
      ServeKeepsMembership(s, verb, path, body, newId, k);
    }
  }

  lemma {:induction false} RolesStayPlain(m: Manifest, remote: Remote, b: Blueprint, run: Run, n: nat,
                                          k: (string, string))
    requires RunsUnder(m, remote, b, run) && run.Ran(n) && k in run.Remote(n).memberships
    ensures TextList(Get(run.Remote(n).memberships[k], "role_ids"))
    decreases n
  {
    hide Applies, PlainSlugs, IdsMatch, RunTo, Serve, TextList, ResolveBody;
    if n == 0 {
      BlueprintStart(m, remote, b, run);
    } else {
      RanStep(run, n, n - 1);
      ServedRoles(run.Remote(n - 1), run.ops[n - 1].verb, run.ops[n - 1].path, run.Body(n - 1), run.replies(n - 1).id,
        k);
      SentRoles(m, remote, b, run, n, n - 1);
      if k in run.Remote(n - 1).memberships {
        RolesStayPlain(m, remote, b, run, n - 1, k);
      }
    }
  }

  lemma ReferencesStayPlain(m: Manifest, remote: Remote, b: Blueprint, run: Run, n: nat)
    requires RunsUnder(m, remote, b, run) && run.Ran(n)
    ensures PlainReferences(run.Remote(n))
  {
    hide RunsUnder, RunTo, NullOrText, TextList;
    forall id | id in run.Remote(n).entities ensures NullOrText(Get(run.Remote(n).entities[id], "parent_entity_id")) {
      ParentStaysPlain(m, remote, b, run, n, id);
    }
    forall k | k in run.Remote(n).memberships ensures TextList(Get(run.Remote(n).memberships[k], "role_ids")) {
      RolesStayPlain(m, remote, b, run, n, k);
    }
  }

  // ---- planning again -------------------------------------------------------------------------

  lemma StoredStays(m: Manifest, remote: Remote, b: Blueprint, run: Run, n: nat, r: Resource, key: string)
    requires Applies(m, remote, b, run) && run.Ran(n) && r != Memberships
    requires Stored(remote, r, key) && !DeclaredAbsent(m, r, key)
    ensures Stored(run.Remote(n), r, key)
  {
    hide Applies, RunTo, FoldedIdentity, DeclaredAbsent;
    var id :| id in remote.Table(r) && FoldedIdentity(r, remote.Table(r)[id]) == Some(key);
    RowSurvives(m, remote, b, run, n, r, id, key);
  }

  lemma KnownStays(m: Manifest, remote: Remote, b: Blueprint, run: Run, n: nat, r: Resource, identity: string)
    requires Applies(m, remote, b, run) && run.Ran(n) && r != Memberships
    requires Known(m, remote, r, identity) && !DeclaredAbsent(m, r, Fold(identity))
    ensures Known(m, run.Remote(n), r, identity)
  {
    hide Applies, RunTo, Stored, DeclaredAbsent;
    if Stored(remote, r, Fold(identity)) {
      StoredStays(m, remote, b, run, n, r, Fold(identity));
    }
  }

  lemma CanCreateStays(m: Manifest, remote: Remote, b: Blueprint, run: Run, n: nat, r: Resource, item: Dict)
    requires Applies(m, remote, b, run) && run.Ran(n) && r != Memberships
    requires item in m.Items(r) && Present(item) && CanCreate(remote, r, item)
    ensures CanCreate(run.Remote(n), r, item)
  {
    hide ValidManifest, FoldDistinct, Compiles, ValidRemote, RunTo, Stored, DeclaredAbsent, KeyOf;
    SequenceMembers(m, remote, b, r, item);
    var i :| 0 <= i < |b.Items(m, r)| && b.Items(m, r)[i] == item;
    PresentNotAbsent(m, remote, b, r, i);
    if Stored(remote, r, KeyOf(r, item)) {
      StoredStays(m, remote, b, run, n, r, KeyOf(r, item));
    }
  }

  lemma ReferenceStays(m: Manifest, remote: Remote, b: Blueprint, run: Run, n: nat, item: Dict, f: string)
    requires Applies(m, remote, b, run) && run.Ran(n) && NoAbsentReferences(m)
    requires item in m.roles && Present(item) && f in {"root_entity", "scope_entity"}
    requires RefersToKnown(m, remote, item, f)
    ensures RefersToKnown(m, run.Remote(n), item, f)
  {
    hide Applies, RunTo, Known, DeclaredAbsent;
    if f in item && Truthy(item[f]) {
      assert Get(item, f) == item[f];
      KnownStays(m, remote, b, run, n, Entities, PyStr(item[f]));
    }
  }

  lemma MembershipStaysPlannable(m: Manifest, remote: Remote, b: Blueprint, run: Run, n: nat, item: Dict)
    requires Applies(m, remote, b, run) && run.Ran(n) && NoAbsentReferences(m) && run.Remote(n).users == remote.users
    requires item in m.memberships && Present(item) && Plannable(m, remote, Memberships, item)
    ensures Plannable(m, run.Remote(n), Memberships, item)
  {
    hide Applies, RunTo, Known, DeclaredAbsent, EmailKey, UserKey;
    KnownStays(m, remote, b, run, n, Entities, PyStr(Get(item, "entity")));
    forall x | x in DeclaredRoles(item).items ensures Known(m, run.Remote(n), Roles, x.s) {
      KnownStays(m, remote, b, run, n, Roles, x.s);
    }
  }

  lemma StaysPlannable(m: Manifest, remote: Remote, b: Blueprint, run: Run, n: nat, r: Resource, item: Dict)
    requires Applies(m, remote, b, run) && run.Ran(n) && NoAbsentReferences(m) && run.Remote(n).users == remote.users
    requires item in m.Items(r) && Present(item) && Plannable(m, remote, r, item)
    ensures Plannable(m, run.Remote(n), r, item)
  {
    hide Applies, RunTo, Known, DeclaredAbsent, CanCreate, RefersToKnown;
    match r
    case Permissions => CanCreateStays(m, remote, b, run, n, r, item);
    case Entities =>
      CanCreateStays(m, remote, b, run, n, r, item);
      if NonemptyText(Get(item, "parent")) {
        KnownStays(m, remote, b, run, n, Entities, Get(item, "parent").s);
      }
    case Roles =>
      CanCreateStays(m, remote, b, run, n, r, item);
      ReferenceStays(m, remote, b, run, n, item, "root_entity");
      ReferenceStays(m, remote, b, run, n, item, "scope_entity");
    case Memberships => MembershipStaysPlannable(m, remote, b, run, n, item);
  }

  /** What an accepted prefix of a plan leaves meets all demands on a store to plan from, and planning succeeds
      there. */
  lemma PrefixCanBePlannedFrom(m: Manifest, remote: Remote, run: Run, n: nat)
    requires RunsPlan(m, remote, run) && PlainMembershipNames(m) && NoAbsentReferences(m) && run.Ran(n)
    ensures Sound(m, run.Remote(n)) && Plan(m, run.Remote(n)).Success?
  {
    hide RunsUnder, RunTo, Plan, PlainMembershipNames, NoAbsentReferences, EntitySequence, Plannable, ValidManifest,
      FoldDistinct, PlainSlugs, ValidRemote, PlainReferences, IdsMatch, TopologicalOrder;
    var b := PlanUnder(m, remote, run);
    RunIsApplied(m, remote, b, run);
    StaysValid(m, remote, b, run, n);
    ReferencesStayPlain(m, remote, b, run, n);
    PlanSucceedsIff(m, remote);
    PlanSucceedsIff(m, run.Remote(n));
    forall r: Resource ensures PlannableGroup(m, run.Remote(n), r) {
      assert PlannableGroup(m, remote, r);
      forall item | item in m.Items(r) && Present(item) ensures Plannable(m, run.Remote(n), r, item) {
        StaysPlannable(m, remote, b, run, n, r, item);
      }
    }
  }

  /** However an apply ends, completely, half-way or before its first write: from what it leaves a fresh plan can be
      made, and once that is applied completely the store is in the declared state,
        exactly when the fresh plan carries no
      manifest value with a placeholder in it. */
  lemma FreshPlanRecovers(m: Manifest, remote: Remote, ops: seq<Operation>, replies: nat -> Reply, later: nat -> Reply)
    requires Sound(m, remote) && Plan(m, remote) == Success(ops)
    ensures var left := Apply(remote, ops, replies).1;
      && Sound(m, left) && Plan(m, left).Success?
      && var anew := Plan(m, left).value;
         (Apply(left, anew, later).0.Completed? ==>
            (InDeclaredState(m, Apply(left, anew, later).1) <==> PlainManaged(anew)))
  {
    hide Plan, Sound, Apply, PlainManaged, InDeclaredState;
    LeftOver(m, remote, ops, replies);
    var left := Apply(remote, ops, replies).1;
    var anew := Plan(m, left).value;
    if Apply(left, anew, later).0.Completed? {
      CompletedApplyRan(m, left, anew, later);
      CompleteRunReachesStateIff(m, left, Run(Ready(left, ResolvedIds(CheckDrift(left, anew).value)), anew, later));
    }
  }

  lemma LeftOver(m: Manifest, remote: Remote, ops: seq<Operation>, replies: nat -> Reply)
    requires Sound(m, remote) && Plan(m, remote) == Success(ops)
    ensures Sound(m, Apply(remote, ops, replies).1) && Plan(m, Apply(remote, ops, replies).1).Success?
  {
    hide Plan, ValidManifest, FoldDistinct, PlainSlugs, PlainMembershipNames, NoAbsentReferences, ValidRemote,
      PlainReferences, IdsMatch, RunTo, CheckDrift, ResolvedIds, FetchSnapshot, Synthetic;
    UnchangedNeverDrifts(m, remote, ops);
    ResolvedIdsMatch(remote, Synthetic(ops));
    var run := Run(Ready(remote, ResolvedIds(CheckDrift(remote, ops).value)), ops, replies);
    var k := PrefixExecution(run, |ops|);
    PrefixCanBePlannedFrom(m, remote, run, k);
  }
}
