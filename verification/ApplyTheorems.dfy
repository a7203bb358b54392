/** What a caller can rely on: no write after drift, an exact account of a partial apply, convergence of a complete
    one. */
module ApplyTheorems {
  import opened Outcomes
  import opened JsonValues
  import opened Indexing
  import opened Manifests
  import opened RemoteStore
  import opened Planner
  import opened SnapshotFacts
  import opened Executor
  import opened RunFacts
  import opened RunOfPlan
  import opened FinalState
  import opened Convergence
  import opened SecondApply
  import opened Drift
  import opened DriftExactness
  import opened ApplyPlan

  /** The plan is rejected, with the store untouched, exactly when something behind one of its operations has
      changed. */
  lemma DriftPreventsWritesIff(m: Manifest, remote: Remote, now: Remote, ops: seq<Operation>, replies: nat -> Reply)
    requires ValidManifest(m) && PlainMembershipNames(m) && ValidRemote(remote) && Plan(m, remote) == Success(ops)
    requires ValidRemote(now)
    ensures Apply(now, ops, replies).0.Rejected? <==> exists p :: 0 <= p < |ops| && !SameBehind(now, remote, ops[p])
    ensures Apply(now, ops, replies).0.Rejected? ==>
      Apply(now, ops, replies).1 == now && Writes(Apply(now, ops, replies).0) == []
  {
    hide ValidManifest, PlainMembershipNames, ValidRemote, Plan, CheckDrift, SameBehind, RunTo;
    DriftFreeIff(m, remote, now, ops);
  }

  /** Where an apply stopped, and that the outcome says so. */
  lemma OutcomeNamesPrefix(now: Remote, ops: seq<Operation>, replies: nat -> Reply) returns (k: nat)
    ensures k <= |ops| && Writes(Apply(now, ops, replies).0) == Sent(ops[..k])
    ensures CheckDrift(now, ops).Failure? ==> k == 0 && Apply(now, ops, replies).1 == now
    ensures CheckDrift(now, ops).Success? ==>
      Apply(now, ops, replies).1 == RunTo(Ready(now, ResolvedIds(CheckDrift(now, ops).value)), ops, replies, k).remote
    ensures match Apply(now, ops, replies).0
      case Rejected(_) => k == 0
      case Failed(_) => k == 0 && 0 < |ops|
      case Partial(completed, failed, _) => 0 < k < |ops| && completed == ops[..k] && failed == ops[k]
      case Completed(completed) => k == |ops| && completed == ops
  {
    hide CheckDrift, RunTo, ResolvedIds;
    k := 0;
    if CheckDrift(now, ops).Success? {
      var run := Run(Ready(now, ResolvedIds(CheckDrift(now, ops).value)), ops, replies);
      StartOfRun(run);
      k := PrefixExecution(run, |ops|);
      assert ops[..|ops|] == ops && ops[..0] == [];
    }
  }

  // ---- the ids an apply starts with -----------------------------------------------------------

  lemma ListedIds(r: Resource, t: map<string, Dict>, key: string)
    requires r != Memberships && ValidTable(r, t) && key in IdsOf(r, Listing(t))
    ensures IdsOf(r, Listing(t))[key] in t && FoldedIdentity(r, t[IdsOf(r, Listing(t))[key]]) == Some(key)
  {
    var key' := (row: Dict) => NamedIdKey(r, row);
    var index := IndexBy(key', Listing(t));
    IndexSound(key', Listing(t));
    ListingMembers(t);
    var row := index[key];
    var id :| id in t && t[id] == row;
    assert ValidRow(r, id, t[id]);
    ValidRowIdentity(r, id, row);
    assert key'(row) == NamedIdKey(r, row);
  }

  lemma NoIds(r: Resource)
    requires r != Memberships
    ensures IdsOf(r, []) == map[]
  {
  }

  lemma FetchedRowsOf(now: Remote, m: Manifest, r: Resource)
    requires FetchSnapshot(now, m).Success? && r != Memberships
    ensures FetchSnapshot(now, m).value.Rows(r) == if Reads(m, r) then Listing(now.Table(r)) else []
  {
    hide FetchMemberships, Listing, UsersByEmail, NeedsEntities;
  }

  lemma ResolvedIdsOf(s: Snapshot, r: Resource, key: string)
    requires r != Memberships
    ensures IdFor(ResolvedIds(s), ResourceName(r), key) == Lookup(IdsOf(r, s.Rows(r)), key)
  {
    hide IdsOf;
    assert ResourceName(Entities) == "entities" && ResourceName(Roles) == "roles" &&
      ResourceName(Permissions) == "permissions";
  }

  lemma ResolvedIdsMatch(now: Remote, m: Manifest)
    requires ValidRemote(now) && FetchSnapshot(now, m).Success?
    ensures IdsMatch(now, ResolvedIds(FetchSnapshot(now, m).value))
  {
    hide FetchSnapshot, IdsOf, ResolvedIds, ValidTable, ValidUsers, ValidMemberships, Listing, FoldedIdentity,
      ResourceName;
    var s := FetchSnapshot(now, m).value;
    forall r: Resource, key | r in {Entities, Roles} && IdFor(ResolvedIds(s), ResourceName(r), key).Some?
      ensures IdStored(now, r, key, IdFor(ResolvedIds(s), ResourceName(r), key).value)
    {
      ResolvedIdsOf(s, r, key);
      FetchedRowsOf(now, m, r);
      NoIds(r);
      assert ValidTable(r, now.Table(r));
      ListedIds(r, now.Table(r), key);
    }
  }

  // ---- convergence of an apply ----------------------------------------------------------------

  /** What the manifest and the store must satisfy. */
  ghost predicate Sound(m: Manifest, remote: Remote) {
    && ValidManifest(m) && FoldDistinct(m) && PlainSlugs(m) && PlainMembershipNames(m) && NoAbsentReferences(m)
    && ValidRemote(remote) && PlainReferences(remote)
  }

  /** Whoever applies a plan to the store it was made from, and is told that all of it was done, can plan again and
      finds nothing to do, exactly when the plan carries no manifest value with a placeholder in it. */
  lemma CompletedApplyConvergesIff(m: Manifest, remote: Remote, ops: seq<Operation>, replies: nat -> Reply)
    requires Sound(m, remote) && Plan(m, remote) == Success(ops)
    ensures Apply(remote, ops, replies).0.Completed? ==>
      && Plan(m, Apply(remote, ops, replies).1).Success?
      && (Plan(m, Apply(remote, ops, replies).1) == Success([]) <==> PlainManaged(ops))
  {
    hide Plan, Sound, Apply, PlainManaged;
    if Apply(remote, ops, replies).0.Completed? {
      CompletedApplyRan(m, remote, ops, replies);
      SecondPlanEmptyIff(m, remote, Run(Ready(remote, ResolvedIds(CheckDrift(remote, ops).value)), ops, replies));
    }
  }

  /** Behind a completed apply stands a complete run. */
  lemma CompletedApplyRan(m: Manifest, remote: Remote, ops: seq<Operation>, replies: nat -> Reply)
    requires Sound(m, remote) && Plan(m, remote) == Success(ops) && Apply(remote, ops, replies).0.Completed?
    ensures CheckDrift(remote, ops).Success?
    ensures var run := Run(Ready(remote, ResolvedIds(CheckDrift(remote, ops).value)), ops, replies);
      CompleteRun(m, remote, run) && Final(run) == Apply(remote, ops, replies).1
  {
    hide Plan, ValidManifest, FoldDistinct, PlainSlugs, PlainMembershipNames, NoAbsentReferences, ValidRemote,
      PlainReferences, IdsMatch, RunTo, CheckDrift, ResolvedIds, FetchSnapshot, Synthetic;
    UnchangedNeverDrifts(m, remote, ops);
    ResolvedIdsMatch(remote, Synthetic(ops));
    RanThroughout(Run(Ready(remote, ResolvedIds(CheckDrift(remote, ops).value)), ops, replies));
  }
}
