/** The ids an apply starts with are exactly those of the stored rows of the tables its plan is about. */
module StartingIds {
  import opened Outcomes
  import opened JsonValues
  import opened Indexing
  import opened Manifests
  import opened RemoteStore
  import opened Planner
  import opened SnapshotFacts
  import opened Executor
  import opened FinalState
  import opened Drift
  import opened ApplyTheorems

  /** The plan has an operation on the table, or one on a membership, for which entities and roles are read too. */
  ghost predicate Touches(ops: seq<Operation>, r: Resource) {
    exists op :: op in ops &&
      if op.resource == Memberships then r != Permissions && '@' in op.identity else op.resource == r
  }

  /** What the drift check reads holds absent items only, and those of roles name no entity. */
  lemma {:induction false} SyntheticReads(ops: seq<Operation>, r: Resource)
    ensures Reads(Synthetic(ops), r) <==> Touches(ops, r)
    ensures forall item | item in Synthetic(ops).roles :: "root_entity" !in item && "scope_entity" !in item
  {
    if ops != [] {
      var front, last := ops[..|ops| - 1], ops[|ops| - 1];
      SyntheticReads(front, r);
      FrontMembers(ops);
      assert forall op | op in ops :: op in front || op == last;
      assert last in ops;
    }
  }

  lemma FiledId(r: Resource, t: map<string, Dict>, id: string, key: string)
    requires r != Memberships && ValidTable(r, t) && id in t && FoldedIdentity(r, t[id]) == Some(key)
    ensures key in IdsOf(r, Listing(t)) && IdsOf(r, Listing(t))[key] == id
  {
    hide Listing;
    var key' := (row: Dict) => NamedIdKey(r, row);
    ListingMembers(t);
    IndexComplete(key', Listing(t));
    assert ValidRow(r, id, t[id]);
    ValidRowIdentity(r, id, t[id]);
    assert key'(t[id]) == Some(key);
    ListedIds(r, t, key);
  }

  /** An apply that passes the drift check knows an id under an identity exactly if its plan is about the table and the
      store holds a row of that identity under that id. */
  lemma StartsWithStoredIds(now: Remote, ops: seq<Operation>, r: Resource, key: string, id: string)
    requires ValidRemote(now) && CheckDrift(now, ops).Success? && r != Memberships
    ensures IdFor(ResolvedIds(CheckDrift(now, ops).value), ResourceName(r), key) == Some(id) <==>
      Touches(ops, r) && IdStored(now, r, key, id)
  {
    hide FetchSnapshot, IdsOf, ResolvedIds, ValidTable, ValidUsers, ValidMemberships, Listing, FoldedIdentity,
      ResourceName, Synthetic, Touches, Reads, DriftList;
    var m := Synthetic(ops);
    var s := CheckDrift(now, ops).value;
    assert s == FetchSnapshot(now, m).value;
    SyntheticReads(ops, r);
    ResolvedIdsOf(s, r, key);
    FetchedRowsOf(now, m, r);
    NoIds(r);
    assert ValidTable(r, now.Table(r));
    if Reads(m, r) {
      if key in IdsOf(r, Listing(now.Table(r))) {
        ListedIds(r, now.Table(r), key);
      }
      if IdStored(now, r, key, id) {
        FiledId(r, now.Table(r), id, key);
      }
    }
  }
}
