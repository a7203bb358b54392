/** `check_plan_drift`: before anything is written, the rows behind a plan are read again and compared by digest. */
module Drift {
  import opened Outcomes
  import opened Text
  import opened JsonValues
  import opened Manifests
  import opened RemoteStore
  import opened Planner

  const NO_ITEMS := Manifest([], [], [], [])

  function AbsentItem(field: string, identity: string): Dict {
    map[field := Str(identity), "state" := Str("absent")]
  }

  /** The item that makes the reader fetch what an operation is about; a membership is taken apart at its last '@'. */
  function AddSynthetic(m: Manifest, op: Operation): Manifest {
    match op.resource
    case Permissions => m.(permissions := m.permissions + [AbsentItem("name", op.identity)])
    case Entities => m.(entities := m.entities + [AbsentItem("slug", op.identity)])
    case Roles => m.(roles := m.roles + [AbsentItem("name", op.identity)])
    case Memberships =>
      if '@' in op.identity then
        var (user, entity) := RSplitAt(op.identity);
        m.(memberships := m.memberships + [map["user" := Str(user), "entity" := Str(entity), "state" := Str("absent")]])
      else m
  }

  function Synthetic(ops: seq<Operation>): Manifest {
    if ops == [] then NO_ITEMS else AddSynthetic(Synthetic(ops[..|ops| - 1]), ops[|ops| - 1])
  }

  function CurrentFor(s: Snapshot, op: Operation): Option<Dict> {
    Lookup(ItemsByIdentity(op.resource, s.Rows(op.resource)), Fold(op.identity))
  }

  function DigestOf(row: Option<Dict>): Option<Digest> {
    match row case None => None case Some(r) => Some(RowDigest(r))
  }

  /** The operation still finds what it was planned from. */
  predicate Unmoved(s: Snapshot, op: Operation) {
    DigestOf(CurrentFor(s, op)) == op.beforeHash
  }

  datatype DriftEntry = DriftEntry(operation: Operation, actual: Option<Digest>)

  function DriftOf(s: Snapshot, op: Operation): seq<DriftEntry> {
    if Unmoved(s, op) then [] else [DriftEntry(op, DigestOf(CurrentFor(s, op)))]
  }

  function DriftList(s: Snapshot, ops: seq<Operation>): seq<DriftEntry> {
    if ops == [] then [] else DriftList(s, ops[..|ops| - 1]) + DriftOf(s, ops[|ops| - 1])
  }

  datatype DriftError = ReadFailed(error: PlanError) | DriftDetected(entries: seq<DriftEntry>)

  function CheckDrift(remote: Remote, ops: seq<Operation>): Result<Snapshot, DriftError> {
    match FetchSnapshot(remote, Synthetic(ops))
    case Failure(e) => Failure(ReadFailed(e))
    case Success(s) => if DriftList(s, ops) == [] then Success(s) else Failure(DriftDetected(DriftList(s, ops)))
  }

  method SyntheticManifest(ops: seq<Operation>) returns (m: Manifest)
    ensures m == Synthetic(ops)
  {
    m := NO_ITEMS;
    for i := 0 to |ops|
      invariant m == Synthetic(ops[..i])
    {
      assert ops[..i + 1][..i] == ops[..i];
      m := AddSynthetic(m, ops[i]);
    }
    assert ops[..|ops|] == ops;
  }

  method CheckPlanDrift(remote: Remote, ops: seq<Operation>) returns (r: Result<Snapshot, DriftError>)
    ensures r == CheckDrift(remote, ops)
  {
    var m := SyntheticManifest(ops);
    var fetched := ReadSnapshot(remote, m);
    if fetched.Failure? {
      return Failure(ReadFailed(fetched.error));
    }
    var drift: seq<DriftEntry> := [];
    for i := 0 to |ops|
      invariant drift == DriftList(fetched.value, ops[..i])
    {
      assert ops[..i + 1][..i] == ops[..i];
      var actual := DigestOf(CurrentFor(fetched.value, ops[i]));
      if actual != ops[i].beforeHash {
        drift := drift + [DriftEntry(ops[i], actual)];
      }
    }
    assert ops[..|ops|] == ops;
    return if drift == [] then Success(fetched.value) else Failure(DriftDetected(drift));
  }

  lemma {:induction false} NoDriftIff(s: Snapshot, ops: seq<Operation>)
    ensures DriftList(s, ops) == [] <==> forall p | 0 <= p < |ops| :: Unmoved(s, ops[p])
  {
    hide Unmoved;
    if ops != [] {
      var n := |ops| - 1;
      assert forall p | 0 <= p < n :: ops[..n][p] == ops[p];
      NoDriftIff(s, ops[..n]);
    }
  }

  /** Where the reported operations stand in the plan. */
  lemma {:induction false} Reported(s: Snapshot, ops: seq<Operation>) returns (places: seq<nat>)
    ensures |places| == |DriftList(s, ops)|
    ensures forall k, l | 0 <= k < l < |places| :: places[k] < places[l]
    ensures forall p: nat :: p in places <==> p < |ops| && !Unmoved(s, ops[p])
    ensures forall k | 0 <= k < |places| ::
      places[k] < |ops| && DriftList(s, ops)[k] == DriftEntry(ops[places[k]], DigestOf(CurrentFor(s, ops[places[k]])))
  {
    hide Unmoved, CurrentFor, DigestOf;
    places := [];
    if ops != [] {
      var n := |ops| - 1;
      var front := Reported(s, ops[..n]);
      forall k | 0 <= k < |front| ensures front[k] < n {
        assert front[k] in front;
      }
      places := front + if Unmoved(s, ops[n]) then [] else [n];
      forall p: nat ensures p in places <==> p < |ops| && !Unmoved(s, ops[p]) {
        assert p < n ==> ops[..n][p] == ops[p];
      }
    }
  }
}
