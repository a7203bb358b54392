/** Exactly which bodies resolve: a condition on the plan and the store, known before anything is sent. */
module ResolutionExactness {
  import opened Outcomes
  import opened Text
  import opened JsonValues
  import opened Manifests
  import opened RemoteStore
  import opened Planner
  import opened PlanShape
  import opened Executor
  import opened RunFacts
  import opened ReferenceSafety
  import opened RunOfPlan
  import opened Drift
  import opened ApplyPlan

  /** One of the operations before the p-th creates the named row. */
  predicate CreatedAmong(ops: seq<Operation>, p: nat, resource: string, key: string)
    requires p <= |ops|
  {
    exists q | 0 <= q < p :: ResourceName(ops[q].resource) == resource && CreatesKey(ops[q], ops[q].resource, key)
  }

  /** The row is known from the start, or created before the p-th operation's turn. */
  predicate KnownBy(ids: Ids, ops: seq<Operation>, p: nat, resource: string, key: string)
    requires p <= |ops|
  {
    IdFor(ids, resource, key).Some? || CreatedAmong(ops, p, resource, key)
  }

  /** Every placeholder in the value is well formed and names a row that is known by then. */
  ghost predicate Resolvable(j: Json, ids: Ids, ops: seq<Operation>, p: nat)
    requires p <= |ops|
  {
    if IsReference(j) then
      var reference := j.fields[0].1;
      && reference.Obj?
      && KnownBy(ids, ops, p, PyStr(FieldOf(reference.fields, "resource")),
                 Fold(PyStr(FieldOf(reference.fields, "identity"))))
    else match j
      case List(xs) => forall i | 0 <= i < |xs| :: Resolvable(xs[i], ids, ops, p)
      case Obj(fs) => forall i | 0 <= i < |fs| :: Resolvable(fs[i].1, ids, ops, p)
      case _ => true
  }

  // ---- resolving a value ----------------------------------------------------------------------

  lemma {:induction false} ItemsResolveIff(j: Json, n: nat, ids: Ids)
    requires j.List? && n <= |j.items|
    ensures ResolveItems(j, n, ids).Success? <==> forall i | 0 <= i < n :: Resolve(j.items[i], ids).Success?
    decreases n
  {
    if n > 0 {
      ItemsResolveIff(j, n - 1, ids);
    }
  }

  lemma {:induction false} FieldsResolveIff(j: Json, n: nat, ids: Ids)
    requires j.Obj? && n <= |j.fields|
    ensures ResolveFields(j, n, ids).Success? <==> forall i | 0 <= i < n :: Resolve(j.fields[i].1, ids).Success?
    decreases n
  {
    if n > 0 {
      FieldsResolveIff(j, n - 1, ids);
    }
  }

  /** Ids that are there exactly for what is known by the p-th operation. */
  ghost predicate Agrees(now: Ids, ids: Ids, ops: seq<Operation>, p: nat)
    requires p <= |ops|
  {
    forall resource, key :: IdFor(now, resource, key).Some? <==> KnownBy(ids, ops, p, resource, key)
  }

  lemma {:induction false} ResolvesIff(j: Json, now: Ids, ids: Ids, ops: seq<Operation>, p: nat)
    requires p <= |ops| && Agrees(now, ids, ops, p)
    ensures Resolve(j, now).Success? <==> Resolvable(j, ids, ops, p)
  {
    hide IdFor, KnownBy;
    if !IsReference(j) {
      match j
      case List(xs) =>
        forall i | 0 <= i < |xs| ensures Resolve(xs[i], now).Success? <==> Resolvable(xs[i], ids, ops, p) {
          ResolvesIff(xs[i], now, ids, ops, p);
        }
        ItemsResolveIff(j, |xs|, now);
      case Obj(fs) =>
        forall i | 0 <= i < |fs| ensures Resolve(fs[i].1, now).Success? <==> Resolvable(fs[i].1, ids, ops, p) {
          ResolvesIff(fs[i].1, now, ids, ops, p);
        }
        FieldsResolveIff(j, |fs|, now);
      case _ =>
    }
  }

  // ---- what is known when ---------------------------------------------------------------------

  /** Creations are posted to the collection of their resource. */
  ghost predicate CreationsPost(ops: seq<Operation>) {
    forall op <- ops | op.action == CreateAction :: CreatesKey(op, op.resource, Fold(op.identity))
  }

  lemma PlannedCreationsPost(m: Manifest, remote: Remote, ops: seq<Operation>)
    requires Plan(m, remote) == Success(ops)
    ensures CreationsPost(ops)
  {
    hide Plan, Compiles, PlanItem, PlanItems, Assemble;
    var b := PlanCompiles(m, remote);
    forall p | 0 <= p < |ops| && ops[p].action == CreateAction
      ensures CreatesKey(ops[p], ops[p].resource, Fold(ops[p].identity))
    {
      var r, i := OwnerOfOperation(m, remote, b, p);
    }
  }

  /** An accepted creation teaches its id, and nothing else does. */
  lemma StepTeaches(run: Run, n: nat, k: nat, resource: string, key: string)
    requires run.Ran(n) && k < n && Echoes(run) && CreationsPost(run.ops)
    ensures run.replies(k).Accepted?
    ensures Teaches(run.ops[k], run.replies(k), resource, key) <==>
      ResourceName(run.ops[k].resource) == resource && CreatesKey(run.ops[k], run.ops[k].resource, key)
  {
    hide RunTo, Serve, ResolveBody, Learn, ResourceName;
    RanStep(run, n, k);
    if run.ops[k].path.Collection? {
      ServedTable(run.Remote(k), run.ops[k].verb, run.ops[k].path, run.Body(k), run.replies(k).id, Permissions);
    }
  }

  /** At its turn an operation knows the ids known at the start and those of the rows created before, no others. */
  lemma {:induction false} KnownIff(run: Run, n: nat, resource: string, key: string)
    requires run.Ran(n) && Echoes(run) && CreationsPost(run.ops)
    ensures IdFor(run.At(n).ids, resource, key).Some? <==> KnownBy(run.start.ids, run.ops, n, resource, key)
    decreases n
  {
    hide RunTo, Serve, Resolve, ResolveBody, Learn, CreatesKey, Teaches, IdFor, CreationsPost, Echoes;
    if n == 0 {
      StartOfRun(run);
    } else {
      RanStep(run, n, n - 1);
      KnownIff(run, n - 1, resource, key);
      StepTeaches(run, n, n - 1, resource, key);
      LearnFrame(run.At(n - 1).ids, run.ops[n - 1], run.replies(n - 1), resource, key);
    }
  }

  // ---- whole operations -----------------------------------------------------------------------

  /** Each value that the manifest itself supplied to the p-th body is resolvable. */
  ghost predicate LiteralsResolvable(ids: Ids, ops: seq<Operation>, p: nat)
    requires p < |ops|
  {
    ops[p].body.Some? ==>
      forall f | f in ops[p].body.value && f !in LOOKED_UP :: Resolvable(ops[p].body.value[f], ids, ops, p)
  }

  lemma ResolvesAtTurnIff(m: Manifest, remote: Remote, run: Run, p: nat)
    requires ValidManifest(m) && ValidRemote(remote) && Plan(m, remote) == Success(run.ops) && Echoes(run)
    requires p < |run.ops| && run.Ran(p)
    ensures ResolveBody(run.ops[p].body, run.At(p).ids).Success? <==> LiteralsResolvable(run.start.ids, run.ops, p)
  {
    hide ValidManifest, ValidRemote, Plan, Echoes, ResolveBody, Resolve, RunTo, Resolvable, Agrees, KnownBy;
    ResolutionFailsIff(m, remote, run, p);
    PlannedCreationsPost(m, remote, run.ops);
    KnownThen(run, p);
    if run.ops[p].body.Some? {
      var body := run.ops[p].body.value;
      forall f | f in body
        ensures Resolve(body[f], run.At(p).ids).Success? <==> Resolvable(body[f], run.start.ids, run.ops, p)
      {
        ResolvesIff(body[f], run.At(p).ids, run.start.ids, run.ops, p);
      }
    }
  }

  lemma KnownThen(run: Run, p: nat)
    requires p <= |run.ops| && run.Ran(p) && Echoes(run) && CreationsPost(run.ops)
    ensures Agrees(run.At(p).ids, run.start.ids, run.ops, p)
  {
    hide RunTo, Echoes, CreationsPost, KnownBy, IdFor;
    forall resource, key
      ensures IdFor(run.At(p).ids, resource, key).Some? <==> KnownBy(run.start.ids, run.ops, p, resource, key)
    {
      KnownIff(run, p, resource, key);
    }
  }

  /** At every operation that a run reaches, resolving succeeds exactly when each placeholder that the manifest itself
      supplied is well formed and names a row that was known at the start or is created by an earlier operation. */
  lemma RunsResolveExactly(m: Manifest, remote: Remote, run: Run)
    requires ValidManifest(m) && ValidRemote(remote) && Plan(m, remote) == Success(run.ops) && Echoes(run)
    ensures forall p | 0 <= p < |run.ops| && run.Ran(p) ::
      ResolveBody(run.ops[p].body, run.At(p).ids).Success? <==> LiteralsResolvable(run.start.ids, run.ops, p)
  {
    hide ValidManifest, ValidRemote, Plan, Echoes, ResolveBody, LiteralsResolvable, RunTo;
    forall p | 0 <= p < |run.ops| && run.Ran(p)
      ensures ResolveBody(run.ops[p].body, run.At(p).ids).Success? <==> LiteralsResolvable(run.start.ids, run.ops, p)
    {
      ResolvesAtTurnIff(m, remote, run, p);
    }
  }

  // ---- whole applies --------------------------------------------------------------------------

  /** The complaint is about a placeholder in the value: it names nothing, or a row that is not known. */
  ghost predicate Complains(cause: Cause, j: Json, ids: Ids)
    decreases j
  {
    if IsReference(j) then
      var reference := j.fields[0].1;
      if !reference.Obj? then cause == InvalidReference
      else
        var resource := PyStr(FieldOf(reference.fields, "resource"));
        var identity := PyStr(FieldOf(reference.fields, "identity"));
        cause == UnresolvedReference(resource, identity) && IdFor(ids, resource, Fold(identity)).None?
    else match j
      case List(xs) => exists i | 0 <= i < |xs| :: Complains(cause, xs[i], ids)
      case Obj(fs) => exists i | 0 <= i < |fs| :: Complains(cause, fs[i].1, ids)
      case _ => false
  }

  lemma {:induction false} ResolvingErrors(j: Json, ids: Ids)
    ensures Resolve(j, ids).Failure? ==>
      Complains(Resolve(j, ids).error, j, ids) && !Resolve(j, ids).error.RequestFailed?
    decreases j, 1
  {
    if !IsReference(j) {
      match j
      case List(xs) => ItemErrors(j, |xs|, ids);
      case Obj(fs) => FieldErrors(j, |fs|, ids);
      case _ =>
    }
  }

  lemma {:induction false} ItemErrors(j: Json, n: nat, ids: Ids)
    requires j.List? && n <= |j.items|
    ensures ResolveItems(j, n, ids).Failure? ==>
      && !ResolveItems(j, n, ids).error.RequestFailed?
      && exists i | 0 <= i < n :: Complains(ResolveItems(j, n, ids).error, j.items[i], ids)
    decreases j, 0, n
  {
    hide Complains;
    if n > 0 {
      ItemErrors(j, n - 1, ids);
      ResolvingErrors(j.items[n - 1], ids);
    }
  }

  lemma {:induction false} FieldErrors(j: Json, n: nat, ids: Ids)
    requires j.Obj? && n <= |j.fields|
    ensures ResolveFields(j, n, ids).Failure? ==>
      && !ResolveFields(j, n, ids).error.RequestFailed?
      && exists i | 0 <= i < n :: Complains(ResolveFields(j, n, ids).error, j.fields[i].1, ids)
    decreases j, 0, n
  {
    hide Complains;
    if n > 0 {
      FieldErrors(j, n - 1, ids);
      ResolvingErrors(j.fields[n - 1].1, ids);
    }
  }

  lemma BodyErrors(body: Option<Dict>, ids: Ids)
    ensures ResolveBody(body, ids).Failure? ==>
      && !ResolveBody(body, ids).error.RequestFailed? && body.Some?
      && exists f | f in body.value :: Complains(ResolveBody(body, ids).error, body.value[f], ids)
  {
    hide Resolve, Complains;
    if ResolveBody(body, ids).Failure? {
      var d := body.value;
      var f := SortedKeys(Unresolvable(d, ids))[0];
      assert f in SortedKeys(Unresolvable(d, ids));
      ResolvingErrors(d[f], ids);
    }
  }

  /** Why an operation failed: a placeholder in its body that could not be resolved, or the server's own refusal. */
  ghost predicate FailedFor(cause: Cause, op: Operation, ids: Ids, reply: Reply) {
    match cause
    case RequestFailed(code) => reply == Refused(code) || (reply.Accepted? && code == "rejected")
    case _ => op.body.Some? && exists f :: f in op.body.value && Complains(cause, op.body.value[f], ids)
  }

  /** The outcome of an apply names the operation that failed and why it did, by what was known at its turn. */
  lemma OutcomeNamesCause(now: Remote, ops: seq<Operation>, replies: nat -> Reply) returns (k: nat)
    ensures k <= |ops| && Writes(Apply(now, ops, replies).0) == Sent(ops[..k])
    ensures match Apply(now, ops, replies).0
      case Rejected(error) => CheckDrift(now, ops) == Failure(error)
      case Failed(cause) =>
        && k == 0 && CheckDrift(now, ops).Success? && 0 < |ops|
        && FailedFor(cause, ops[0], ResolvedIds(CheckDrift(now, ops).value), replies(0))
      case Partial(_, failed, cause) =>
        && k < |ops| && CheckDrift(now, ops).Success? && failed == ops[k]
        && var start := Ready(now, ResolvedIds(CheckDrift(now, ops).value));
           FailedFor(cause, ops[k], RunTo(start, ops, replies, k).ids, replies(k))
      case Completed(_) => k == |ops|
  {
    hide CheckDrift, RunTo, ResolvedIds, FailedFor;
    k := 0;
    if CheckDrift(now, ops).Success? {
      var run := Run(Ready(now, ResolvedIds(CheckDrift(now, ops).value)), ops, replies);
      StartOfRun(run);
      k := PrefixExecution(run, |ops|);
      assert ops[..|ops|] == ops && ops[..0] == [];
      if k < |ops| {
        StepFailsFor(run, k);
      }
    }
  }

  lemma StepFailsFor(run: Run, p: nat)
    requires p < |run.ops| && run.At(p).failure == None && run.At(p + 1).failure.Some?
    ensures FailedFor(run.At(p + 1).failure.value, run.ops[p], run.At(p).ids, run.replies(p))
  {
    hide ResolveBody, Serve, Complains;
    BodyErrors(run.ops[p].body, run.At(p).ids);
  }

  /** How a step fails: on the request exactly if its body resolves. */
  lemma StepFailsHow(run: Run, p: nat)
    requires p < |run.ops| && run.Ran(p) && run.At(p + 1).failure.Some?
    ensures run.At(p + 1).failure.value.RequestFailed? <==> ResolveBody(run.ops[p].body, run.At(p).ids).Success?
  {
    hide ResolveBody, Serve;
    BodyErrors(run.ops[p].body, run.At(p).ids);
  }

  /** Wherever a run stops, the bodies before were resolvable, and a failure is the server's exactly if this one is. */
  lemma StopsWhere(m: Manifest, remote: Remote, run: Run) returns (k: nat)
    requires ValidManifest(m) && ValidRemote(remote) && Plan(m, remote) == Success(run.ops) && Echoes(run)
    requires run.start.failure == None && run.start.completed == []
    ensures k <= |run.ops| && StoppedAt(run, |run.ops|, k)
    ensures forall p | 0 <= p < k :: LiteralsResolvable(run.start.ids, run.ops, p)
    ensures k < |run.ops| ==>
      && run.At(|run.ops|).failure.Some?
      && (run.At(|run.ops|).failure.value.RequestFailed? <==> LiteralsResolvable(run.start.ids, run.ops, k))
  {
    hide ValidManifest, ValidRemote, Plan, Echoes, ResolveBody, LiteralsResolvable, RunTo, Serve, Learn;
    k := PrefixExecution(run, |run.ops|);
    forall p | 0 <= p < k ensures LiteralsResolvable(run.start.ids, run.ops, p) {
      RanStep(run, k, p);
      ResolvesAtTurnIff(m, remote, run, p);
    }
    if k < |run.ops| {
      StepFailsHow(run, k);
      ResolvesAtTurnIff(m, remote, run, k);
    }
  }

  /** Creations are answered with the new id. */
  ghost predicate Answers(ops: seq<Operation>, replies: nat -> Reply) {
    forall i: nat | i < |ops| && replies(i).Accepted? :: replies(i).echoed
  }

  /** The apply stopped because the server refused a request. */
  predicate StoppedByServer(outcome: Outcome) {
    match outcome
    case Failed(cause) => cause.RequestFailed?
    case Partial(_, _, cause) => cause.RequestFailed?
    case _ => false
  }

  /** Each placeholder that the manifest supplied resolves at its turn. */
  ghost predicate AllResolvable(ids: Ids, ops: seq<Operation>) {
    forall p | 0 <= p < |ops| :: LiteralsResolvable(ids, ops, p)
  }

  /** An apply that passed the drift check and that no refusal stops completes exactly when every placeholder in the
      values of the manifest is well formed and names a row that the drift check saw or an earlier operation creates. */
  lemma ApplyCompletesIff(m: Manifest, remote: Remote, now: Remote, ops: seq<Operation>, replies: nat -> Reply)
    requires ValidManifest(m) && ValidRemote(remote) && Plan(m, remote) == Success(ops)
    requires CheckDrift(now, ops).Success? && Answers(ops, replies)
    ensures !StoppedByServer(Apply(now, ops, replies).0) ==>
      (Apply(now, ops, replies).0.Completed? <==> AllResolvable(ResolvedIds(CheckDrift(now, ops).value), ops))
  {
    hide ValidManifest, ValidRemote, Plan, CheckDrift, ResolvedIds, RunTo, LiteralsResolvable;
    var run := Run(Ready(now, ResolvedIds(CheckDrift(now, ops).value)), ops, replies);
    var k := StopsWhere(m, remote, run);
  }
}
