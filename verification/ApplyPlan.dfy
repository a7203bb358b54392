/** `apply_plan` against a server that keeps a store: drift check, then the operations in order until one fails. */
module ApplyPlan {
  import opened Outcomes
  import opened JsonValues
  import opened RemoteStore
  import opened Planner
  import opened Executor
  import opened RunFacts
  import opened Drift

  /** The service: it decides each request by its own answers and logs the writes it accepted. */
  class Server {
    var store: Remote
    var answered: nat
    var log: seq<(Verb, Path)>
    const replies: nat -> Reply

    constructor (store: Remote, replies: nat -> Reply)
      ensures this.store == store && this.replies == replies && answered == 0 && log == []
    {
      this.store, this.replies, answered, log := store, replies, 0, [];
    }

    method Send(verb: Verb, path: Path, body: Option<Dict>) returns (r: Result<Reply, string>)
      modifies this
      ensures answered == old(answered) + 1
      ensures match replies(old(answered))
        case Refused(code) => r == Failure(code) && store == old(store) && log == old(log)
        case Accepted(id, echoed) =>
          match Serve(old(store), verb, path, body, id)
          case None => r == Failure("rejected") && store == old(store) && log == old(log)
          case Some(after) => r == Success(Accepted(id, echoed)) && store == after && log == old(log) + [(verb, path)]
    {
      var reply := replies(answered);
      answered := answered + 1;
      match reply
      case Refused(code) => r := Failure(code);
      case Accepted(id, _) =>
        var after := Serve(store, verb, path, body, id);
        if after.None? {
          r := Failure("rejected");
        } else {
          store, log, r := after.value, log + [(verb, path)], Success(reply);
        }
    }
  }

  datatype Outcome =
    | Rejected(error: DriftError)
    | Failed(cause: Cause)
    | Partial(completed: seq<Operation>, failed: Operation, cause: Cause)
    | Completed(completed: seq<Operation>)

  /** A failure before the first success is raised as it is; a later one carries what has been done. */
  function OutcomeOf(final: RunState, ops: seq<Operation>): Outcome {
    match final.failure
    case None => Completed(final.completed)
    case Some(cause) =>
      if 0 < |final.completed| < |ops| then Partial(final.completed, ops[|final.completed|], cause) else Failed(cause)
  }

  function Ready(remote: Remote, ids: Ids): RunState {
    RunState(remote, ids, [], None)
  }

  /** The outcome, and the store afterwards. */
  function Apply(remote: Remote, ops: seq<Operation>, replies: nat -> Reply): (Outcome, Remote) {
    match CheckDrift(remote, ops)
    case Failure(error) => (Rejected(error), remote)
    case Success(s) =>
      var final := RunTo(Ready(remote, ResolvedIds(s)), ops, replies, |ops|);
      (OutcomeOf(final, ops), final.remote)
  }

  /** The answers still to come after the first `n`. */
  function Later(replies: nat -> Reply, n: nat): nat -> Reply {
    (k: nat) => replies(n + k)
  }

  /** The writes a server logs for an outcome. */
  function Writes(outcome: Outcome): seq<(Verb, Path)> {
    match outcome
    case Rejected(_) => []
    case Failed(_) => []
    case Partial(completed, _, _) => Sent(completed)
    case Completed(completed) => Sent(completed)
  }

  function Sent(ops: seq<Operation>): seq<(Verb, Path)> {
    seq(|ops|, i requires 0 <= i < |ops| => (ops[i].verb, ops[i].path))
  }

  // ---- prefixes -------------------------------------------------------------------------------

  /** At every point of a run the completed operations are the first `k`, the store is the one these made, and a failure
      belongs to operation `k`, which changed nothing. */
  ghost predicate StoppedAt(run: Run, n: nat, k: nat)
    requires k <= n <= |run.ops|
  {
    && run.At(n).completed == run.ops[..k] && run.At(n).remote == run.Remote(k) && run.At(k).failure == None
    && (run.At(n).failure == None <==> k == n)
    && (k < n ==> run.At(n) == run.At(k + 1) && run.Remote(k + 1) == run.Remote(k))
  }

  lemma {:induction false} PrefixExecution(run: Run, n: nat) returns (k: nat)
    requires n <= |run.ops| && run.start.failure == None && run.start.completed == []
    ensures k <= n && StoppedAt(run, n, k)
  {
    hide RunTo;
    if n == 0 {
      StartOfRun(run);
      k := 0;
    } else {
      k := PrefixExecution(run, n - 1);
      StepFrom(run, n - 1);
      if k == n - 1 && run.At(n).failure == None {
        k := n;
        assert run.ops[..n] == run.ops[..n - 1] + [run.ops[n - 1]];
      }
    }
  }

  lemma StepFrom(run: Run, n: nat)
    requires n < |run.ops|
    ensures run.At(n).failure.Some? ==> run.At(n + 1) == run.At(n)
    ensures run.At(n).failure == None && run.At(n + 1).failure == None ==>
      run.At(n + 1).completed == run.At(n).completed + [run.ops[n]]
    ensures run.At(n).failure == None && run.At(n + 1).failure.Some? ==>
      run.At(n + 1).completed == run.At(n).completed && run.Remote(n + 1) == run.Remote(n)
  {
    hide Serve, ResolveBody;
  }

  lemma {:induction false} FailedStays(run: Run, i: nat, n: nat)
    requires i <= n <= |run.ops| && run.At(i).failure.Some?
    ensures run.At(n) == run.At(i)
    decreases n
  {
    if i < n {
      FailedStays(run, i, n - 1);
      StepFrom(run, n - 1);
    }
  }

  // ---- the loop of the source -----------------------------------------------------------------

  method ApplyOperations(server: Server, ids0: Ids, ops: seq<Operation>) returns (outcome: Outcome)
    modifies server
    ensures var from := old(server.answered);
      var final := RunTo(Ready(old(server.store), ids0), ops, Later(server.replies, from), |ops|);
      outcome == OutcomeOf(final, ops) && server.store == final.remote
    ensures server.log == old(server.log) + Writes(outcome)
  {
    hide Serve, ResolveBody, Learn;
    ghost var from := server.answered;
    ghost var run := Run(Ready(server.store, ids0), ops, Later(server.replies, from));
    var ids := ids0;
    var completed: seq<Operation> := [];
    for i := 0 to |ops|
      invariant run.At(i) == RunState(server.store, ids, completed, None)
      invariant completed == ops[..i] && server.answered == from + i
      invariant server.log == old(server.log) + Sent(completed)
    {
      var op := ops[i];
      assert ops[..i + 1] == ops[..i] + [op];
      var cause: Cause;
      var body := ResolveBody(op.body, ids);
      if body.Failure? {
        FailedStays(run, i + 1, |ops|);
        return if completed == [] then Failed(body.error) else Partial(completed, op, body.error);
      }
      var answer := server.Send(op.verb, op.path, body.value);
      if answer.Failure? {
        FailedStays(run, i + 1, |ops|);
        cause := RequestFailed(answer.error);
        return if completed == [] then Failed(cause) else Partial(completed, op, cause);
      }
      completed := completed + [op];
      ids := Learn(ids, op, answer.value);
    }
    return Completed(completed);
  }

  /** Drift check and application. */
  method ApplyPlan(server: Server, ops: seq<Operation>) returns (outcome: Outcome)
    modifies server
    ensures var from := old(server.answered);
      (outcome, server.store) == Apply(old(server.store), ops, Later(server.replies, from))
    ensures server.log == old(server.log) + Writes(outcome)
  {
    var checked := CheckPlanDrift(server.store, ops);
    if checked.Failure? {
      return Rejected(checked.error);
    }
    outcome := ApplyOperations(server, ResolvedIds(checked.value), ops);
  }
}
