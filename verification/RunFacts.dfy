/** What an accepted run does to the store, one request at a time and over stretches of requests. */
module RunFacts {
  import opened Outcomes
  import opened Text
  import opened JsonValues
  import opened Manifests
  import opened RemoteStore
  import opened Planner
  import opened Executor

  // ---- one request ----------------------------------------------------------------------------

  predicate TouchesRow(path: Path, r: Resource, id: string) {
    path == Element(r, id) || (r == Entities && path == MoveOf(id))
  }

  /** What a request makes of one plain table. */
  function TableAfter(s: Remote, verb: Verb, path: Path, body: Option<Dict>, newId: string,
                      r: Resource): map<string, Dict>
    requires r != Memberships
  {
    var t, d := s.Table(r), AttributesOf(body);
    match path
    case Collection(c) => if c == r then t[newId := d["id" := Str(newId)]] else t
    case MoveOf(id) =>
      if r == Entities && id in t then t[id := t[id]["parent_entity_id" := Get(d, "new_parent_id")]] else t
    case Element(c, id) => if c != r then t else if verb == Delete then t - {id} else if id in t then t[id := t[id] + d]
      else t
    case MembershipOf(_, _) => t
  }

  lemma CreateTable(s: Remote, c: Resource, d: Dict, newId: string, r: Resource)
    requires r != Memberships && CreateRow(s, c, d, newId).Some?
    ensures newId != "" && newId !in s.Table(r)
    ensures CreateRow(s, c, d, newId).value.Table(r) == if c == r then s.Table(r)[newId := d["id" := Str(newId)]]
      else s.Table(r)
    ensures CreateRow(s, c, d, newId).value.users == s.users
  {
    hide PyStr;
  }

  lemma ChangeTable(s: Remote, c: Resource, id: string, verb: Verb, d: Dict, r: Resource)
    requires r != Memberships && ChangeRow(s, c, id, verb, d).Some?
    ensures c != Memberships && id in s.Table(c) && verb in {Patch, Delete}
    ensures ChangeRow(s, c, id, verb, d).value.Table(r) ==
      if c != r then s.Table(r) else if verb == Delete then s.Table(r) - {id} else s.Table(r)[id := s.Table(r)[id] + d]
    ensures ChangeRow(s, c, id, verb, d).value.users == s.users
    ensures ChangeRow(s, c, id, verb, d).value.memberships == s.memberships
  {
  }

  lemma ServedTable(s: Remote, verb: Verb, path: Path, body: Option<Dict>, newId: string, r: Resource)
    requires r != Memberships && Serve(s, verb, path, body, newId).Some?
    ensures Serve(s, verb, path, body, newId).value.Table(r) == TableAfter(s, verb, path, body, newId, r)
    ensures Serve(s, verb, path, body, newId).value.users == s.users
    ensures path.Collection? ==> verb == Post && newId != "" && newId !in s.Table(r)
    ensures path.MoveOf? ==> verb == Post && path.id in s.entities
    ensures path.Element? ==>
      verb in {Patch, Delete} && path.resource != Memberships && path.id in s.Table(path.resource)
  {
    hide CreateRow, ChangeRow, AttributesOf;
    match path
    case Collection(c) => CreateTable(s, c, AttributesOf(body), newId, r);
    case Element(c, id) => ChangeTable(s, c, id, verb, AttributesOf(body), r);
    case MoveOf(id) =>
    case MembershipOf(_, _) =>
  }

  /** A row that the request does not address stays as it is. */
  lemma ServeKeepsRow(s: Remote, verb: Verb, path: Path, body: Option<Dict>, newId: string, r: Resource, id: string)
    requires r != Memberships && id in s.Table(r) && !TouchesRow(path, r, id)
    requires Serve(s, verb, path, body, newId).Some?
    ensures var s' := Serve(s, verb, path, body, newId).value; id in s'.Table(r) && s'.Table(r)[id] == s.Table(r)[id]
  {
    hide Serve;
    ServedTable(s, verb, path, body, newId, r);
  }

  lemma CreateKeepsMembership(s: Remote, c: Resource, d: Dict, newId: string, k: (string, string))
    requires k in s.memberships && CreateRow(s, c, d, newId).Some?
    ensures var t := CreateRow(s, c, d, newId).value.memberships; k in t && t[k] == s.memberships[k]
  {
    hide Unused, PyStr;
  }

  lemma ChangeKeepsMembership(s: Remote, key: (string, string), verb: Verb, d: Dict, k: (string, string))
    requires k in s.memberships && k != key && ChangeMembership(s, key, verb, d).Some?
    ensures var t := ChangeMembership(s, key, verb, d).value.memberships; k in t && t[k] == s.memberships[k]
  {
  }

  lemma ServeKeepsMembership(s: Remote, verb: Verb, path: Path, body: Option<Dict>, newId: string, k: (string, string))
    requires k in s.memberships && path != MembershipOf(k.0, k.1)
    requires Serve(s, verb, path, body, newId).Some?
    ensures var s' := Serve(s, verb, path, body, newId).value;
      k in s'.memberships && s'.memberships[k] == s.memberships[k]
  {
    hide CreateRow, ChangeRow, ChangeMembership, AttributesOf;
    match path
    case Collection(c) => CreateKeepsMembership(s, c, AttributesOf(body), newId, k);
    case Element(c, id) => ChangeTable(s, c, id, verb, AttributesOf(body), Permissions);
    case MoveOf(_) =>
    case MembershipOf(e, u) => ChangeKeepsMembership(s, (e, u), verb, AttributesOf(body), k);
  }

  lemma ServeKeepsUsers(s: Remote, verb: Verb, path: Path, body: Option<Dict>, newId: string)
    requires Serve(s, verb, path, body, newId).Some?
    ensures Serve(s, verb, path, body, newId).value.users == s.users
  {
    hide Serve;
    ServedTable(s, verb, path, body, newId, Permissions);
  }

  /** Only a creation adds a row, under the id the server picked. */
  lemma ServeAddsRow(s: Remote, verb: Verb, path: Path, body: Option<Dict>, newId: string, r: Resource, id: string)
    requires r != Memberships && id !in s.Table(r)
    requires Serve(s, verb, path, body, newId).Some? && id in Serve(s, verb, path, body, newId).value.Table(r)
    ensures path == Collection(r) && id == newId && newId != ""
    ensures Serve(s, verb, path, body, newId).value.Table(r)[id] == AttributesOf(body)["id" := Str(newId)]
  {
    hide Serve;
    ServedTable(s, verb, path, body, newId, r);
  }

  lemma ServeAddsMembership(s: Remote, verb: Verb, path: Path, body: Option<Dict>, newId: string, k: (string, string))
    requires k !in s.memberships
    requires Serve(s, verb, path, body, newId).Some? && k in Serve(s, verb, path, body, newId).value.memberships
    ensures path == Collection(Memberships)
    ensures k == (PyStr(Get(AttributesOf(body), "entity_id")), PyStr(Get(AttributesOf(body), "user_id")))
    ensures Serve(s, verb, path, body, newId).value.memberships[k] == AttributesOf(body)["id" := Str(newId)]
  {
    hide Unused, PyStr;
  }

  /** Without a deletion no row disappears. */
  lemma ServeKeepsPresence(s: Remote, verb: Verb, path: Path, body: Option<Dict>, newId: string, r: Resource,
                           id: string)
    requires r != Memberships && verb != Delete && id in s.Table(r)
    requires Serve(s, verb, path, body, newId).Some?
    ensures id in Serve(s, verb, path, body, newId).value.Table(r)
  {
    hide Serve;
    ServedTable(s, verb, path, body, newId, r);
  }

  // ---- stretches of a run ---------------------------------------------------------------------

  datatype Run = Run(start: RunState, ops: seq<Operation>, replies: nat -> Reply) {
    function At(n: nat): RunState
      requires n <= |ops|
    {
      RunTo(start, ops, replies, n)
    }

    function Remote(n: nat): Remote
      requires n <= |ops|
    {
      At(n).remote
    }

    /** Nothing failed among the first `n` operations. */
    ghost predicate Ran(n: nat) {
      n <= |ops| && At(n).failure == None
    }

    /** The body the k-th request carried. */
    function Body(k: nat): Option<Dict>
      requires k < |ops|
    {
      match ResolveBody(ops[k].body, At(k).ids) case Failure(_) => None case Success(body) => body
    }
  }

  lemma StartOfRun(run: Run)
    ensures run.Remote(0) == run.start.remote && run.At(0) == run.start
  {
  }

  lemma {:induction false} RanPrefix(run: Run, n: nat, k: nat)
    requires run.Ran(n) && k <= n
    ensures run.Ran(k)
    decreases n
  {
    if k < n {
      RanPrefix(run, n - 1, k);
    }
  }

  /** Nothing ever failed. */
  ghost predicate NeverFails(run: Run) {
    forall n: nat | n <= |run.ops| :: run.Ran(n)
  }

  lemma RanThroughout(run: Run)
    ensures NeverFails(run) <==> run.Ran(|run.ops|)
  {
    hide RunTo;
    if run.Ran(|run.ops|) {
      forall n: nat | n <= |run.ops| ensures run.Ran(n) {
        RanPrefix(run, |run.ops|, n);
      }
    }
  }

  lemma RanStep(run: Run, n: nat, k: nat)
    requires run.Ran(n) && k < n
    ensures run.Ran(k) && run.Ran(k + 1) && run.replies(k).Accepted?
    ensures ResolveBody(run.ops[k].body, run.At(k).ids) == Success(run.Body(k))
    ensures Serve(run.Remote(k), run.ops[k].verb, run.ops[k].path, run.Body(k), run.replies(k).id) ==
      Some(run.Remote(k + 1))
    ensures run.At(k + 1).ids == Learn(run.At(k).ids, run.ops[k], run.replies(k))
    ensures run.At(k + 1).completed == run.At(k).completed + [run.ops[k]]
  {
    hide Serve, Resolve, ResolveBody, Learn;
    RanPrefix(run, n, k);
    RanPrefix(run, n, k + 1);
  }

  lemma {:induction false} RowKept(run: Run, n: nat, i: nat, j: nat, r: Resource, id: string)
    requires run.Ran(n) && i <= j <= n && r != Memberships && id in run.Remote(i).Table(r)
    requires forall q | i <= q < j :: !TouchesRow(run.ops[q].path, r, id)
    ensures id in run.Remote(j).Table(r) && run.Remote(j).Table(r)[id] == run.Remote(i).Table(r)[id]
    decreases j
  {
    hide RunTo, Serve;
    if i < j {
      RowKept(run, n, i, j - 1, r, id);
      RanStep(run, n, j - 1);
      ServeKeepsRow(run.Remote(j - 1), run.ops[j - 1].verb, run.ops[j - 1].path, run.Body(j - 1), run.replies(j - 1).id,
        r, id);
    }
  }

  lemma {:induction false} MembershipKept(run: Run, n: nat, i: nat, j: nat, k: (string, string))
    requires run.Ran(n) && i <= j <= n && k in run.Remote(i).memberships
    requires forall q | i <= q < j :: run.ops[q].path != MembershipOf(k.0, k.1)
    ensures k in run.Remote(j).memberships && run.Remote(j).memberships[k] == run.Remote(i).memberships[k]
    decreases j
  {
    hide RunTo, Serve;
    if i < j {
      MembershipKept(run, n, i, j - 1, k);
      RanStep(run, n, j - 1);
      ServeKeepsMembership(run.Remote(j - 1), run.ops[j - 1].verb, run.ops[j - 1].path, run.Body(j - 1),
        run.replies(j - 1).id, k);
    }
  }

  lemma {:induction false} UsersKept(run: Run, n: nat, j: nat)
    requires run.Ran(n) && j <= n
    ensures run.Remote(j).users == run.start.remote.users
    decreases j
  {
    hide Serve, Resolve, ResolveBody;
    if 0 < j {
      UsersKept(run, n, j - 1);
      RanStep(run, n, j - 1);
      ServeKeepsUsers(run.Remote(j - 1), run.ops[j - 1].verb, run.ops[j - 1].path, run.Body(j - 1),
        run.replies(j - 1).id);
    }
  }

  lemma {:induction false} RowStays(run: Run, n: nat, i: nat, j: nat, r: Resource, id: string)
    requires run.Ran(n) && i <= j <= n && r != Memberships && id in run.Remote(i).Table(r)
    requires forall q | i <= q < j :: run.ops[q].verb != Delete
    ensures id in run.Remote(j).Table(r)
    decreases j
  {
    hide RunTo, Serve;
    if i < j {
      RowStays(run, n, i, j - 1, r, id);
      RanStep(run, n, j - 1);
      ServeKeepsPresence(run.Remote(j - 1), run.ops[j - 1].verb, run.ops[j - 1].path, run.Body(j - 1),
        run.replies(j - 1).id, r, id);
    }
  }

  /** A row that has gone stays gone while nothing is created. */
  lemma {:induction false} StaysGone(run: Run, n: nat, i: nat, j: nat, r: Resource, id: string)
    requires run.Ran(n) && i <= j <= n && r != Memberships && id !in run.Remote(i).Table(r)
    requires forall q | i <= q < j :: run.ops[q].path != Collection(r)
    ensures id !in run.Remote(j).Table(r)
    decreases j
  {
    hide Serve, ResolveBody;
    if i < j {
      StaysGone(run, n, i, j - 1, r, id);
      RanStep(run, n, j - 1);
      if id in run.Remote(j).Table(r) {
        ServeAddsRow(run.Remote(j - 1), run.ops[j - 1].verb, run.ops[j - 1].path, run.Body(j - 1),
          run.replies(j - 1).id, r, id);
      }
    }
  }

  lemma {:induction false} MembershipStaysGone(run: Run, n: nat, i: nat, j: nat, k: (string, string))
    requires run.Ran(n) && i <= j <= n && k !in run.Remote(i).memberships
    requires forall q | i <= q < j && run.ops[q].path == Collection(Memberships) ::
      k != (PyStr(Get(AttributesOf(run.Body(q)), "entity_id")), PyStr(Get(AttributesOf(run.Body(q)), "user_id")))
    ensures k !in run.Remote(j).memberships
    decreases j
  {
    hide Serve, ResolveBody;
    if i < j {
      MembershipStaysGone(run, n, i, j - 1, k);
      RanStep(run, n, j - 1);
      if k in run.Remote(j).memberships {
        ServeAddsMembership(run.Remote(j - 1), run.ops[j - 1].verb, run.ops[j - 1].path, run.Body(j - 1),
          run.replies(j - 1).id, k);
      }
    }
  }

  // ---- single fields --------------------------------------------------------------------------

  predicate WritesField(op: Operation, f: string) {
    if op.path.MoveOf? then f == "parent_entity_id" else op.body.Some? && f in op.body.value
  }

  lemma ResolvedKeys(body: Option<Dict>, ids: Ids)
    requires ResolveBody(body, ids).Success?
    ensures AttributesOf(ResolveBody(body, ids).value).Keys == AttributesOf(body).Keys
  {
  }

  lemma ServeKeepsField(s: Remote, op: Operation, body: Option<Dict>, newId: string, r: Resource, id: string, f: string)
    requires r != Memberships && id in s.Table(r) && AttributesOf(body).Keys == AttributesOf(op.body).Keys
    requires TouchesRow(op.path, r, id) ==> op.verb != Delete && !WritesField(op, f)
    requires Serve(s, op.verb, op.path, body, newId).Some?
    ensures var t := Serve(s, op.verb, op.path, body, newId).value.Table(r);
      id in t && Get(t[id], f) == Get(s.Table(r)[id], f)
  {
    hide Unused, PyStr;
    if !TouchesRow(op.path, r, id) {
      ServeKeepsRow(s, op.verb, op.path, body, newId, r, id);
    }
  }

  lemma MoveKeepsField(s: Remote, op: Operation, body: Option<Dict>, newId: string, id: string, f: string)
    requires id in s.entities && op.path == MoveOf(id) && !WritesField(op, f)
    requires Serve(s, op.verb, op.path, body, newId).Some?
    ensures id in Serve(s, op.verb, op.path, body, newId).value.entities
    ensures Get(Serve(s, op.verb, op.path, body, newId).value.entities[id], f) == Get(s.entities[id], f)
  {
    hide Serve;
    ServedTable(s, op.verb, op.path, body, newId, Entities);
  }

  lemma PatchKeepsField(s: Remote, op: Operation, body: Option<Dict>, newId: string, r: Resource, id: string, f: string)
    requires r != Memberships && id in s.Table(r) && op.path == Element(r, id) && !WritesField(op, f)
    requires AttributesOf(body).Keys == AttributesOf(op.body).Keys
    requires Serve(s, op.verb, op.path, body, newId).Some?
    requires id in Serve(s, op.verb, op.path, body, newId).value.Table(r)
    ensures Get(Serve(s, op.verb, op.path, body, newId).value.Table(r)[id], f) == Get(s.Table(r)[id], f)
  {
    hide Serve;
    ServedTable(s, op.verb, op.path, body, newId, r);
  }

  /** A row that survives a request keeps the fields the request does not write. */
  lemma SurvivorKeepsField(s: Remote, op: Operation, body: Option<Dict>, newId: string, r: Resource, id: string,
                           f: string)
    requires r != Memberships && id in s.Table(r) && AttributesOf(body).Keys == AttributesOf(op.body).Keys
    requires TouchesRow(op.path, r, id) ==> !WritesField(op, f)
    requires Serve(s, op.verb, op.path, body, newId).Some?
    requires id in Serve(s, op.verb, op.path, body, newId).value.Table(r)
    ensures Get(Serve(s, op.verb, op.path, body, newId).value.Table(r)[id], f) == Get(s.Table(r)[id], f)
  {
    hide Unused, PyStr, Serve;
    if TouchesRow(op.path, r, id) {
      if op.path.MoveOf? {
        MoveKeepsField(s, op, body, newId, id, f);
      } else {
        PatchKeepsField(s, op, body, newId, r, id, f);
      }
    } else {
      ServeKeepsRow(s, op.verb, op.path, body, newId, r, id);
    }
  }

  /** A field keeps its value as long as no operation writes it or deletes the row. */
  lemma {:induction false} FieldKept(run: Run, n: nat, i: nat, j: nat, r: Resource, id: string, f: string)
    requires run.Ran(n) && i <= j <= n && r != Memberships && id in run.Remote(i).Table(r)
    requires forall q | i <= q < j && TouchesRow(run.ops[q].path, r, id) ::
      run.ops[q].verb != Delete && !WritesField(run.ops[q], f)
    ensures id in run.Remote(j).Table(r) && Get(run.Remote(j).Table(r)[id], f) == Get(run.Remote(i).Table(r)[id], f)
    decreases j
  {
    if i < j {
      FieldKept(run, n, i, j - 1, r, id, f);
      RanStep(run, n, j - 1);
      ResolvedKeys(run.ops[j - 1].body, run.At(j - 1).ids);
      ServeKeepsField(run.Remote(j - 1), run.ops[j - 1], run.Body(j - 1), run.replies(j - 1).id, r, id, f);
    }
  }

  lemma ServeKeepsMembershipField(s: Remote, op: Operation, body: Option<Dict>, newId: string, k: (string, string),
                                  f: string)
    requires k in s.memberships && AttributesOf(body).Keys == AttributesOf(op.body).Keys
    requires op.path == MembershipOf(k.0, k.1) ==> op.verb != Delete && !WritesField(op, f)
    requires Serve(s, op.verb, op.path, body, newId).Some?
    ensures var t := Serve(s, op.verb, op.path, body, newId).value.memberships;
      k in t && Get(t[k], f) == Get(s.memberships[k], f)
  {
    if op.path != MembershipOf(k.0, k.1) {
      ServeKeepsMembership(s, op.verb, op.path, body, newId, k);
    }
  }

  lemma {:induction false} MembershipFieldKept(run: Run, n: nat, i: nat, j: nat, k: (string, string), f: string)
    requires run.Ran(n) && i <= j <= n && k in run.Remote(i).memberships
    requires forall q | i <= q < j && run.ops[q].path == MembershipOf(k.0, k.1) ::
      run.ops[q].verb != Delete && !WritesField(run.ops[q], f)
    ensures k in run.Remote(j).memberships
    ensures Get(run.Remote(j).memberships[k], f) == Get(run.Remote(i).memberships[k], f)
    decreases j
  {
    if i < j {
      MembershipFieldKept(run, n, i, j - 1, k, f);
      RanStep(run, n, j - 1);
      ResolvedKeys(run.ops[j - 1].body, run.At(j - 1).ids);
      ServeKeepsMembershipField(run.Remote(j - 1), run.ops[j - 1], run.Body(j - 1), run.replies(j - 1).id, k, f);
    }
  }

  /** Where a row of a later state comes from. */
  lemma {:induction false} RowOrigin(run: Run, n: nat, j: nat, r: Resource, id: string)
    requires run.Ran(n) && j <= n && r != Memberships && id in run.Remote(j).Table(r)
    ensures id in run.start.remote.Table(r) ||
      exists q | 0 <= q < j :: run.ops[q].path == Collection(r) && run.replies(q).Accepted? && run.replies(q).id == id
    decreases j
  {
    hide Serve, ResolveBody;
    if j > 0 {
      RanStep(run, n, j - 1);
      if id in run.Remote(j - 1).Table(r) {
        RowOrigin(run, n, j - 1, r, id);
      } else {
        ServeAddsRow(run.Remote(j - 1), run.ops[j - 1].verb, run.ops[j - 1].path, run.Body(j - 1),
          run.replies(j - 1).id, r, id);
      }
    }
  }

  lemma {:induction false} MembershipOrigin(run: Run, n: nat, j: nat, k: (string, string))
    requires run.Ran(n) && j <= n && k in run.Remote(j).memberships
    ensures k in run.start.remote.memberships ||
      exists q | 0 <= q < j :: run.ops[q].path == Collection(Memberships) &&
        k == (PyStr(Get(AttributesOf(run.Body(q)), "entity_id")), PyStr(Get(AttributesOf(run.Body(q)), "user_id")))
    decreases j
  {
    hide Serve, ResolveBody;
    if j > 0 {
      RanStep(run, n, j - 1);
      if k in run.Remote(j - 1).memberships {
        MembershipOrigin(run, n, j - 1, k);
      } else {
        ServeAddsMembership(run.Remote(j - 1), run.ops[j - 1].verb, run.ops[j - 1].path, run.Body(j - 1),
          run.replies(j - 1).id, k);
      }
    }
  }

  // ---- the ids learnt -------------------------------------------------------------------------

  /** The operation that made an id known to the run. */
  predicate Teaches(op: Operation, reply: Reply, resource: string, key: string) {
    op.action == CreateAction && reply.Accepted? && reply.echoed && reply.id != "" &&
    ResourceName(op.resource) == resource && Fold(op.identity) == key
  }

  lemma LearnFrame(ids: Ids, op: Operation, reply: Reply, resource: string, key: string)
    ensures IdFor(Learn(ids, op, reply), resource, key) ==
      if Teaches(op, reply, resource, key) then Some(reply.id) else IdFor(ids, resource, key)
  {
  }

  lemma {:induction false} IdsKept(run: Run, n: nat, i: nat, j: nat, resource: string, key: string)
    requires run.Ran(n) && i <= j <= n
    requires forall q | i <= q < j :: !Teaches(run.ops[q], run.replies(q), resource, key)
    ensures IdFor(run.At(j).ids, resource, key) == IdFor(run.At(i).ids, resource, key)
    decreases j
  {
    hide Serve, ResolveBody;
    if i < j {
      IdsKept(run, n, i, j - 1, resource, key);
      RanStep(run, n, j - 1);
      LearnFrame(run.At(j - 1).ids, run.ops[j - 1], run.replies(j - 1), resource, key);
    }
  }

  lemma {:induction false} IdsStayKnown(run: Run, n: nat, i: nat, j: nat, resource: string, key: string)
    requires run.Ran(n) && i <= j <= n && IdFor(run.At(i).ids, resource, key).Some?
    ensures IdFor(run.At(j).ids, resource, key).Some?
    decreases j
  {
    hide Serve, ResolveBody;
    if i < j {
      IdsStayKnown(run, n, i, j - 1, resource, key);
      RanStep(run, n, j - 1);
      LearnFrame(run.At(j - 1).ids, run.ops[j - 1], run.replies(j - 1), resource, key);
    }
  }
}
