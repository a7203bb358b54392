/** Planning again after a plan has been applied completely: memberships. */
module SecondMemberships {
  import opened Outcomes
  import opened Text
  import opened JsonValues
  import opened Manifests
  import opened RemoteStore
  import opened Planner
  import opened PlanShape
  import opened SnapshotFacts
  import opened Executor
  import opened RunFacts
  import opened ReferenceSafety
  import opened RunOfPlan
  import opened FinalState
  import opened Convergence
  import opened FinalMemberships
  import opened SecondPlan

  // ---- the pair an item stands for ------------------------------------------------------------

  /** A present membership item of the manifest, with the user and the entity it joins in the end. */
  ghost predicate Pair(m: Manifest, remote: Remote, b: Blueprint, run: Run, i: nat, e: string, u: string) {
    && i < |m.memberships| && Present(m.memberships[i]) && PlanItem(Memberships, b.c, m.memberships[i]).Success?
    && UserKey(m.memberships[i]) in b.c.users && Get(b.c.users[UserKey(m.memberships[i])], "id") == Str(u)
    && u in remote.users && EmailKey(remote.users[u]) == Some(UserKey(m.memberships[i])) &&
      UserAsked(remote, m.memberships, u)
    && PlannedEntity(b.c, m.memberships[i]).Success? && PlannedRoleIds(b.c, m.memberships[i]).Success?
    && Denotes(m, b, run, |run.ops|, Entities, Fold(PyStr(Get(m.memberships[i], "entity"))), e)
  }

  lemma ItemPair(m: Manifest, remote: Remote, b: Blueprint, run: Run, i: nat) returns (e: string, u: string)
    requires Applied(m, remote, b, run) && i < |m.memberships| && Present(m.memberships[i])
    ensures Pair(m, remote, b, run, i, e, u)
  {
    hide ValidManifest, FoldDistinct, Compiles, FoldedIdentity, RunTo, PlanItem, PlanItems, Assemble, UserAsked,
      EmailKey, ValidRemote, PlainSlugs, PlainReferences, IdsMatch, Denotes, DeclaredAbsent, LookupOrRef;
    ItemPlanned(m, remote, b, Memberships, i);
    PlansMembership(b.c, m.memberships[i]);
    MembershipReferences(b.c, m.memberships[i]);
    CompiledContext(m, remote, b);
    u := ItemUser(m, remote, b.c, i);
    e := LookupDenotes(m, remote, b, run, Entities, PyStr(Get(m.memberships[i], "entity")));
  }

  lemma MembershipName(m: Manifest, i: nat)
    requires ValidManifest(m) && i < |m.memberships|
    ensures var item := m.memberships[i];
      KeyOf(Memberships, item) == MembershipIdentity(PyStr(Get(item, "user")), PyStr(Get(item, "entity")))
  {
    assert m.memberships[i] in m.Items(Memberships);
    ManifestKeys(m, Memberships, m.memberships[i]);
    FoldedName(m.memberships[i]);
  }

  lemma EmailOf(remote: Remote, u: string)
    requires ValidRemote(remote) && u in remote.users
    ensures EmailKey(remote.users[u]) == Some(Fold(Get(remote.users[u], "email").s))
    ensures Get(remote.users[u], "email").Str?
  {
  }

  lemma SlugOf(s: Remote, e: string)
    requires ValidRemote(s) && e in s.entities
    ensures FoldedIdentity(Entities, s.entities[e]) == Some(Fold(Get(s.entities[e], "slug").s))
    ensures Get(s.entities[e], "slug").Str?
  {
    assert ValidRow(Entities, e, s.entities[e]);
    ValidRowIdentity(Entities, e, s.entities[e]);
  }

  /** In any store that knows both, the pair bears the item's identity. */
  lemma PairKey(m: Manifest, s: Remote, i: nat, e: string, u: string)
    requires ValidManifest(m) && ValidRemote(s) && i < |m.memberships| && u in s.users && e in s.entities
    requires EmailKey(s.users[u]) == Some(UserKey(m.memberships[i]))
    requires FoldedIdentity(Entities, s.entities[e]) == Some(Fold(PyStr(Get(m.memberships[i], "entity"))))
    ensures PairIdentity(s, e, u) == KeyOf(Memberships, m.memberships[i])
    ensures MembershipIdentity(Get(s.users[u], "email").s, Get(s.entities[e], "slug").s) ==
      KeyOf(Memberships, m.memberships[i])
  {
    hide ValidManifest, FoldedIdentity, EmailKey, ValidRemote;
    EmailOf(s, u);
    SlugOf(s, e);
    MembershipName(m, i);
    PairIdentityIs(s, e, u);
  }

  /** If the entity was stored before, it already bore its slug. */
  lemma StoredPairEntity(m: Manifest, remote: Remote, b: Blueprint, run: Run, i: nat, e: string, u: string)
    requires Applied(m, remote, b, run) && Pair(m, remote, b, run, i, e, u) && e in remote.entities
    ensures FoldedIdentity(Entities, remote.entities[e]) == Some(Fold(PyStr(Get(m.memberships[i], "entity"))))
  {
    hide ValidManifest, FoldDistinct, Compiles, FoldedIdentity, RunTo, PlanItem, UserAsked, EmailKey, ValidRemote,
      PlainSlugs, PlainReferences, IdsMatch, LookupOrRef, CreatesKey, NoAbsentReferences;
    var key := Fold(PyStr(Get(m.memberships[i], "entity")));
    if key in b.c.Current(Entities) {
      CurrentRow(m, remote, b, Entities, key);
    } else {
      var q :| 0 <= q < |run.ops| && CreatesKey(run.ops[q], Entities, key) && run.replies(q).Accepted? &&
        run.replies(q).id == e;
      CreatedPath(run.ops[q], Entities, key);
      RanPrefix(run, |run.ops|, q + 1);
      CreatedIdIsNew(m, remote, b, run, q, Entities, Entities);
    }
  }

  /** What is found under a membership item's identity joins the item's user and an entity of its name. */
  lemma FoundNames(m: Manifest, s: Remote, c: Context, i: nat, u: string) returns (e: string)
    requires ValidManifest(m) && PlainMembershipNames(m) && ContextOf(m, s, c) && ValidRemote(s)
    requires i < |m.memberships| && KeyOf(Memberships, m.memberships[i]) in c.memberships
    requires u in s.users && EmailKey(s.users[u]) == Some(UserKey(m.memberships[i]))
    ensures IsJoin(s, c.memberships[KeyOf(Memberships, m.memberships[i])], e, u)
    ensures e in s.entities
    ensures FoldedIdentity(Entities, s.entities[e]) == Some(Fold(PyStr(Get(m.memberships[i], "entity"))))
  {
    hide ValidManifest, ContextOf, FoldedIdentity, EmailKey, ValidRemote, MembershipIdentity, UserAsked, JoinOf;
    var item := m.memberships[i];
    var e', u' := FoundMembership(m, s, c, KeyOf(Memberships, item));
    MembershipName(m, i);
    EmailOf(s, u');
    SlugOf(s, e');
    NoAt(s, e');
    assert item in m.memberships;
    IdentityDetermines(PyStr(Get(item, "user")), PyStr(Get(item, "entity")), Get(s.users[u'], "email").s,
      Get(s.entities[e'], "slug").s);
    SameUser(s, u, u');
    e := e';
  }

  /** What the first call found under the item's identity was the pair's own membership. */
  lemma FoundPair(m: Manifest, remote: Remote, b: Blueprint, run: Run, i: nat, e: string, u: string)
    requires Applied(m, remote, b, run) && Pair(m, remote, b, run, i, e, u)
    requires KeyOf(Memberships, m.memberships[i]) in b.c.memberships
    ensures e in remote.entities && (e, u) in remote.memberships
    ensures b.c.memberships[KeyOf(Memberships, m.memberships[i])] == JoinOf(remote, e, u)
  {
    hide ValidManifest, FoldDistinct, Compiles, FoldedIdentity, RunTo, PlanItem, UserAsked, EmailKey, ValidRemote,
      PlainSlugs, PlainReferences, IdsMatch, LookupOrRef, CreatesKey, NoAbsentReferences, MembershipIdentity, Denotes,
      RowId, JoinOf;
    CompiledContext(m, remote, b);
    var e' := FoundNames(m, remote, b.c, i, u);
    StoredIsKnown(m, remote, b, Entities, e', Fold(PyStr(Get(m.memberships[i], "entity"))));
    DenotedIsStored(m, b, run, Entities, Fold(PyStr(Get(m.memberships[i], "entity"))), e, e');
  }

  lemma DenotedIsStored(m: Manifest, b: Blueprint, run: Run, r: Resource, key: string, id: string, id': string)
    requires r != Memberships && Denotes(m, b, run, |run.ops|, r, key, id)
    requires key in b.c.Current(r) && RowId(b.c.Current(r)[key]) == id'
    ensures id == id'
  {
    hide RunTo, FoldedIdentity, CreatesKey;
  }

  lemma NoAt(remote: Remote, e: string)
    requires ValidRemote(remote) && e in remote.entities
    ensures Get(remote.entities[e], "slug").Str? && '@' !in Get(remote.entities[e], "slug").s
  {
    assert ValidRow(Entities, e, remote.entities[e]);
  }

  lemma SameUser(remote: Remote, u: string, u': string)
    requires ValidRemote(remote) && u in remote.users && u' in remote.users
    requires EmailKey(remote.users[u]) == EmailKey(remote.users[u'])
    ensures u == u'
  {
    assert ValidUsers(remote.users);
  }

  /** Operation `q` is one of the item's, at its place in the plan. */
  ghost predicate InPairSlice(m: Manifest, b: Blueprint, i: nat, q: nat, op: Operation) {
    && i < |m.memberships| && PlanItem(Memberships, b.c, m.memberships[i]).Success? &&
      PlanItems(Memberships, b.c, m.memberships[..i]).Success?
    && var changes := PlanItem(Memberships, b.c, m.memberships[i]).value.changes;
    var lo := b.Base(Memberships) + Offset(Memberships, b.c, m.memberships, i);
    lo <= q < lo + |changes| && op == changes[q - lo]
  }

  /** Operations on the pair's membership stand in the item's slice. */
  lemma PairOperations(m: Manifest, remote: Remote, b: Blueprint, run: Run, i: nat, e: string, u: string, q: nat)
    requires Applied(m, remote, b, run) && Pair(m, remote, b, run, i, e, u)
    requires q < |run.ops| && run.ops[q].path == MembershipOf(e, u)
    ensures InPairSlice(m, b, i, q, run.ops[q]) && run.ops[q].verb != Delete
    ensures KeyOf(Memberships, m.memberships[i]) in b.c.memberships
  {
    hide ValidManifest, FoldDistinct, Compiles, FoldedIdentity, RunTo, PlanItem, PlanItems, Assemble, UserAsked,
      EmailKey, ValidRemote, PlainSlugs, PlainReferences, IdsMatch, LookupOrRef, CreatesKey, NoAbsentReferences,
      MembershipIdentity, PairIdentity, Denotes, InPairSlice;
    var i' := TouchedMembership(m, remote, b, q, e, u);
    StoredPairEntity(m, remote, b, run, i, e, u);
    PairKey(m, remote, i, e, u);
    KeysArePlaces(m, remote, b, Memberships, i, i');
    ChangesDoNotDelete'(m, remote, b, q);
    PairSliceHolds(m, remote, b, i, q);
    PairFiled(m, remote, b, e, u);
  }

  lemma PairSliceHolds(m: Manifest, remote: Remote, b: Blueprint, i: nat, q: nat)
    requires ValidManifest(m) && FoldDistinct(m) && Compiles(m, remote, b)
    requires i < |m.memberships| && q < b.ChangeCount() && q < |b.Ops()|
    requires b.Ops()[q].resource == Memberships && Fold(b.Ops()[q].identity) == KeyOf(Memberships, m.memberships[i])
    ensures InPairSlice(m, b, i, q, b.Ops()[q])
  {
    hide ValidManifest, FoldDistinct, Compiles, PlanItem, PlanItems, Assemble, FoldedIdentity;
    var l, h := ChangeInSlice(m, remote, b, Memberships, i, q);
    assert |b.Group(Memberships).changes[l..h]| == h - l;
    GroupPosition(b, Memberships, q - b.Base(Memberships));
  }

  lemma PairFiled(m: Manifest, remote: Remote, b: Blueprint, e: string, u: string)
    requires Compiles(m, remote, b) && ValidRemote(remote) && UserAsked(remote, m.memberships, u)
    requires e in remote.entities && (e, u) in remote.memberships
    ensures PairIdentity(remote, e, u) in b.c.memberships
  {
    hide Compiles, ContextOf, ValidRemote, MembershipIdentity, PairIdentity;
    CompiledContext(m, remote, b);
    assert u in remote.users;
    PairIdentityIs(remote, e, u);
    MembershipFound(m, remote, b.c, e, u);
  }

  lemma ChangesDoNotDelete'(m: Manifest, remote: Remote, b: Blueprint, q: nat)
    requires Compiles(m, remote, b) && q < |b.Ops()|
    ensures q < b.ChangeCount() ==> b.Ops()[q].verb != Delete
  {
    hide Compiles, Assemble;
    if q < b.ChangeCount() {
      ChangesDoNotDelete(m, remote, b, q);
    }
  }

  // ---- fields ---------------------------------------------------------------------------------

  /** None of the item's operations from `p` on writes the field. */
  ghost predicate QuietFrom(m: Manifest, b: Blueprint, i: nat, f: string, p: nat) {
    forall q, op | p <= q && InPairSlice(m, b, i, q, op) :: !WritesField(op, f)
  }

  lemma PairFieldFromHere(m: Manifest, remote: Remote, b: Blueprint, run: Run, i: nat, e: string, u: string, f: string,
                          p: nat)
    requires Applied(m, remote, b, run) && Pair(m, remote, b, run, i, e, u)
    requires p <= |run.ops| && (e, u) in run.Remote(p).memberships && QuietFrom(m, b, i, f, p)
    ensures (e, u) in Final(run).memberships
    ensures Get(Final(run).memberships[(e, u)], f) == Get(run.Remote(p).memberships[(e, u)], f)
  {
    hide Applies, RunTo, PlanItem, PlanItems, Pair, WritesField, InPairSlice, PlainSlugs, PlainReferences, IdsMatch,
      NoAbsentReferences;
    forall q | p <= q < |run.ops| && run.ops[q].path == MembershipOf(e, u)
      ensures run.ops[q].verb != Delete && !WritesField(run.ops[q], f)
    {
      PairOperations(m, remote, b, run, i, e, u, q);
    }
    MembershipFieldKept(run, |run.ops|, p, |run.ops|, (e, u), f);
  }

  lemma ServePatchesMembership(s: Remote, body: Option<Dict>, newId: string, e: string, u: string, f: string)
    requires body.Some? && f in body.value && Serve(s, Patch, MembershipOf(e, u), body, newId).Some?
    ensures var t := Serve(s, Patch, MembershipOf(e, u), body, newId).value.memberships;
      (e, u) in t && Get(t[(e, u)], f) == body.value[f]
  {
  }

  lemma ServeCreatesMembership(s: Remote, body: Option<Dict>, newId: string, e: string, u: string)
    requires Serve(s, Post, Collection(Memberships), body, newId).Some?
    requires Get(AttributesOf(body), "entity_id") == Str(e) && Get(AttributesOf(body), "user_id") == Str(u)
    ensures var t := Serve(s, Post, Collection(Memberships), body, newId).value.memberships;
      (e, u) in t && t[(e, u)] == AttributesOf(body)["id" := Str(newId)]
  {
  }

  /** A stored membership's field ends as it was, or as the resolved value of the item's update. */
  lemma StoredPairField(m: Manifest, remote: Remote, b: Blueprint, run: Run, i: nat, e: string, u: string, f: string,
                        changes: Dict)
    returns (p: nat)
    requires Applied(m, remote, b, run) && Pair(m, remote, b, run, i, e, u)
    requires KeyOf(Memberships, m.memberships[i]) in b.c.memberships
    requires PlanItem(Memberships, b.c, m.memberships[i]).value.changes ==
      UpdateOf(Memberships, NameOf(Memberships, m.memberships[i]),
        b.c.memberships[KeyOf(Memberships, m.memberships[i])], changes)
    ensures (e, u) in Final(run).memberships && (e, u) in remote.memberships && p < |run.ops| + 1
    ensures f !in changes ==> Get(Final(run).memberships[(e, u)], f) == Get(remote.memberships[(e, u)], f)
    ensures f in changes ==>
      p < |run.ops| && Resolve(changes[f], run.At(p).ids) == Success(Get(Final(run).memberships[(e, u)], f))
  {
    hide ValidManifest, FoldDistinct, FoldedIdentity, RunTo, Serve, PlanItem, PlanItems, Assemble, UserAsked,
      EmailKey, ValidRemote, Compiles, PlainSlugs, PlainReferences, IdsMatch, LookupOrRef, NoAbsentReferences,
      MembershipIdentity, Denotes, Resolve;
    FoundPair(m, remote, b, run, i, e, u);
    JoinPath(remote, b.c.memberships[KeyOf(Memberships, m.memberships[i])], e, u);
    ItemPlanned(m, remote, b, Memberships, i);
    StartOfRun(run);
    if f in changes {
      p := ItemOperationAt(m, remote, b, Memberships, i, 0);
      RanStep(run, |run.ops|, p);
      ResolvedField(run, |run.ops|, p, f);
      ServePatchesMembership(run.Remote(p), run.Body(p), run.replies(p).id, e, u, f);
      PairFieldFromHere(m, remote, b, run, i, e, u, f, p + 1);
    } else {
      p := 0;
      PairFieldFromHere(m, remote, b, run, i, e, u, f, 0);
    }
  }

  /** A created membership carries the resolved value of each field of its body. */
  lemma NewPairField(m: Manifest, remote: Remote, b: Blueprint, run: Run, i: nat, e: string, u: string, f: string)
    returns (p: nat)
    requires Applied(m, remote, b, run) && Pair(m, remote, b, run, i, e, u) && f != "id"
    requires KeyOf(Memberships, m.memberships[i]) !in b.c.memberships
    ensures |PlanItem(Memberships, b.c, m.memberships[i]).value.changes| == 1
    ensures (e, u) in Final(run).memberships && p < |run.ops|
    ensures var op := PlanItem(Memberships, b.c, m.memberships[i]).value.changes[0];
      && op.body.Some?
      && (f in op.body.value ==>
        Resolve(op.body.value[f], run.At(p).ids) == Success(Get(Final(run).memberships[(e, u)], f)))
  {
    hide Applies, RunTo, Serve, PlanItem, PlanItems, UserAsked, EmailKey, PlainSlugs, PlainReferences, IdsMatch,
      LookupOrRef, NoAbsentReferences, Denotes, Resolve, WritesField;
    p := NewPairCreated(m, remote, b, run, i, e, u);
    NewPairUntouched(m, remote, b, run, i, e, u, p);
    MembershipKept(run, |run.ops|, p + 1, |run.ops|, (e, u));
    if f in run.ops[p].body.value {
      ResolvedField(run, |run.ops|, p, f);
    }
  }

  lemma NewPairCreated(m: Manifest, remote: Remote, b: Blueprint, run: Run, i: nat, e: string, u: string)
    returns (p: nat)
    requires Applied(m, remote, b, run) && Pair(m, remote, b, run, i, e, u)
    requires KeyOf(Memberships, m.memberships[i]) !in b.c.memberships
    ensures p < |run.ops| && run.replies(p).Accepted? && run.ops[p].body.Some?
    ensures PlanItem(Memberships, b.c, m.memberships[i]).value.changes == [run.ops[p]]
    ensures (e, u) in run.Remote(p + 1).memberships
    ensures run.Remote(p + 1).memberships[(e, u)] == AttributesOf(run.Body(p))["id" := Str(run.replies(p).id)]
  {
    hide ValidManifest, FoldDistinct, FoldedIdentity, RunTo, Serve, PlanItem, PlanItems, Assemble, UserAsked,
      EmailKey, ValidRemote, Compiles, PlainSlugs, PlainReferences, IdsMatch, LookupOrRef, NoAbsentReferences,
      MembershipIdentity, Denotes, Resolve, WritesField;
    var item := m.memberships[i];
    PlansMembership(b.c, item);
    MembershipCreated(b.c, item);
    ItemOperations(Memberships, b.c, item);
    p := ItemOperationAt(m, remote, b, Memberships, i, 0);
    RanStep(run, |run.ops|, p);
    ResolvedField(run, |run.ops|, p, "entity_id");
    ResolvedField(run, |run.ops|, p, "user_id");
    TextResolves(Str(u), run.At(p).ids);
    assert Reads(m, Entities);
    LookupMeans(m, remote, b, run, |run.ops|, p, Entities, PyStr(Get(item, "entity")), e);
    CreatedPath(run.ops[p], Memberships, Fold(run.ops[p].identity));
    ServeCreatesMembership(run.Remote(p), run.Body(p), run.replies(p).id, e, u);
  }

  lemma NewPairUntouched(m: Manifest, remote: Remote, b: Blueprint, run: Run, i: nat, e: string, u: string, p: nat)
    requires Applied(m, remote, b, run) && Pair(m, remote, b, run, i, e, u)
    requires KeyOf(Memberships, m.memberships[i]) !in b.c.memberships
    ensures forall q | 0 <= q < |run.ops| :: run.ops[q].path != MembershipOf(e, u)
  {
    hide Applied, RunTo, PlanItem, PlanItems, Pair;
    forall q | 0 <= q < |run.ops| ensures run.ops[q].path != MembershipOf(e, u) {
      if run.ops[q].path == MembershipOf(e, u) {
        PairOperations(m, remote, b, run, i, e, u, q);
      }
    }
  }
}
