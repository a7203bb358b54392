/** The planner's dictionaries say what the store holds. */
module SnapshotFacts {
  import opened Outcomes
  import opened Text
  import opened JsonValues
  import opened Indexing
  import opened Manifests
  import opened RemoteStore
  import opened Planner
  import opened PlanShape

  function RowId(row: Dict): string {
    PyStr(Get(row, "id"))
  }

  /** `current` files exactly the rows of the table, each under its casefolded identity. */
  ghost predicate Indexes(r: Resource, t: map<string, Dict>, current: map<string, Dict>) {
    && (forall id | id in t :: FoldedIdentity(r, t[id]).Some? && FoldedIdentity(r, t[id]).value in current
                            && current[FoldedIdentity(r, t[id]).value] == t[id])
    && (forall k | k in current :: RowId(current[k]) in t && t[RowId(current[k])] == current[k]
                                && FoldedIdentity(r, current[k]) == Some(k))
  }

  lemma ValidRowIdentity(r: Resource, id: string, row: Dict)
    requires r != Memberships && ValidRow(r, id, row)
    ensures FoldedIdentity(r, row) == Some(Fold(Get(row, IdentityField(r)).s)) && RowId(row) == id
  {
  }

  lemma ListingDistinct(r: Resource, t: map<string, Dict>)
    requires r != Memberships && ValidTable(r, t)
    ensures Distinct(Keyed(r), Listing(t))
  {
    var rows, ids := Listing(t), SortedKeys(t.Keys);
    forall i, j | 0 <= i < j < |rows| ensures Keyed(r)(rows[i]) != Keyed(r)(rows[j]) {
      assert ids[i] in ids && ids[j] in ids;
      assert FoldedIdentity(r, t[ids[i]]) != FoldedIdentity(r, t[ids[j]]);
    }
  }

  lemma ListingIndexed(r: Resource, t: map<string, Dict>)
    requires r != Memberships && ValidTable(r, t)
    ensures Indexes(r, t, ItemsByIdentity(r, Listing(t)))
  {
    var current := ItemsByIdentity(r, Listing(t));
    ListingDistinct(r, t);
    ListingMembers(t);
    IndexFinds(Keyed(r), Listing(t));
    IndexSound(Keyed(r), Listing(t));
    forall id | id in t ensures FoldedIdentity(r, t[id]).Some? && FoldedIdentity(r, t[id]).value in current
                              && current[FoldedIdentity(r, t[id]).value] == t[id] {
      ValidRowIdentity(r, id, t[id]);
      assert Keyed(r)(t[id]) == FoldedIdentity(r, t[id]);
    }
    forall k | k in current ensures RowId(current[k]) in t && t[RowId(current[k])] == current[k]
                                  && FoldedIdentity(r, current[k]) == Some(k) {
      var id :| id in t && t[id] == current[k];
      ValidRowIdentity(r, id, t[id]);
      assert Keyed(r)(current[k]) == FoldedIdentity(r, current[k]);
    }
  }

  /** Whether a manifest makes the planner read a table. */
  predicate Reads(m: Manifest, r: Resource) {
    match r
    case Permissions => m.permissions != []
    case Entities => NeedsEntities(m)
    case Roles => m.roles != [] || m.memberships != []
    case Memberships => m.memberships != []
  }

  /** The planner's dictionaries for a manifest, read from a store. */
  ghost predicate ContextOf(m: Manifest, remote: Remote, c: Context) {
    FetchSnapshot(remote, m).Success? && c == MakeContext(m, FetchSnapshot(remote, m).value)
  }

  lemma ContextRows(m: Manifest, remote: Remote, c: Context, r: Resource)
    requires ContextOf(m, remote, c) && r != Memberships && ValidTable(r, remote.Table(r))
    ensures Reads(m, r) ==> Indexes(r, remote.Table(r), c.Current(r))
    ensures !Reads(m, r) ==> c.Current(r) == map[]
  {
    hide Indexes;
    ListingIndexed(r, remote.Table(r));
  }

  lemma ContextCurrent(m: Manifest, remote: Remote, b: Blueprint, r: Resource)
    requires Compiles(m, remote, b) && ValidRemote(remote) && r != Memberships
    ensures Reads(m, r) ==> Indexes(r, remote.Table(r), b.c.Current(r))
    ensures !Reads(m, r) ==> b.c.Current(r) == map[]
  {
    hide Indexes, FetchSnapshot, MakeContext;
    ContextRows(m, remote, b.c, r);
  }

  // ---- users ----------------------------------------------------------------------------------

  lemma ValidUserKey(t: map<string, Dict>, id: string)
    requires ValidUsers(t) && id in t
    ensures EmailKey(t[id]) == Some(Fold(Get(t[id], "email").s)) && RowId(t[id]) == id
  {
  }

  ghost predicate UsersFiled(t: map<string, Dict>, users: map<string, Dict>) {
    && (forall k | k in users ::
      RowId(users[k]) in t && t[RowId(users[k])] == users[k] && EmailKey(users[k]) == Some(k))
    && (forall id | id in t :: EmailKey(t[id]).Some? && EmailKey(t[id]).value in users)
  }

  lemma UsersIndexed(t: map<string, Dict>)
    requires ValidUsers(t)
    ensures UsersFiled(t, UsersByEmail(Listing(t)))
  {
    var users := UsersByEmail(Listing(t));
    ListingMembers(t);
    IndexSound(EmailKey, Listing(t));
    IndexComplete(EmailKey, Listing(t));
    forall k | k in users
      ensures RowId(users[k]) in t && t[RowId(users[k])] == users[k] && EmailKey(users[k]) == Some(k) {
      var id :| id in t && t[id] == users[k];
      ValidUserKey(t, id);
    }
    forall id | id in t ensures EmailKey(t[id]).Some? && EmailKey(t[id]).value in users {
      ValidUserKey(t, id);
    }
  }

  lemma ContextUsers(m: Manifest, remote: Remote, c: Context)
    requires ContextOf(m, remote, c) && ValidUsers(remote.users)
    ensures m.memberships != [] ==> UsersFiled(remote.users, c.users)
    ensures m.memberships == [] ==> c.users == map[]
  {
    hide UsersFiled;
    UsersIndexed(remote.users);
  }

  // ---- memberships ----------------------------------------------------------------------------

  /** The membership of `u` in `e` as the snapshot shows it. */
  function JoinOf(s: Remote, e: string, u: string): Dict
    requires (e, u) in s.memberships && u in s.users && e in s.entities
  {
    JoinedRow(s.memberships[(e, u)], s.users[u], s.entities[e])
  }

  ghost predicate IsJoin(s: Remote, row: Dict, e: string, u: string) {
    (e, u) in s.memberships && u in s.users && e in s.entities && row == JoinOf(s, e, u)
  }

  lemma JoinEnds(s: Remote, row: Dict, e: string, u: string)
    requires IsJoin(s, row, e, u)
    ensures (e, u) in s.memberships && u in s.users && e in s.entities
  {
  }

  lemma {:induction false} FoundById(rows: seq<Dict>, id: string)
    ensures FindById(rows, id).Some? ==> FindById(rows, id).value in rows && RowId(FindById(rows, id).value) == id
    ensures FindById(rows, id).None? ==> forall row | row in rows :: RowId(row) != id
  {
    if rows != [] {
      FoundById(rows[1..], id);
      assert rows == [rows[0]] + rows[1..];
    }
  }

  lemma EntityById(t: map<string, Dict>, id: string)
    requires ValidTable(Entities, t)
    ensures FindById(Listing(t), id) == Lookup(t, id)
  {
    FoundById(Listing(t), id);
    ListingMembers(t);
    if FindById(Listing(t), id).Some? {
      var other :| other in t && t[other] == FindById(Listing(t), id).value;
      ValidRowIdentity(Entities, other, t[other]);
    }
    if id in t {
      ValidRowIdentity(Entities, id, t[id]);
    }
  }

  ghost predicate MembershipRow(s: Remote, row: Dict, e: string, u: string) {
    (e, u) in s.memberships && s.memberships[(e, u)] == row
  }

  lemma JoinedOneIs(s: Remote, row: Dict, e: string, u: string)
    requires ValidRemote(s) && u in s.users && MembershipRow(s, row, e, u)
    ensures JoinedOne(row, s.users[u], Listing(s.entities)) == if e in s.entities then [JoinOf(s, e, u)] else []
  {
    hide ValidTable, ValidUsers, Listing, FindById, JoinedRow;
    assert PyStr(Get(row, "entity_id")) == e;
    EntityById(s.entities, e);
  }

  /** The rows are memberships of the user. */
  ghost predicate RowsOfUser(s: Remote, rows: seq<Dict>, u: string) {
    forall raw | raw in rows :: exists e :: MembershipRow(s, raw, e, u)
  }

  lemma JoinedOneSound(s: Remote, raw: Dict, u: string, row: Dict, e: string)
    requires ValidRemote(s) && u in s.users && MembershipRow(s, raw, e, u)
    requires row in JoinedOne(raw, s.users[u], Listing(s.entities))
    ensures IsJoin(s, row, e, u)
  {
    hide ValidRemote, JoinedOne, Listing, JoinedRow;
    JoinedOneIs(s, raw, e, u);
  }

  lemma {:induction false} JoinedSound(s: Remote, rows: seq<Dict>, u: string, row: Dict) returns (e: string)
    requires ValidRemote(s) && u in s.users && RowsOfUser(s, rows, u)
    requires row in Joined(rows, s.users[u], Listing(s.entities))
    ensures IsJoin(s, row, e, u)
  {
    hide JoinedRow, ValidRemote, JoinedOne, JoinOf, IsJoin, MembershipRow, Listing;
    var n := |rows| - 1;
    assert rows[n] in rows && forall raw | raw in rows[..n] :: raw in rows;
    if row in Joined(rows[..n], s.users[u], Listing(s.entities)) {
      e := JoinedSound(s, rows[..n], u, row);
    } else {
      e :| MembershipRow(s, rows[n], e, u);
      JoinedOneSound(s, rows[n], u, row, e);
    }
  }

  lemma {:induction false} JoinedComplete(s: Remote, rows: seq<Dict>, u: string, raw: Dict, e: string)
    requires ValidRemote(s) && u in s.users && e in s.entities
    requires raw in rows && MembershipRow(s, raw, e, u)
    ensures JoinOf(s, e, u) in Joined(rows, s.users[u], Listing(s.entities))
  {
    hide JoinedRow, ValidRemote, JoinedOne, JoinOf;
    var n := |rows| - 1;
    assert rows == rows[..n] + [rows[n]];
    if raw in rows[..n] {
      JoinedComplete(s, rows[..n], u, raw, e);
    } else {
      JoinedOneIs(s, rows[n], e, u);
    }
  }

  function EntitiesOf(s: Remote, u: string): set<string> {
    set k | k in s.memberships && k.1 == u :: k.0
  }

  lemma EntitiesOfUser(s: Remote, u: string, e: string)
    ensures e in EntitiesOf(s, u) <==> (e, u) in s.memberships
  {
    assert (e, u).0 == e;
  }

  lemma UserMembershipRows(s: Remote, u: string)
    ensures RowsOfUser(s, UserMemberships(s, u), u)
    ensures forall e | (e, u) in s.memberships :: s.memberships[(e, u)] in UserMemberships(s, u)
  {
    var es := SortedKeys(EntitiesOf(s, u));
    var rows := UserMemberships(s, u);
    forall i | 0 <= i < |es| ensures MembershipRow(s, rows[i], es[i], u) {
      assert es[i] in es;
    }
    forall row | row in rows ensures exists e :: MembershipRow(s, row, e, u) {
      var i :| 0 <= i < |rows| && rows[i] == row;
      assert MembershipRow(s, row, es[i], u);
    }
    forall e | (e, u) in s.memberships ensures s.memberships[(e, u)] in rows {
      EntitiesOfUser(s, u, e);
      assert e in es;
      var i :| 0 <= i < |es| && es[i] == e;
      assert rows[i] == s.memberships[(e, u)];
    }
  }

  ghost predicate JoinsOnly(s: Remote, rows: seq<Dict>, fetched: set<string>) {
    forall row | row in rows :: exists e, u :: u in fetched && IsJoin(s, row, e, u)
  }

  ghost predicate JoinsAll(s: Remote, rows: seq<Dict>, fetched: set<string>) {
    forall e, u | u in fetched && (e, u) in s.memberships && u in s.users && e in s.entities :: JoinOf(s, e, u) in rows
  }

  /** The rows fetched are the joins of the users asked for, all of them. */
  ghost predicate FetchedExactly(s: Remote, rows: seq<Dict>, fetched: set<string>) {
    JoinsOnly(s, rows, fetched) && JoinsAll(s, rows, fetched)
  }

  lemma MoreOfUser(s: Remote, u: string)
    requires ValidRemote(s) && u in s.users
    ensures FetchedExactly(s, Joined(UserMemberships(s, u), s.users[u], Listing(s.entities)), {u})
  {
    hide ValidRemote, Joined, UserMemberships, JoinOf;
    var more := Joined(UserMemberships(s, u), s.users[u], Listing(s.entities));
    UserMembershipRows(s, u);
    forall row | row in more ensures exists e, v :: v in {u} && IsJoin(s, row, e, v) {
      var e := JoinedSound(s, UserMemberships(s, u), u, row);
      assert u in {u};
    }
    forall e | (e, u) in s.memberships && e in s.entities ensures JoinOf(s, e, u) in more {
      JoinedComplete(s, UserMemberships(s, u), u, s.memberships[(e, u)], e);
    }
  }

  lemma FetchedTogether(s: Remote, rows: seq<Dict>, fetched: set<string>, more: seq<Dict>, others: set<string>)
    requires FetchedExactly(s, rows, fetched) && FetchedExactly(s, more, others)
    ensures FetchedExactly(s, rows + more, fetched + others)
  {
    forall row | row in rows + more ensures exists e, v :: v in fetched + others && IsJoin(s, row, e, v) {
      if row in rows {
        var e, v :| v in fetched && IsJoin(s, row, e, v);
        assert v in fetched + others;
      } else {
        var e, v :| v in others && IsJoin(s, row, e, v);
        assert v in fetched + others;
      }
    }
  }

  lemma ExtendFetched(s: Remote, rows: seq<Dict>, fetched: set<string>, u: string)
    requires ValidRemote(s) && FetchedExactly(s, rows, fetched) && u in s.users
    ensures FetchedExactly(s, rows + Joined(UserMemberships(s, u), s.users[u], Listing(s.entities)), fetched + {u})
  {
    MoreOfUser(s, u);
    FetchedTogether(s, rows, fetched, Joined(UserMemberships(s, u), s.users[u], Listing(s.entities)), {u});
  }

  ghost predicate UserAsked(s: Remote, desired: seq<Dict>, u: string) {
    u in s.users && exists i | 0 <= i < |desired| :: Some(UserKey(desired[i])) == EmailKey(s.users[u])
  }

  lemma AskedIsUser(s: Remote, desired: seq<Dict>, u: string)
    requires UserAsked(s, desired, u)
    ensures u in s.users && desired != []
  {
  }

  lemma AskedFront(s: Remote, desired: seq<Dict>, u: string)
    requires desired != []
    ensures var n := |desired| - 1;
      UserAsked(s, desired, u) <==>
      UserAsked(s, desired[..n], u) || (u in s.users && Some(UserKey(desired[n])) == EmailKey(s.users[u]))
  {
    var n := |desired| - 1;
    if UserAsked(s, desired[..n], u) {
      var i :| 0 <= i < n && Some(UserKey(desired[..n][i])) == EmailKey(s.users[u]);
      assert desired[i] == desired[..n][i];
    }
    if UserAsked(s, desired, u) {
      var i :| 0 <= i < |desired| && Some(UserKey(desired[i])) == EmailKey(s.users[u]);
      if i < n {
        assert desired[..n][i] == desired[i];
      }
    }
  }

  lemma OneUserPerKey(s: Remote, users: map<string, Dict>, key: string)
    requires ValidUsers(s.users) && UsersFiled(s.users, users)
    ensures key !in users ==> forall u | u in s.users :: Some(key) != EmailKey(s.users[u])
    ensures key in users ==> RowId(users[key]) in s.users && s.users[RowId(users[key])] == users[key]
    ensures key in users ==> forall u | u in s.users :: Some(key) == EmailKey(s.users[u]) <==> u == RowId(users[key])
  {
  }

  lemma FetchOneMore(s: Remote, users: map<string, Dict>, entities: seq<Dict>, desired: seq<Dict>)
    requires desired != [] && FetchMemberships(s, users, entities, desired).Success?
    ensures var n := |desired| - 1;
      var key := UserKey(desired[n]);
      && FetchMemberships(s, users, entities, desired[..n]).Success?
      && var (rows, fetched) := FetchMemberships(s, users, entities, desired[..n]).value;
      FetchMemberships(s, users, entities, desired).value ==
        if key in users && RowId(users[key]) !in fetched then
          (rows + Joined(UserMemberships(s, RowId(users[key])), users[key], entities), fetched + {RowId(users[key])})
        else (rows, fetched)
  {
  }

  function FetchedRows(s: Remote, desired: seq<Dict>): Result<(seq<Dict>, set<string>), PlanError> {
    FetchMemberships(s, UsersByEmail(Listing(s.users)), Listing(s.entities), desired)
  }

  lemma {:induction false} MembershipsFetched(s: Remote, desired: seq<Dict>)
    requires ValidRemote(s) && FetchedRows(s, desired).Success?
    ensures FetchedExactly(s, FetchedRows(s, desired).value.0, FetchedRows(s, desired).value.1)
  {
    if desired != [] {
      var users := UsersByEmail(Listing(s.users));
      var n := |desired| - 1;
      var key := UserKey(desired[n]);
      FetchOneMore(s, users, Listing(s.entities), desired);
      MembershipsFetched(s, desired[..n]);
      UsersIndexed(s.users);
      if key in users {
        ExtendFetched(s, FetchedRows(s, desired[..n]).value.0, FetchedRows(s, desired[..n]).value.1, RowId(users[key]));
      }
    }
  }

  lemma {:induction false} FetchedUsers(s: Remote, desired: seq<Dict>, u: string)
    requires ValidRemote(s) && FetchedRows(s, desired).Success?
    ensures u in FetchedRows(s, desired).value.1 <==> UserAsked(s, desired, u)
  {
    if desired != [] {
      var users := UsersByEmail(Listing(s.users));
      var n := |desired| - 1;
      FetchOneMore(s, users, Listing(s.entities), desired);
      FetchedUsers(s, desired[..n], u);
      UsersIndexed(s.users);
      OneUserPerKey(s, users, UserKey(desired[n]));
      AskedFront(s, desired, u);
    }
  }

  lemma JoinTexts(s: Remote, e: string, u: string)
    requires ValidRemote(s) && u in s.users && e in s.entities
    ensures Get(s.users[u], "email").Str? && Get(s.entities[e], "slug").Str?
  {
    assert ValidRow(Entities, e, s.entities[e]);
  }

  lemma JoinKey(s: Remote, row: Dict, e: string, u: string)
    requires ValidRemote(s) && IsJoin(s, row, e, u)
    ensures FoldedIdentity(Memberships, row) ==
      Some(MembershipIdentity(Get(s.users[u], "email").s, Get(s.entities[e], "slug").s))
  {
    hide ValidRemote;
    JoinTexts(s, e, u);
    var email, slug := Get(s.users[u], "email").s, Get(s.entities[e], "slug").s;
    FoldConcat(Fold(email) + "@", Fold(slug));
    FoldConcat(Fold(email), "@");
    FoldIdempotent(email);
    FoldIdempotent(slug);
    assert Fold("@") == "@";
    assert Identity(Memberships, row) == Some(MembershipIdentity(email, slug));
  }

  /** With no '@' in a slug, the text of a membership identity determines both halves. */
  lemma IdentityDetermines(user: string, entity: string, user': string, entity': string)
    requires '@' !in entity && '@' !in entity'
    requires MembershipIdentity(user, entity) == MembershipIdentity(user', entity')
    ensures Fold(user) == Fold(user') && Fold(entity) == Fold(entity')
  {
    FoldKeepsAt(entity);
    FoldKeepsAt(entity');
    RSplitJoin(Fold(user), Fold(entity));
    RSplitJoin(Fold(user'), Fold(entity'));
  }

  lemma SameJoin(s: Remote, e: string, u: string, e': string, u': string)
    requires ValidRemote(s) && u in s.users && u' in s.users && e in s.entities && e' in s.entities
    requires MembershipIdentity(Get(s.users[u], "email").s, Get(s.entities[e], "slug").s) ==
             MembershipIdentity(Get(s.users[u'], "email").s, Get(s.entities[e'], "slug").s)
    ensures e == e' && u == u'
  {
    IdentityDetermines(Get(s.users[u], "email").s, Get(s.entities[e], "slug").s,
                       Get(s.users[u'], "email").s, Get(s.entities[e'], "slug").s);
    ValidRowIdentity(Entities, e, s.entities[e]);
    ValidRowIdentity(Entities, e', s.entities[e']);
    assert EmailKey(s.users[u]) == EmailKey(s.users[u']);
  }

  /** Whatever is found is the join of a membership whose user was asked for. */
  lemma FoundMembership(m: Manifest, remote: Remote, c: Context, key: string) returns (e: string, u: string)
    requires ContextOf(m, remote, c) && ValidRemote(remote) && key in c.memberships
    ensures IsJoin(remote, c.memberships[key], e, u) && UserAsked(remote, m.memberships, u)
    ensures key == MembershipIdentity(Get(remote.users[u], "email").s, Get(remote.entities[e], "slug").s)
  {
    var rows := FetchSnapshot(remote, m).value.memberships;
    IndexSound(Keyed(Memberships), rows);
    var row := c.memberships[key];
    assert row in rows;
    assert m.memberships != [];
    MembershipsFetched(remote, m.memberships);
    e, u :| u in FetchedRows(remote, m.memberships).value.1 && IsJoin(remote, row, e, u);
    FetchedUsers(remote, m.memberships, u);
    JoinKey(remote, row, e, u);
  }

  lemma JoinIsFiled(m: Manifest, remote: Remote, c: Context, e: string, u: string)
    requires ContextOf(m, remote, c) && ValidRemote(remote)
    requires e in remote.entities && UserAsked(remote, m.memberships, u) && (e, u) in remote.memberships
    ensures MembershipIdentity(Get(remote.users[u], "email").s, Get(remote.entities[e], "slug").s) in c.memberships
  {
    hide JoinedRow, ValidRemote, JoinOf, MembershipIdentity, UserAsked;
    AskedIsUser(remote, m.memberships, u);
    JoinTexts(remote, e, u);
    var rows := FetchSnapshot(remote, m).value.memberships;
    MembershipsFetched(remote, m.memberships);
    FetchedUsers(remote, m.memberships, u);
    IndexComplete(Keyed(Memberships), rows);
    var row := JoinOf(remote, e, u);
    assert IsJoin(remote, row, e, u);
    JoinKey(remote, row, e, u);
    assert row in rows;
    assert Keyed(Memberships)(row).Some?;
  }

  /** A membership is found under its identity exactly when the store has it; what is found is its join. */
  lemma MembershipFound(m: Manifest, remote: Remote, c: Context, e: string, u: string)
    requires ContextOf(m, remote, c) && ValidRemote(remote)
    requires e in remote.entities && UserAsked(remote, m.memberships, u)
    ensures var key := MembershipIdentity(Get(remote.users[u], "email").s, Get(remote.entities[e], "slug").s);
      && (key in c.memberships <==> (e, u) in remote.memberships)
      && (key in c.memberships ==> c.memberships[key] == JoinOf(remote, e, u))
  {
    hide ContextOf, JoinedRow, ValidRemote, JoinOf, MembershipIdentity, UserAsked;
    AskedIsUser(remote, m.memberships, u);
    JoinTexts(remote, e, u);
    var key := MembershipIdentity(Get(remote.users[u], "email").s, Get(remote.entities[e], "slug").s);
    if key in c.memberships {
      var e', u' := FoundMembership(m, remote, c, key);
      SameJoin(remote, e, u, e', u');
    }
    if (e, u) in remote.memberships {
      JoinIsFiled(m, remote, c, e, u);
    }
  }
}
