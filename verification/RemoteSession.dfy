/** The CLI's remote client: stored sessions, refreshing, the one-shot retry, and which token goes where. */
module RemoteSession {
  import opened Outcomes
  import opened JsonValues
  import opened Executor

  datatype Target = Target(
    name: string,
    baseUrl: string,
    apiPrefix: string,
    app: Option<string>,
    usesApiKey: bool,
    environment: string)

  datatype StoredSession = StoredSession(
    profile: string,
    baseUrl: string,
    apiPrefix: string,
    accessToken: string,
    refreshToken: string,
    expiresAt: real,
    createdAt: real,
    email: Option<string>,
    app: Option<string>)
  {
    predicate ExpiresWithin(seconds: real, now: real) {
      expiresAt <= now + seconds
    }
  }

  datatype ClientError =
    | CredentialMissing
    | SessionMissing
    | TargetMismatch
    | Unavailable
    | Protocol
    | RemoteError(status: int)

  type Sessions = map<string, StoredSession>

  /** `CredentialStore.get`: a session of the same profile but another target is never handed out. */
  function Find(sessions: Sessions, target: Target, required: bool): Result<Option<StoredSession>, ClientError> {
    match Lookup(sessions, target.name)
    case None => if required then Failure(SessionMissing) else Success(None)
    case Some(s) =>
      if s.baseUrl != target.baseUrl ||
        s.apiPrefix != target.apiPrefix then Failure(TargetMismatch) else Success(Some(s))
  }

  /** A session of this profile is stored, and for this very address. */
  predicate KeptFor(sessions: Sessions, target: Target) {
    target.name in sessions && sessions[target.name].baseUrl == target.baseUrl &&
    sessions[target.name].apiPrefix == target.apiPrefix
  }

  /** The session to refresh: the one given, or the stored one. */
  ghost function Held(given: Option<StoredSession>, sessions: Sessions, target: Target): Option<StoredSession> {
    if given.Some? then given else if KeptFor(sessions, target) then Some(sessions[target.name]) else None
  }

  class CredentialStore {
    var sessions: Sessions

    constructor ()
      ensures sessions == map[]
    {
      sessions := map[];
    }

    method Put(session: StoredSession)
      modifies this
      ensures sessions == old(sessions)[session.profile := session]
    {
      sessions := sessions[session.profile := session];
    }

    method Get(target: Target, required: bool) returns (r: Result<Option<StoredSession>, ClientError>)
      ensures r == Find(sessions, target, required)
    {
      r := Find(sessions, target, required);
    }

    method Delete(profile: string) returns (removed: bool)
      modifies this
      ensures removed == (profile in old(sessions)) && sessions == old(sessions) - {profile}
    {
      removed := profile in sessions;
      sessions := sessions - {profile};
    }
  }

  // ---- the wire -------------------------------------------------------------------------------

  datatype Credential = Anonymous | FromEnvironment(value: string) | FromSession(token: string)

  /** One HTTP exchange as sent: where to, with which credential, and the refresh token its body carries, if any. */
  datatype Exchange = Exchange(baseUrl: string, apiPrefix: string, path: string, credential: Credential,
                               carried: Option<string>)

  datatype Content = Empty | NotJson | Value(json: Json)

  datatype Answer = NoAnswer | Answer(status: int, content: Content)

  predicate IsSuccess(a: Answer) {
    a.Answer? && 200 <= a.status < 300
  }

  /** Everything the client cannot decide: what servers answer, what time it is, and how a text reads as a number. */
  class World {
    const answers: nat -> Answer
    const clock: nat -> real
    const number: string -> Option<int>
    var sent: seq<Exchange>
    var ticks: nat

    constructor (answers: nat -> Answer, clock: nat -> real, number: string -> Option<int>)
      ensures this.answers == answers && this.clock == clock && this.number == number && sent == [] && ticks == 0
    {
      this.answers, this.clock, this.number, sent, ticks := answers, clock, number, [], 0;
    }

    method Send(e: Exchange) returns (a: Answer)
      modifies this`sent
      ensures sent == old(sent) + [e] && a == answers(|old(sent)|)
    {
      a := answers(|sent|);
      sent := sent + [e];
    }

    method Now() returns (t: real)
      modifies this`ticks
      ensures t == clock(old(ticks)) && ticks == old(ticks) + 1
    {
      t := clock(ticks);
      ticks := ticks + 1;
    }
  }

  // ---- token responses ------------------------------------------------------------------------

  function FieldIn(j: Json, name: string): Json {
    if j.Obj? then FieldOf(j.fields, name) else Null
  }

  function Token(j: Json, name: string): Option<string> {
    var v := FieldIn(j, name);
    if v.Str? && v.s != "" then Some(v.s) else None
  }

  /** `expires_in` as a positive number of seconds. */
  function Lifetime(j: Json, number: string -> Option<int>): Option<int> {
    var v := FieldIn(j, "expires_in");
    var n := match v case Int(i) => Some(i) case Str(s) => number(s) case _ => None;
    if n.Some? && n.value > 0 then n else None
  }

  datatype Grant = Grant(access: string, refresh: string, lifetime: int)

  /** What a token endpoint must return; both endpoints accept exactly these payloads. */
  function GrantOf(payload: Option<Json>, number: string -> Option<int>): Option<Grant> {
    match payload
    case None => None
    case Some(j) =>
      if j.Obj? && Token(j, "access_token").Some? && Token(j, "refresh_token").Some? && Lifetime(j, number).Some? then
        Some(Grant(Token(j, "access_token").value, Token(j, "refresh_token").value, Lifetime(j, number).value))
      else None
  }

  /** The text under a name in an answer's object, empty if there is none. */
  function TextIn(a: Answer, name: string): string {
    if a.Answer? && a.content.Value? && FieldIn(a.content.json, name).Str? then FieldIn(a.content.json, name).s else ""
  }

  /** The seconds under `expires_in`, given as a number or as a text that reads as one; 0 for anything else. */
  function SecondsIn(a: Answer, number: string -> Option<int>): int {
    if !(a.Answer? && a.content.Value?) then 0
    else
      var v := FieldIn(a.content.json, "expires_in");
      if v.Int? then v.i else if v.Str? && number(v.s).Some? then number(v.s).value else 0
  }

  /** The answer gives two tokens and how long they last. */
  predicate GivesTokens(a: Answer, number: string -> Option<int>) {
    TextIn(a, "access_token") != "" && TextIn(a, "refresh_token") != "" && SecondsIn(a, number) > 0
  }

  /** The answer is a success that grants tokens. */
  predicate Grants(a: Answer, number: string -> Option<int>) {
    IsSuccess(a) && GivesTokens(a, number)
  }

  /** The payload check accepts exactly the answers that give tokens, and takes each part from its own field. */
  lemma GrantOfExactly(a: Answer, number: string -> Option<int>)
    requires a.Answer? && a.content.Value?
    ensures GrantOf(Some(a.content.json), number) ==
      if GivesTokens(a, number) then
        Some(Grant(TextIn(a, "access_token"), TextIn(a, "refresh_token"), SecondsIn(a, number)))
      else None
  {
  }

  /** The session with what an answer at that time grants. */
  function Renewed(s: StoredSession, a: Answer, number: string -> Option<int>, now: real): StoredSession {
    s.(accessToken := TextIn(a, "access_token"), refreshToken := TextIn(a, "refresh_token"),
       expiresAt := now + SecondsIn(a, number) as real)
  }

  /** What an answer means to the caller of a request. */
  function Meaning(a: Answer): Result<Option<Json>, ClientError> {
    if !IsSuccess(a) || a.content == NotJson then Failure(Reproach(a))
    else if a.content == Empty then Success(None)
    else Success(Some(a.content.json))
  }

  /** The error an answer that is not what was asked for leads to. */
  function Reproach(a: Answer): ClientError {
    if a.NoAnswer? then Unavailable else if IsSuccess(a) then Protocol else RemoteError(a.status)
  }

  /** An answer without a payload, or whose payload does not pass the check, does not grant. */
  lemma NotGranted(a: Answer, number: string -> Option<int>)
    requires Meaning(a).Success? ==> Meaning(a).value.None? || GrantOf(Meaning(a).value, number).None?
    ensures !Grants(a, number) && Reproach(a) == if Meaning(a).Failure? then Meaning(a).error else Protocol
  {
    if Meaning(a).Success? && Meaning(a).value.Some? {
      GrantOfExactly(a, number);
    }
  }

  /** The exchange that asks for a new pair of tokens. */
  function Refreshing(target: Target, session: StoredSession): Exchange {
    Exchange(target.baseUrl, target.apiPrefix, "/auth/refresh", Anonymous, Some(session.refreshToken))
  }

  /** The sessions kept, the exchanges sent and the looks at the clock so far. */
  datatype Moment = Moment(sessions: Sessions, sent: seq<Exchange>, ticks: nat)

  // ---- what is safe to send -------------------------------------------------------------------

  /** The answer carries the token. */
  ghost predicate Carries(a: Answer, token: string) {
    a.Answer? && a.content.Value? &&
    (FieldIn(a.content.json, "access_token") == Str(token) || FieldIn(a.content.json, "refresh_token") == Str(token))
  }

  /** Some earlier answer from exactly this target carried the token. */
  ghost predicate Issued(sent: seq<Exchange>, answers: nat -> Answer, token: string, baseUrl: string,
                         apiPrefix: string) {
    exists i | 0 <= i < |sent| ::
      sent[i].baseUrl == baseUrl && sent[i].apiPrefix == apiPrefix && Carries(answers(i), token)
  }

  /** Every stored token was issued by the target its session is bound to. */
  ghost predicate Bound(sessions: Sessions, sent: seq<Exchange>, answers: nat -> Answer) {
    forall p | p in sessions ::
      && sessions[p].profile == p
      && Issued(sent, answers, sessions[p].accessToken, sessions[p].baseUrl, sessions[p].apiPrefix)
      && Issued(sent, answers, sessions[p].refreshToken, sessions[p].baseUrl, sessions[p].apiPrefix)
  }

  /** The i-th exchange sends only tokens that its own target had issued before. */
  ghost predicate KeepsTokens(sent: seq<Exchange>, answers: nat -> Answer, i: nat)
    requires i < |sent|
  {
    && (sent[i].credential.FromSession? ==>
      Issued(sent[..i], answers, sent[i].credential.token, sent[i].baseUrl, sent[i].apiPrefix))
    && (sent[i].carried.Some? ==> Issued(sent[..i], answers, sent[i].carried.value, sent[i].baseUrl, sent[i].apiPrefix))
  }

  ghost predicate TokensStayHome(sent: seq<Exchange>, answers: nat -> Answer) {
    forall i | 0 <= i < |sent| :: KeepsTokens(sent, answers, i)
  }

  lemma IssuedLater(sent: seq<Exchange>, more: seq<Exchange>, answers: nat -> Answer, token: string, baseUrl: string,
                    apiPrefix: string)
    requires sent <= more && Issued(sent, answers, token, baseUrl, apiPrefix)
    ensures Issued(more, answers, token, baseUrl, apiPrefix)
  {
    var i :| 0 <= i < |sent| && sent[i].baseUrl == baseUrl && sent[i].apiPrefix == apiPrefix &&
      Carries(answers(i), token);
    assert more[i] == sent[i];
  }

  lemma BoundLater(sessions: Sessions, sent: seq<Exchange>, more: seq<Exchange>, answers: nat -> Answer)
    requires sent <= more && Bound(sessions, sent, answers)
    ensures Bound(sessions, more, answers)
  {
    forall p | p in sessions
      ensures Issued(more, answers, sessions[p].accessToken, sessions[p].baseUrl, sessions[p].apiPrefix)
      ensures Issued(more, answers, sessions[p].refreshToken, sessions[p].baseUrl, sessions[p].apiPrefix)
    {
      IssuedLater(sent, more, answers, sessions[p].accessToken, sessions[p].baseUrl, sessions[p].apiPrefix);
      IssuedLater(sent, more, answers, sessions[p].refreshToken, sessions[p].baseUrl, sessions[p].apiPrefix);
    }
  }

  /** A safe exchange keeps the log safe. */
  lemma SafeStep(sent: seq<Exchange>, e: Exchange, answers: nat -> Answer)
    requires TokensStayHome(sent, answers)
    requires e.credential.FromSession? ==> Issued(sent, answers, e.credential.token, e.baseUrl, e.apiPrefix)
    requires e.carried.Some? ==> Issued(sent, answers, e.carried.value, e.baseUrl, e.apiPrefix)
    ensures TokensStayHome(sent + [e], answers)
  {
    var more := sent + [e];
    forall i | 0 <= i < |more| ensures KeepsTokens(more, answers, i) {
      if i < |sent| {
        assert more[..i] == sent[..i];
        assert KeepsTokens(sent, answers, i);
      } else {
        assert more[..i] == sent;
      }
    }
  }

  /** A session found for a target is that target's. */
  lemma FoundIsBound(sessions: Sessions, sent: seq<Exchange>, answers: nat -> Answer, target: Target, required: bool)
    requires Bound(sessions, sent, answers) && Find(sessions, target, required).Success?
    requires Find(sessions, target, required).value.Some?
    ensures BoundTo(Find(sessions, target, required).value.value, sent, answers, target)
  {
  }

  /** The session is the target's own and its tokens came from there. */
  ghost predicate BoundTo(session: StoredSession, sent: seq<Exchange>, answers: nat -> Answer, target: Target) {
    && session.profile == target.name && session.baseUrl == target.baseUrl && session.apiPrefix == target.apiPrefix
    && Issued(sent, answers, session.accessToken, target.baseUrl, target.apiPrefix)
    && Issued(sent, answers, session.refreshToken, target.baseUrl, target.apiPrefix)
  }

  /** What the last answer grants belongs where that answer came from: the renewed session is bound, and so is a store
      that keeps it. */
  lemma GrantIsBound(sessions: Sessions, sent: seq<Exchange>, answers: nat -> Answer, s: StoredSession, target: Target,
                     number: string -> Option<int>, now: real)
    requires Bound(sessions, sent, answers) && sent != []
    requires sent[|sent| - 1].baseUrl == target.baseUrl && sent[|sent| - 1].apiPrefix == target.apiPrefix
    requires s.profile == target.name && s.baseUrl == target.baseUrl && s.apiPrefix == target.apiPrefix
    requires GivesTokens(answers(|sent| - 1), number)
    ensures var renewed := Renewed(s, answers(|sent| - 1), number, now);
      BoundTo(renewed, sent, answers, target) && Bound(sessions[target.name := renewed], sent, answers)
  {
    hide SecondsIn;
    var renewed := Renewed(s, answers(|sent| - 1), number, now);
    assert Carries(answers(|sent| - 1), renewed.accessToken) && Carries(answers(|sent| - 1), renewed.refreshToken);
  }

  // ---- counting -------------------------------------------------------------------------------

  /** The authenticated exchanges from the n-th on; refreshing is anonymous. */
  function Authenticated(sent: seq<Exchange>, n: nat): nat
    requires n <= |sent|
  {
    if |sent| == n then 0
    else Authenticated(sent[..|sent| - 1], n) + if sent[|sent| - 1].credential == Anonymous then 0 else 1
  }

  lemma {:induction false} AuthenticatedAppended(sent: seq<Exchange>, more: seq<Exchange>, n: nat)
    requires n <= |sent| <= |more| && sent <= more
    ensures Authenticated(more, n) == Authenticated(sent, n) + Authenticated(more, |sent|)
    decreases |more|
  {
    if |sent| < |more| {
      AuthenticatedAppended(sent, more[..|more| - 1], n);
    } else {
      assert sent == more;
    }
  }

  /** An authenticated exchange is only followed by another one after a 401 to a stored session's token. */
  ghost predicate RetriedOnlyAfter401(sent: seq<Exchange>, answers: nat -> Answer, n: nat) {
    forall i, j | n <= i < j < |sent| && sent[i].credential != Anonymous && sent[j].credential != Anonymous ::
      sent[i].credential.FromSession? && answers(i).Answer? && answers(i).status == 401
  }

  lemma {:induction false} NoneAuthenticated(sent: seq<Exchange>, n: nat)
    requires n <= |sent| && Authenticated(sent, n) == 0
    ensures forall i | n <= i < |sent| :: sent[i].credential == Anonymous
    decreases |sent|
  {
    if n < |sent| {
      NoneAuthenticated(sent[..|sent| - 1], n);
    }
  }

  lemma NothingAuthenticated(sent: seq<Exchange>)
    ensures Authenticated(sent, |sent|) == 0 && forall answers :: RetriedOnlyAfter401(sent, answers, |sent|)
  {
  }

  lemma NothingRetried(sent: seq<Exchange>, answers: nat -> Answer, n: nat)
    requires n <= |sent| && Authenticated(sent, n) == 0
    ensures RetriedOnlyAfter401(sent, answers, n)
  {
    NoneAuthenticated(sent, n);
  }

  lemma TriedOnce(ready: seq<Exchange>, e: Exchange, answers: nat -> Answer, n: nat)
    requires n <= |ready| && Authenticated(ready, n) == 0
    ensures RetriedOnlyAfter401(ready + [e], answers, n)
    ensures Authenticated(ready + [e], n) == if e.credential == Anonymous then 0 else 1
  {
    NoneAuthenticated(ready, n);
    assert (ready + [e])[..|ready|] == ready;
  }

  /** A second try, after a 401 to a session token and an anonymous refresh, is allowed. */
  lemma TriedAgain(ready: seq<Exchange>, e: Exchange, again: seq<Exchange>, more: seq<Exchange>,
                   answers: nat -> Answer, n: nat)
    requires n <= |ready| && Authenticated(ready, n) == 0 && ready + [e] <= again <= more
    requires e.credential.FromSession? && answers(|ready|).Answer? && answers(|ready|).status == 401
    requires Authenticated(again, |ready| + 1) == 0 && RetriedOnlyAfter401(more, answers, |again|)
    ensures RetriedOnlyAfter401(more, answers, n)
    ensures Authenticated(more, n) == 1 + Authenticated(more, |again|)
  {
    var tried := ready + [e];
    NoneAuthenticated(ready, n);
    NoneAuthenticated(again, |tried|);
    TriedOnce(ready, e, answers, n);
    AuthenticatedAppended(tried, again, n);
    AuthenticatedAppended(again, more, n);
    assert forall i | 0 <= i < |tried| :: more[i] == tried[i];
    assert forall i | 0 <= i < |again| :: more[i] == again[i];
  }

  class RemoteClient {
    const target: Target
    const store: CredentialStore
    const world: World

    constructor (target: Target, store: CredentialStore, world: World)
      ensures this.target == target && this.store == store && this.world == world
    {
      this.target, this.store, this.world := target, store, world;
    }

    ghost predicate Safe()
      reads this, store, world
    {
      Bound(store.sessions, world.sent, world.answers) && TokensStayHome(world.sent, world.answers)
    }

    ghost predicate Mine(session: StoredSession)
      reads this, world
    {
      BoundTo(session, world.sent, world.answers, target)
    }

    // ---- the protocol -------------------------------------------------------------------------

    ghost function Present(): Moment
      reads store, world
    {
      Moment(store.sessions, world.sent, world.ticks)
    }

    /** One exchange with this target, and the answer to the next exchange. */
    ghost function Sent(m: Moment, path: string, credential: Credential, carried: Option<string>): Moment {
      m.(sent := m.sent + [Exchange(target.baseUrl, target.apiPrefix, path, credential, carried)])
    }

    ghost function Next(m: Moment): Answer {
      world.answers(|m.sent|)
    }

    ghost predicate ExpiresSoon(s: StoredSession, look: nat) {
      s.expiresAt <= world.clock(look) + 30.0
    }

    /** After asking for new tokens for `s`: what is granted is kept, anything else changes nothing. */
    ghost function Refreshed(s: StoredSession, m: Moment): Moment {
      var asked := m.(sent := m.sent + [Refreshing(target, s)]);
      if Grants(Next(m), world.number) then
        asked.(sessions := m.sessions[target.name := Renewed(s, Next(m), world.number, world.clock(m.ticks))],
               ticks := m.ticks + 1)
      else asked
    }

    /** Two looks at the clock find the kept session about to expire. */
    ghost predicate Stale(m: Moment)
      requires KeptFor(m.sessions, target)
    {
      var s := m.sessions[target.name];
      ExpiresSoon(s, m.ticks) && ExpiresSoon(s, m.ticks + 1)
    }

    /** The kept session made ready for use. */
    ghost function Readied(m: Moment): (ready: Moment)
      requires KeptFor(m.sessions, target)
      ensures KeptFor(ready.sessions, target)
    {
      var s := m.sessions[target.name];
      if Stale(m) then Refreshed(s, m.(ticks := m.ticks + 2))
      else m.(ticks := m.ticks + if ExpiresSoon(s, m.ticks) then 2 else 1)
    }

    /** A request with the kept session's token: it is sent once, or twice around a refresh if a 401 may be answered by
        one; what the last exchange was answered decides the result. */
    ghost predicate SentWithSession(path: string, carried: Option<string>, m: Moment, retry: bool, after: Moment,
                                    r: Result<Option<Json>, ClientError>)
      requires KeptFor(m.sessions, target)
      decreases retry, 0
    {
      if Stale(m) && !Grants(Next(m), world.number) then after == Readied(m) && r == Failure(Reproach(Next(m)))
      else
        var ready := Readied(m);
        var own := Sent(ready, path, FromSession(ready.sessions[target.name].accessToken), carried);
        if !(retry && Next(ready).Answer? && Next(ready).status == 401) then after == own && r == Meaning(Next(ready))
        else SentAgain(path, carried, own, after, r)
    }

    /** What follows a 401 to a session's token: one refresh, and only if that grants, the same request again. */
    ghost predicate SentAgain(path: string, carried: Option<string>, own: Moment, after: Moment,
                              r: Result<Option<Json>, ClientError>)
      requires KeptFor(own.sessions, target)
      decreases false, 1
    {
      var again := Refreshed(own.sessions[target.name], own.(ticks := own.ticks + 1));
      if Grants(Next(own), world.number) then SentWithSession(path, carried, again, false, after, r)
      else after == again && r == Failure(Reproach(Next(own)))
    }

    /** An authenticated request: the environment's credential if there is one, else the session kept for this very
        target, else nothing is sent. */
    ghost predicate SentAuthenticated(path: string, carried: Option<string>, m: Moment, retry: bool, after: Moment,
                                      r: Result<Option<Json>, ClientError>) {
      if target.environment != "" then
        after == Sent(m, path, FromEnvironment(target.environment), carried) && r == Meaning(Next(m))
      else if target.usesApiKey || target.name !in m.sessions then after == m && r == Failure(CredentialMissing)
      else if !KeptFor(m.sessions, target) then after == m && r == Failure(TargetMismatch)
      else SentWithSession(path, carried, m, retry, after, r)
    }

    // ---- what the protocol keeps --------------------------------------------------------------

    /** At most so many exchanges, so many of them authenticated, a second one only after a 401; no other profile's
        session is touched, and this one's is neither made nor dropped. */
    ghost predicate Modest(m: Moment, after: Moment, exchanges: nat, tries: nat) {
      && m.sent <= after.sent && |after.sent| <= |m.sent| + exchanges
      && Authenticated(after.sent, |m.sent|) <= tries
      && RetriedOnlyAfter401(after.sent, world.answers, |m.sent|)
      && after.sessions.Keys == m.sessions.Keys && after.sessions - {target.name} == m.sessions - {target.name}
    }

    /** The last exchange was this very request, and the payload is what it was answered. */
    ghost predicate AnswersLast(path: string, carried: Option<string>, sent: seq<Exchange>, payload: Option<Json>) {
      && sent != [] && Meaning(world.answers(|sent| - 1)) == Success(payload)
      && var last := sent[|sent| - 1];
      last.baseUrl == target.baseUrl && last.apiPrefix == target.apiPrefix && last.path == path &&
      last.carried == carried
    }

    lemma StillModest(m: Moment, after: Moment, exchanges: nat, tries: nat, moreExchanges: nat, moreTries: nat)
      requires Modest(m, after, exchanges, tries) && exchanges <= moreExchanges && tries <= moreTries
      ensures Modest(m, after, moreExchanges, moreTries)
    {
    }

    lemma RefreshedModestly(s: StoredSession, m: Moment)
      requires target.name in m.sessions
      ensures Modest(m, Refreshed(s, m), 1, 0)
    {
      hide Grants, Renewed, RetriedOnlyAfter401;
      var sent := m.sent + [Refreshing(target, s)];
      assert sent[..|m.sent|] == m.sent;
      NothingRetried(sent, world.answers, |m.sent|);
    }

    lemma ReadiedModestly(m: Moment)
      requires KeptFor(m.sessions, target)
      ensures Modest(m, Readied(m), 1, 0)
    {
      hide Grants, Refreshed, RetriedOnlyAfter401;
      NothingAuthenticated(m.sent);
      RefreshedModestly(m.sessions[target.name], m.(ticks := m.ticks + 2));
    }

    /** A try with a session's token after a modest start. */
    lemma SentModestly(m: Moment, ready: Moment, path: string, credential: Credential, carried: Option<string>)
      requires Modest(m, ready, 1, 0)
      ensures Modest(m, Sent(ready, path, credential, carried), 2, 1)
    {
      hide RetriedOnlyAfter401;
      TriedOnce(ready.sent, Exchange(target.baseUrl, target.apiPrefix, path, credential, carried), world.answers,
                |m.sent|);
    }

    lemma OneTry(path: string, carried: Option<string>, m: Moment, after: Moment, r: Result<Option<Json>, ClientError>)
      requires KeptFor(m.sessions, target) && SentWithSession(path, carried, m, false, after, r)
      ensures Modest(m, after, 2, 1) && (r.Success? ==> AnswersLast(path, carried, after.sent, r.value))
    {
      hide Readied, Stale, Grants, Modest, Authenticated, Meaning;
      ReadiedModestly(m);
      var ready := Readied(m);
      SentModestly(m, ready, path, FromSession(ready.sessions[target.name].accessToken), carried);
      StillModest(m, ready, 1, 0, 2, 1);
    }

    /** A second try after a refused one and a refresh. */
    lemma TwoTries(path: string, carried: Option<string>, m: Moment, ready: Moment, own: Moment, again: Moment,
                   after: Moment)
      requires KeptFor(m.sessions, target) && Modest(m, ready, 1, 0)
      requires Modest(own.(ticks := own.ticks + 1), again, 1, 0)
      requires exists token :: own == Sent(ready, path, FromSession(token), carried)
      requires Next(ready).Answer? && Next(ready).status == 401 && Modest(again, after, 2, 1)
      ensures Modest(m, after, 5, 2)
    {
      hide RetriedOnlyAfter401, Authenticated;
      var e := own.sent[|ready.sent|];
      TriedAgain(ready.sent, e, again.sent, after.sent, world.answers, |m.sent|);
    }

    /** The request of a client that has a session, on both sides of a refused first try. */
    lemma TriesAreModest(path: string, carried: Option<string>, m: Moment, after: Moment,
                         r: Result<Option<Json>, ClientError>)
      requires KeptFor(m.sessions, target) && SentWithSession(path, carried, m, true, after, r)
      ensures Modest(m, after, 5, 2) && (r.Success? ==> AnswersLast(path, carried, after.sent, r.value))
    {
      hide Readied, Stale, Grants, Modest, Authenticated, Meaning, Refreshed;
      ReadiedModestly(m);
      var ready := Readied(m);
      var own := Sent(ready, path, FromSession(ready.sessions[target.name].accessToken), carried);
      SentModestly(m, ready, path, FromSession(ready.sessions[target.name].accessToken), carried);
      var asking := own.(ticks := own.ticks + 1);
      var again := Refreshed(own.sessions[target.name], asking);
      RefreshedModestly(own.sessions[target.name], asking);
      StillModest(m, ready, 1, 0, 5, 2);
      StillModest(m, own, 2, 1, 5, 2);
      if Next(ready).Answer? && Next(ready).status == 401 {
        RefreshedKept(own.sessions[target.name], asking);
        if Grants(Next(own), world.number) && SentWithSession(path, carried, again, false, after, r) {
          OneTry(path, carried, again, after, r);
          TwoTries(path, carried, m, ready, own, again, after);
        }
        AloneIsModest(again);
        StillModest(again, again, 1, 0, 2, 1);
        TwoTries(path, carried, m, ready, own, again, again);
      }
    }

    lemma RefreshedKept(s: StoredSession, m: Moment)
      requires KeptFor(m.sessions, target) && s == m.sessions[target.name]
      ensures KeptFor(Refreshed(s, m).sessions, target)
    {
    }

    lemma AloneIsModest(m: Moment)
      ensures Modest(m, m, 1, 0)
    {
      NothingAuthenticated(m.sent);
    }

    /** An authenticated request makes at most five exchanges, two with a credential, the second only after a 401 to a
        session's token; it keeps to its own profile, and what it returns is what its own last exchange was answered. */
    lemma RequestIsModest(path: string, carried: Option<string>, m: Moment, retry: bool, after: Moment,
                          r: Result<Option<Json>, ClientError>)
      requires SentAuthenticated(path, carried, m, retry, after, r)
      ensures Modest(m, after, if retry then 5 else 2, if retry then 2 else 1)
      ensures r.Success? ==> AnswersLast(path, carried, after.sent, r.value)
    {
      hide Modest, SentWithSession, Meaning;
      AloneIsModest(m);
      StillModest(m, m, 1, 0, 2, 1);
      StillModest(m, m, 1, 0, 5, 2);
      SentModestly(m, m, path, FromEnvironment(target.environment), carried);
      StillModest(m, Sent(m, path, FromEnvironment(target.environment), carried), 2, 1, 5, 2);
      if KeptFor(m.sessions, target) && SentWithSession(path, carried, m, retry, after, r) {
        if retry {
          TriesAreModest(path, carried, m, after, r);
        } else {
          OneTry(path, carried, m, after, r);
        }
      }
    }

    // ---- the client ---------------------------------------------------------------------------

    method Transmit(path: string, credential: Credential, carried: Option<string>) returns (a: Answer)
      requires Safe()
      requires credential.FromSession? ==>
        Issued(world.sent, world.answers, credential.token, target.baseUrl, target.apiPrefix)
      requires carried.Some? ==> Issued(world.sent, world.answers, carried.value, target.baseUrl, target.apiPrefix)
      modifies world`sent
      ensures Safe()
      ensures Present() == Sent(old(Present()), path, credential, carried)
      ensures a == Next(old(Present()))
    {
      var e := Exchange(target.baseUrl, target.apiPrefix, path, credential, carried);
      SafeStep(world.sent, e, world.answers);
      BoundLater(store.sessions, world.sent, world.sent + [e], world.answers);
      a := world.Send(e);
    }

    method AuthenticationCredential() returns (r: Result<Credential, ClientError>)
      requires Safe()
      modifies store, world
      ensures Safe() && old(world.sent) <= world.sent
      ensures r.Success? ==> r.value != Anonymous
      ensures r.Success? && r.value.FromSession? ==>
        Issued(world.sent, world.answers, r.value.token, target.baseUrl, target.apiPrefix)
      ensures target.environment != "" ==>
        r == Success(FromEnvironment(target.environment)) && Present() == old(Present())
      ensures target.environment == "" && (target.usesApiKey || target.name !in old(store.sessions)) ==>
        r == Failure(CredentialMissing) && Present() == old(Present())
      ensures
        target.environment == "" && !target.usesApiKey && target.name in old(store.sessions) &&
        !KeptFor(old(store.sessions), target) ==>
          r == Failure(TargetMismatch) && Present() == old(Present())
      ensures target.environment == "" && !target.usesApiKey && KeptFor(old(store.sessions), target) ==>
        && Present() == Readied(old(Present()))
        && r ==
             if Stale(old(Present())) && !Grants(Next(old(Present())), world.number) then
               Failure(Reproach(Next(old(Present()))))
             else Success(FromSession(store.sessions[target.name].accessToken))
      decreases 1, 0, 2
    {
      hide Bound, Issued, TokensStayHome, Grants, Renewed, Reproach, Refreshing;
      if target.environment != "" {
        return Success(FromEnvironment(target.environment));
      }
      if !target.usesApiKey {
        var found := store.Get(target, false);
        if found.Failure? {
          return Failure(found.error);
        }
        if found.value.Some? {
          var session := found.value.value;
          FoundIsBound(store.sessions, world.sent, world.answers, target, false);
          var now := world.Now();
          if session.ExpiresWithin(30.0, now) {
            var refreshed := RefreshStoredSession(Some(session), false);
            if refreshed.Failure? {
              return Failure(refreshed.error);
            }
            session := refreshed.value;
          }
          return Success(FromSession(session.accessToken));
        }
      }
      return Failure(CredentialMissing);
    }

    method RefreshStoredSession(given: Option<StoredSession>, force: bool)
      returns (r: Result<StoredSession, ClientError>)
      requires Safe() && (given.Some? ==> Mine(given.value))
      modifies store, world
      ensures Safe() && old(world.sent) <= world.sent
      ensures r.Success? ==> Mine(r.value)
      ensures match Held(given, old(store.sessions), target)
        case None =>
          && r == Failure(if target.name in old(store.sessions) then TargetMismatch else SessionMissing)
          && Present() == old(Present())
        case Some(s) =>
          var m := old(Present()).(ticks := old(world.ticks) + 1);
          if !force && !ExpiresSoon(s, old(world.ticks)) then r == Success(s) && Present() == m
          else
            && Present() == Refreshed(s, m)
            && r ==
                 if Grants(Next(m), world.number) then
                   Success(Renewed(s, Next(m), world.number, world.clock(m.ticks)))
                 else Failure(Reproach(Next(m)))
      decreases 1, 0, 1
    {
      hide Bound, Issued, TokensStayHome, Grants, Refreshed, Renewed, Reproach;
      var current: StoredSession;
      if given.Some? {
        current := given.value;
      } else {
        var found := store.Get(target, true);
        if found.Failure? {
          return Failure(found.error);
        }
        FoundIsBound(store.sessions, world.sent, world.answers, target, true);
        current := found.value.value;
      }
      var now := world.Now();
      if !force && !current.ExpiresWithin(30.0, now) {
        return Success(current);
      }
      r := Exchanged(current);
    }

    /** The rest of refreshing: the refresh token is exchanged for a new pair, which is kept. */
    method Exchanged(current: StoredSession) returns (r: Result<StoredSession, ClientError>)
      requires Safe() && Mine(current)
      modifies store, world
      ensures Safe() && old(world.sent) <= world.sent
      ensures r.Success? ==> Mine(r.value)
      ensures var m := old(Present());
        && Present() == Refreshed(current, m)
        && r ==
             if Grants(Next(m), world.number) then
               Success(Renewed(current, Next(m), world.number, world.clock(m.ticks)))
             else Failure(Reproach(Next(m)))
      decreases 1, 0, 0
    {
      hide Bound, Issued, TokensStayHome, GrantOf, TextIn, SecondsIn, GivesTokens;
      ghost var a := Next(Present());
      var payload := Request("/auth/refresh", Some(current.refreshToken), false, true);
      if payload.Failure? {
        NotGranted(a, world.number);
        return Failure(payload.error);
      }
      var grant := GrantOf(payload.value, world.number);
      if payload.value.None? || grant.None? {
        NotGranted(a, world.number);
        return Failure(Protocol);
      }
      GrantOfExactly(a, world.number);
      var now := world.Now();
      var refreshed :=
        StoredSession(current.profile, current.baseUrl, current.apiPrefix, grant.value.access, grant.value.refresh,
                      now + grant.value.lifetime as real, current.createdAt, current.email, current.app);
      GrantIsBound(store.sessions, world.sent, world.answers, current, target, world.number, now);
      store.Put(refreshed);
      return Success(refreshed);
    }

    method Request(path: string, carried: Option<string>, requireAuth: bool, retryStoredAuth: bool)
      returns (r: Result<Option<Json>, ClientError>)
      requires Safe()
      requires carried.Some? ==> Issued(world.sent, world.answers, carried.value, target.baseUrl, target.apiPrefix)
      modifies store, world
      ensures Safe() && old(world.sent) <= world.sent
      ensures !requireAuth ==>
        Present() == Sent(old(Present()), path, Anonymous, carried) && r == Meaning(Next(old(Present())))
      ensures requireAuth ==> SentAuthenticated(path, carried, old(Present()), retryStoredAuth, Present(), r)
      decreases if requireAuth then 1 else 0, if retryStoredAuth then 1 else 0, 3
    {
      hide Bound, Issued, TokensStayHome, Grants, Readied, Stale, SentAgain;
      var credential := Anonymous;
      if requireAuth {
        var found := AuthenticationCredential();
        if found.Failure? {
          return Failure(found.error);
        }
        credential := found.value;
        if carried.Some? {
          IssuedLater(old(world.sent), world.sent, world.answers, carried.value, target.baseUrl, target.apiPrefix);
        }
      }
      ghost var ready := world.sent;
      var a := Transmit(path, credential, carried);
      if a.NoAnswer? {
        return Failure(Unavailable);
      }
      if IsSuccess(a) {
        match a.content
        case Empty => return Success(None);
        case NotJson => return Failure(Protocol);
        case Value(j) => return Success(Some(j));
      }
      if a.status == 401 && credential.FromSession? && retryStoredAuth {
        if carried.Some? {
          IssuedLater(ready, world.sent, world.answers, carried.value, target.baseUrl, target.apiPrefix);
        }
        r := Retry(path, carried, requireAuth);
        return;
      }
      return Failure(RemoteError(a.status));
    }

    /** The branch taken after a 401 to a stored session's token. */
    method Retry(path: string, carried: Option<string>, requireAuth: bool)
      returns (r: Result<Option<Json>, ClientError>)
      requires Safe() && requireAuth
      requires carried.Some? ==> Issued(world.sent, world.answers, carried.value, target.baseUrl, target.apiPrefix)
      requires target.environment == "" && !target.usesApiKey && KeptFor(store.sessions, target)
      modifies store, world
      ensures Safe() && old(world.sent) <= world.sent
      ensures SentAgain(path, carried, old(Present()), Present(), r)
      decreases 1, 1, 1
    {
      hide Bound, Issued, TokensStayHome, Grants, SentWithSession;
      var refreshed := RefreshStoredSession(None, true);
      if refreshed.Failure? {
        return Failure(refreshed.error);
      }
      if carried.Some? {
        IssuedLater(old(world.sent), world.sent, world.answers, carried.value, target.baseUrl, target.apiPrefix);
      }
      r := Request(path, carried, requireAuth, false);
    }

    // ---- the commands -------------------------------------------------------------------------

    /** The session that an answer at that time signs in to. */
    ghost function SignedIn(a: Answer, now: real, email: Option<string>): StoredSession {
      Renewed(StoredSession(target.name, target.baseUrl, target.apiPrefix, "", "", now, now, email, target.app), a,
              world.number, now)
    }

    /** Keeps what the last answer granted. */
    method StoreSessionPayload(payload: Option<Json>, email: Option<string>)
      returns (r: Result<StoredSession, ClientError>)
      requires Safe() && world.sent != []
      requires world.sent[|world.sent| - 1].baseUrl == target.baseUrl
      requires world.sent[|world.sent| - 1].apiPrefix == target.apiPrefix
      requires payload.Some? ==>
        world.answers(|world.sent| - 1).Answer? && world.answers(|world.sent| - 1).content == Value(payload.value)
      modifies store, world`ticks
      ensures Safe()
      ensures r ==
        if payload.Some? && GivesTokens(world.answers(|world.sent| - 1), world.number) then
          Success(SignedIn(world.answers(|world.sent| - 1), world.clock(old(world.ticks)), email))
        else Failure(Protocol)
      ensures r.Success? ==> Mine(r.value) && store.sessions == old(store.sessions)[target.name := r.value]
      ensures r.Failure? ==> store.sessions == old(store.sessions)
    {
      hide Bound, Issued, TokensStayHome, GrantOf, TextIn, SecondsIn, GivesTokens;
      var grant := GrantOf(payload, world.number);
      if payload.Some? {
        GrantOfExactly(world.answers(|world.sent| - 1), world.number);
      }
      if payload.None? || grant.None? {
        return Failure(Protocol);
      }
      var now := world.Now();
      var session :=
        StoredSession(target.name, target.baseUrl, target.apiPrefix, grant.value.access, grant.value.refresh,
                      now + grant.value.lifetime as real, now, email, target.app);
      GrantIsBound(store.sessions, world.sent, world.answers, session, target, world.number, now);
      store.Put(session);
      return Success(session);
    }

    /** Login, or any other endpoint that answers with tokens. */
    method SignIn(path: string, email: Option<string>) returns (r: Result<StoredSession, ClientError>)
      requires Safe()
      modifies store, world
      ensures Safe() && old(world.sent) <= world.sent
      ensures world.sent == Sent(old(Present()), path, Anonymous, None).sent
      ensures var a := Next(old(Present()));
        r ==
        if Grants(a, world.number) then Success(SignedIn(a, world.clock(old(world.ticks)), email))
        else Failure(Reproach(a))
      ensures r.Success? ==> Mine(r.value) && store.sessions == old(store.sessions)[target.name := r.value]
      ensures r.Failure? ==> store.sessions == old(store.sessions)
    {
      hide Bound, Issued, TokensStayHome, TextIn, SecondsIn, SignedIn;
      ghost var a := Next(Present());
      var payload := Request(path, None, false, true);
      if payload.Failure? {
        NotGranted(a, world.number);
        return Failure(payload.error);
      }
      if payload.value.None? {
        NotGranted(a, world.number);
      }
      r := StoreSessionPayload(payload.value, email);
    }

    /** The moment at which the logout request goes out: a kept session about to expire is refreshed first. */
    ghost function Revoking(m: Moment): Moment {
      if KeptFor(m.sessions, target) && ExpiresSoon(m.sessions[target.name], m.ticks) then
        Refreshed(m.sessions[target.name], m.(ticks := m.ticks + 2))
      else m.(ticks := m.ticks + 1)
    }

    /** Which refresh token the logout request names. */
    ghost function Revoked(m: Moment, allDevices: bool): Option<string> {
      if allDevices || !KeptFor(m.sessions, target) then None else Some(m.sessions[target.name].refreshToken)
    }

    /** The logout request goes out, and only its success forgets the session. */
    ghost predicate RevokedThen(m: Moment, carried: Option<string>, after: Moment, r: Result<bool, ClientError>) {
      match r
      case Failure(e) => SentAuthenticated("/auth/logout", carried, m, true, after, Failure(e))
      case Success(removed) => removed == (target.name in m.sessions) && exists before, answer ::
        SentAuthenticated("/auth/logout", carried, m, true, before, Success(answer)) &&
        after == before.(sessions := before.sessions - {target.name})
    }

    lemma RevocationDecides(m: Moment, carried: Option<string>, after: Moment,
                            revoked: Result<Option<Json>, ClientError>)
      requires SentAuthenticated("/auth/logout", carried, m, true, after, revoked)
      ensures after.sessions.Keys == m.sessions.Keys
      ensures match revoked
        case Failure(e) => RevokedThen(m, carried, after, Failure(e))
        case Success(_) => RevokedThen(m, carried, after.(sessions := after.sessions - {target.name}),
                                       Success(target.name in m.sessions))
    {
      hide SentAuthenticated, AnswersLast;
      RequestIsModest("/auth/logout", carried, m, true, after, revoked);
    }

    /** A logout that is not local only. */
    ghost predicate LoggedOut(m: Moment, allDevices: bool, after: Moment, r: Result<bool, ClientError>) {
      if KeptFor(m.sessions, target) && ExpiresSoon(m.sessions[target.name], m.ticks) &&
        !Grants(Next(m), world.number) then
        after == Revoking(m) && r == Failure(Reproach(Next(m)))
      else RevokedThen(Revoking(m), Revoked(Revoking(m), allDevices), after, r)
    }

    /** A logout that succeeds forgets exactly this profile, after a success of this target's own logout endpoint; one
        that fails keeps every profile. */
    lemma LogoutForgets(m: Moment, allDevices: bool, after: Moment, r: Result<bool, ClientError>)
      requires LoggedOut(m, allDevices, after, r)
      ensures r.Success? ==>
        && after.sessions == m.sessions - {target.name} && r.value == (target.name in m.sessions)
        && exists answer :: AnswersLast("/auth/logout", Revoked(Revoking(m), allDevices), after.sent, answer)
      ensures r.Failure? ==> after.sessions.Keys == m.sessions.Keys
    {
      hide SentAuthenticated, AnswersLast, Grants, Renewed;
      var asking := Revoking(m);
      var carried := Revoked(asking, allDevices);
      match r {
        case Failure(e) =>
          if SentAuthenticated("/auth/logout", carried, asking, true, after, Failure(e)) {
            RequestIsModest("/auth/logout", carried, asking, true, after, Failure(e));
          }
        case Success(_) =>
          var before, answer :| SentAuthenticated("/auth/logout", carried, asking, true, before, Success(answer)) &&
            after == before.(sessions := before.sessions - {target.name});
          RequestIsModest("/auth/logout", carried, asking, true, before, Success(answer));
          assert AnswersLast("/auth/logout", carried, after.sent, answer);
      }
    }

    /** Revokes remotely unless told not to, then forgets the local session. */
    method Logout(allDevices: bool, localOnly: bool) returns (r: Result<bool, ClientError>)
      requires Safe()
      modifies store, world
      ensures Safe()
      ensures var m := old(Present());
        if target.name in m.sessions && !KeptFor(m.sessions, target) then
          r == Failure(TargetMismatch) && Present() == m
        else if target.name !in m.sessions && !allDevices && !localOnly then
          r == Failure(SessionMissing) && Present() == m
        else if localOnly then
          r == Success(target.name in m.sessions) && Present() == m.(sessions := m.sessions - {target.name})
        else LoggedOut(m, allDevices, Present(), r)
    {
      hide Bound, Issued, TokensStayHome, Grants, SentAuthenticated, RevokedThen, Renewed, Reproach;
      var found := store.Get(target, !allDevices && !localOnly);
      if found.Failure? {
        return Failure(found.error);
      }
      var session := found.value;
      if session.Some? {
        FoundIsBound(store.sessions, world.sent, world.answers, target, !allDevices && !localOnly);
      }
      if !localOnly {
        var now := world.Now();
        if session.Some? && session.value.ExpiresWithin(30.0, now) {
          var refreshed := RefreshStoredSession(session, true);
          if refreshed.Failure? {
            return Failure(refreshed.error);
          }
          session := Some(refreshed.value);
        }
        ghost var asking := Present();
        var revoked :=
          Request("/auth/logout", if allDevices || session.None? then None else Some(session.value.refreshToken), true,
                  true);
        RevocationDecides(asking, Revoked(asking, allDevices), Present(), revoked);
        if revoked.Failure? {
          return Failure(revoked.error);
        }
      }
      BoundWithout(store.sessions, world.sent, world.answers, target.name);
      var removed := store.Delete(target.name);
      return Success(removed);
    }
  }

  lemma BoundWithout(sessions: Sessions, sent: seq<Exchange>, answers: nat -> Answer, profile: string)
    requires Bound(sessions, sent, answers)
    ensures Bound(sessions - {profile}, sent, answers)
  {
  }

  // ---- any interleaving -----------------------------------------------------------------------

  datatype Call =
    | SignInCall(target: Target, path: string, email: Option<string>)
    | RequestCall(target: Target, path: string, requireAuth: bool)
    | RefreshCall(target: Target, force: bool)
    | LogoutCall(target: Target, allDevices: bool, localOnly: bool)

  /** Clients for any targets take turns on one store: no stored token ever leaves the target that issued it. */
  method RunCalls(calls: seq<Call>, answers: nat -> Answer, clock: nat -> real, number: string -> Option<int>)
    returns (store: CredentialStore, world: World)
    ensures fresh(store) && fresh(world) && world.answers == answers
    ensures TokensStayHome(world.sent, answers) && Bound(store.sessions, world.sent, answers)
  {
    hide Bound, Issued, TokensStayHome;
    store := new CredentialStore();
    world := new World(answers, clock, number);
    NothingSent(answers);
    for i := 0 to |calls|
      invariant fresh(store) && fresh(world) && world.answers == answers
      invariant Bound(store.sessions, world.sent, answers) && TokensStayHome(world.sent, answers)
    {
      var client := new RemoteClient(calls[i].target, store, world);
      match calls[i]
      case SignInCall(_, path, email) => var _ := client.SignIn(path, email);
      case RequestCall(_, path, requireAuth) => var _ := client.Request(path, None, requireAuth, true);
      case RefreshCall(_, force) => var _ := client.RefreshStoredSession(None, force);
      case LogoutCall(_, allDevices, localOnly) => var _ := client.Logout(allDevices, localOnly);
    }
  }

  lemma NothingSent(answers: nat -> Answer)
    ensures Bound(map[], [], answers) && TokensStayHome([], answers)
  {
  }
}
