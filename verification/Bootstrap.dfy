/** First boot: classifying a schema, migrating it with bounded retries, seeding it, checking it, and doing it all
    again. */
module Bootstrap {
  import opened Outcomes
  import opened Text

  const VERSION_TABLE := "outlabs_auth_alembic_version"

  const CORE_TABLES: set<string> := {"users", "roles", "permissions", "entities", "entity_memberships", "system_config"}

  /** What bootstrap can see and change of a database: the target schema, its tables, the stamped revision and the
      rows it owns. Users are known by their normalised e-mail. */
  datatype Db = Db(
    reachable: bool,
    schemaExists: bool,
    tables: set<string>,
    revision: Option<string>,
    indexesValid: bool,
    permissions: set<string>,
    configured: bool,
    users: set<string>)

  /** The installed library: whether a schema is named, the head and baseline revisions, which revisions it knows, its
      permission catalog and what its migrations do. */
  datatype Library = Library(
    schemaNamed: bool,
    head: string,
    baseline: string,
    known: string -> bool,
    catalog: seq<string>,
    upgrade: Db -> Db)

  /** The library knows the revision it stamps, and an upgrade leaves a versioned schema at head where it was. */
  ghost predicate Consistent(lib: Library) {
    && lib.known(lib.baseline)
    && forall db: Db :: UpgradesToHead(lib, db)
  }

  ghost predicate UpgradesToHead(lib: Library, db: Db) {
    var after := lib.upgrade(db);
    && after.reachable == db.reachable && after.schemaExists == db.schemaExists
    && VERSION_TABLE in after.tables && after.revision == Some(lib.head)
  }

  // ---- classification -------------------------------------------------------------------------

  datatype State =
    | NoConnection
    | SchemaMissing
    | Empty
    | Legacy
    | PartialNonAuth
    | AlembicEmpty
    | Drifted
    | HealthyBehind
    | HealthyCurrent

  function Classify(db: Db, lib: Library): State {
    if !db.reachable then NoConnection
    else if lib.schemaNamed && !db.schemaExists then SchemaMissing
    else if db.tables == {} then Empty
    else if VERSION_TABLE !in db.tables then if CORE_TABLES <= db.tables then Legacy else PartialNonAuth
    else match db.revision
      case None => AlembicEmpty
      case Some(r) => if r == lib.head then HealthyCurrent else if lib.known(r) then HealthyBehind else Drifted
  }

  predicate Aborts(s: State) {
    s in {NoConnection, SchemaMissing, PartialNonAuth, Drifted}
  }

  // ---- doctor ---------------------------------------------------------------------------------

  datatype Status = Ok | Fail | Skip

  datatype Check = Check(name: string, status: Status)

  const CHECKS: seq<string> :=
    ["Database connectivity", "Target schema", "Alembic version table", "Revision matches code", "Core auth tables"]

  function Judge(good: bool): Status {
    if good then Ok else Fail
  }

  function Skipped(from: nat): seq<Check>
    requires from <= |CHECKS|
  {
    seq(|CHECKS| - from, i requires 0 <= i < |CHECKS| - from => Check(CHECKS[from + i], Skip))
  }

  method RunDoctor(db: Db, lib: Library) returns (checks: seq<Check>)
    ensures checks == Doctor(db, lib)
  {
    checks := [Check(CHECKS[0], Judge(db.reachable))];
    if !db.reachable {
      for i := 1 to |CHECKS|
        invariant checks == [Check(CHECKS[0], Fail)] + Skipped(1)[..i - 1]
      {
        checks := checks + [Check(CHECKS[i], Skip)];
      }
      assert Skipped(1)[..|CHECKS| - 1] == Skipped(1);
      return;
    }
    checks := checks + [Check(CHECKS[1], Judge(!lib.schemaNamed || db.schemaExists))];
    if lib.schemaNamed && !db.schemaExists {
      for i := 2 to |CHECKS|
        invariant checks == [Check(CHECKS[0], Ok), Check(CHECKS[1], Fail)] + Skipped(2)[..i - 2]
      {
        checks := checks + [Check(CHECKS[i], Skip)];
      }
      assert Skipped(2)[..|CHECKS| - 2] == Skipped(2);
      return;
    }
    checks := checks + [Check(CHECKS[2], Judge(VERSION_TABLE in db.tables))];
    if VERSION_TABLE !in db.tables {
      checks := checks + [Check(CHECKS[3], Skip)];
    } else {
      checks := checks + [Check(CHECKS[3], Judge(db.revision == Some(lib.head)))];
    }
    checks := checks + [Check(CHECKS[4], Judge(CORE_TABLES <= db.tables))];
  }

  function Doctor(db: Db, lib: Library): seq<Check> {
    if !db.reachable then [Check(CHECKS[0], Fail)] + Skipped(1)
    else if lib.schemaNamed && !db.schemaExists then [Check(CHECKS[0], Ok), Check(CHECKS[1], Fail)] + Skipped(2)
    else
      [Check(CHECKS[0], Ok), Check(CHECKS[1], Ok), Check(CHECKS[2], Judge(VERSION_TABLE in db.tables)),
       Check(CHECKS[3], if VERSION_TABLE in db.tables then Judge(db.revision == Some(lib.head)) else Skip),
       Check(CHECKS[4], Judge(CORE_TABLES <= db.tables))]
  }

  predicate AllOk(checks: seq<Check>) {
    forall i | 0 <= i < |checks| :: checks[i].status == Ok
  }

  /** The doctor finds nothing wrong exactly in the healthy, current state with all core tables. */
  lemma DoctorAllOkIff(db: Db, lib: Library)
    ensures AllOk(Doctor(db, lib)) <==> Classify(db, lib) == HealthyCurrent && CORE_TABLES <= db.tables
  {
    var checks := Doctor(db, lib);
    if AllOk(checks) {
      assert checks[0].status == Ok && checks[1].status == Ok && checks[2].status == Ok && checks[3].status == Ok &&
        checks[4].status == Ok;
    }
  }

  function StatusOf(checks: seq<Check>, i: nat): Status {
    if i < |checks| then checks[i].status else Skip
  }

  /** Always the five checks, in order; a skipped check follows a failed one. All but the first are skipped exactly
      while the database cannot be reached or, from the third on, the named schema is missing; the revision also while
      there is no version table. */
  lemma DoctorReportsEverything(db: Db, lib: Library)
    ensures |Doctor(db, lib)| == |CHECKS| && forall i | 0 <= i < |CHECKS| :: Doctor(db, lib)[i].name == CHECKS[i]
    ensures forall i | 0 <= i < |CHECKS| && Doctor(db, lib)[i].status == Skip :: exists j | 0 <= j < i ::
      Doctor(db, lib)[j].status == Fail
    ensures var checks := Doctor(db, lib);
      var missing := lib.schemaNamed && !db.schemaExists;
      && StatusOf(checks, 0) == (if db.reachable then Ok else Fail)
      && (StatusOf(checks, 1) == Skip <==> !db.reachable)
      && (StatusOf(checks, 1) == Fail <==> db.reachable && missing)
      && (StatusOf(checks, 2) == Skip <==> !db.reachable || missing)
      && (StatusOf(checks, 2) == Fail <==> db.reachable && !missing && VERSION_TABLE !in db.tables)
      && (StatusOf(checks, 3) == Skip <==> !db.reachable || missing || VERSION_TABLE !in db.tables)
      && (StatusOf(checks, 3) == Fail <==>
        db.reachable && !missing && VERSION_TABLE in db.tables && db.revision != Some(lib.head))
      && (StatusOf(checks, 4) == Skip <==> !db.reachable || missing)
      && (StatusOf(checks, 4) == Fail <==> db.reachable && !missing && !(CORE_TABLES <= db.tables))
  {
    var checks := Doctor(db, lib);
    forall i | 0 <= i < |CHECKS| && checks[i].status == Skip ensures exists j | 0 <= j < i :: checks[j].status == Fail {
      assert checks[0].status == Fail || checks[1].status == Fail || checks[2].status == Fail;
    }
  }

  // ---- one Alembic command --------------------------------------------------------------------

  datatype Cause = LockTimeout | OtherDatabaseError | OtherError

  /** How one attempt goes: the schema is ensured outside the transaction, then the transaction commits or rolls
      back. */
  datatype Attempt = SchemaStepFails(cause: Cause) | RollsBack(cause: Cause) | Commits

  datatype Failure = BadRetryCount | CommandFailed(cause: Cause) | NotAdoptable | InvalidIndexes | PasswordMissing |
    EmailMissing
    | UsersExist | SessionFailed

  predicate Retryable(a: Attempt) {
    !a.Commits? && a.cause == LockTimeout
  }

  /** The number of attempts made, counting from attempt `k` of `n`. */
  function Made(attempts: nat -> Attempt, k: nat, n: nat): (m: nat)
    requires k < n
    ensures k < m <= n
    decreases n - k
  {
    if Retryable(attempts(k)) && k + 1 < n then Made(attempts, k + 1, n) else k + 1
  }

  /** Some attempt got as far as the transaction. */
  predicate SchemaEnsured(attempts: nat -> Attempt, made: nat) {
    exists i | 0 <= i < made :: !attempts(i).SchemaStepFails?
  }

  function Prepared(db: Db, ensureSchema: bool, attempts: nat -> Attempt, made: nat): Db {
    if ensureSchema && SchemaEnsured(attempts, made) then db.(schemaExists := true) else db
  }

  function RunCommand(db: Db, body: Db -> Db, ensureSchema: bool, attempts: nat -> Attempt,
                      n: int): (Db, Result<(), Failure>) {
    if !(1 <= n <= 3) then (db, Result.Failure(BadRetryCount))
    else
      var made := Made(attempts, 0, n);
      var ready := Prepared(db, ensureSchema, attempts, made);
      match attempts(made - 1)
      case Commits => (body(ready), Success(()))
      case failed => (ready, Result.Failure(CommandFailed(failed.cause)))
  }

  /** At most `n` attempts; every one but the last failed on a lock; the last one committed, failed on something else
      or was the last allowed. */
  lemma {:induction false} RetryIsBounded(attempts: nat -> Attempt, k: nat, n: nat)
    requires k < n
    ensures k < Made(attempts, k, n) <= n
    ensures forall i | k <= i < Made(attempts, k, n) - 1 :: !attempts(i).Commits? && attempts(i).cause == LockTimeout
    ensures var last := Made(attempts, k, n) - 1;
      attempts(last).Commits? || attempts(last).cause != LockTimeout || last == n - 1
    decreases n - k
  {
    if Retryable(attempts(k)) && k + 1 < n {
      RetryIsBounded(attempts, k + 1, n);
    }
  }

  /** So many attempts were made of `n` allowed ones: all but the last failed on a lock, and the last one ended it. */
  ghost predicate TriedUntil(attempts: nat -> Attempt, made: nat, n: nat) {
    && 1 <= made <= n
    && (forall i | 0 <= i < made - 1 :: !attempts(i).Commits? && attempts(i).cause == LockTimeout)
    && (attempts(made - 1).Commits? || attempts(made - 1).cause != LockTimeout || made == n)
  }

  class Database {
    var state: Db
    var commits: nat
    var tried: nat

    constructor (state: Db)
      ensures this.state == state && commits == 0 && tried == 0
    {
      this.state, commits, tried := state, 0, 0;
    }

    /** The retry loop: the body is committed once if the command returns, and not at all if it raises. */
    method RunAlembicCommand(body: Db -> Db, ensureSchema: bool, attempts: nat -> Attempt, n: int)
      returns (r: Result<(), Failure>)
      modifies this
      ensures (state, r) == RunCommand(old(state), body, ensureSchema, attempts, n)
      ensures commits == old(commits) + if r.Success? then 1 else 0
      ensures 1 <= n <= 3 ==> tried == old(tried) + Made(attempts, 0, n)
      ensures 1 <= n <= 3 ==>
        && TriedUntil(attempts, tried - old(tried), n)
        && var last := attempts(tried - old(tried) - 1);
           r == if last.Commits? then Success(()) else Result.Failure(CommandFailed(last.cause))
      ensures !(1 <= n <= 3) ==> r == Result.Failure(BadRetryCount) && state == old(state) && tried == old(tried)
    {
      if !(1 <= n <= 3) {
        return Result.Failure(BadRetryCount);
      }
      RetryIsBounded(attempts, 0, n);
      for attempt := 0 to n
        invariant state == Prepared(old(state), ensureSchema, attempts, attempt)
        invariant commits == old(commits) && tried == old(tried) + attempt
        invariant attempt < n ==> Made(attempts, 0, n) == Made(attempts, attempt, n)
        invariant attempt < n
      {
        tried := tried + 1;
        var outcome := attempts(attempt);
        if !outcome.SchemaStepFails? {
          if ensureSchema {
            state := state.(schemaExists := true);
          }
          if outcome.Commits? {
            state, commits := body(state), commits + 1;
            return Success(());
          }
        }
        if outcome.cause != LockTimeout || attempt + 1 == n {
          return Result.Failure(CommandFailed(outcome.cause));
        }
      }
      assert false;
      return Result.Failure(BadRetryCount);
    }

    // ---- migrating ----------------------------------------------------------------------------

    /** Stamps a complete schema that predates Alembic; refuses an incomplete one. */
    method AdoptExistingSchema(lib: Library, attempts: nat -> Attempt) returns (r: Result<bool, Failure>)
      modifies this
      ensures (state, r) == Adopted(old(state), lib, attempts)
      ensures r == Success(true) <==> Unversioned(old(state)) && CORE_TABLES <= old(state).tables && Returns(attempts)
      ensures r == Success(true) ==>
        && state == old(state).(
             schemaExists := true, tables := old(state).tables + {VERSION_TABLE}, revision := Some(lib.baseline))
        && commits == old(commits) + 1
      ensures r == Success(false) <==> !Unversioned(old(state))
      ensures r == Success(false) || r == Result.Failure(NotAdoptable) ==>
        state == old(state) && commits == old(commits) && tried == old(tried)
      ensures r == Result.Failure(NotAdoptable) <==> Unversioned(old(state)) && !(CORE_TABLES <= old(state).tables)
      ensures r.Failure? ==> state in {old(state), old(state).(schemaExists := true)} && commits == old(commits)
    {
      if VERSION_TABLE in state.tables || state.tables == {} {
        return Success(false);
      }
      if !(CORE_TABLES <= state.tables) {
        return Result.Failure(NotAdoptable);
      }
      ReturnsMeans(attempts);
      var stamped := RunAlembicCommand(Stamp(lib), true, attempts, RETRIES);
      if stamped.Failure? {
        return Result.Failure(stamped.error);
      }
      return Success(true);
    }

    /** `run_migrations` to head. */
    method RunMigrations(lib: Library, stamping: nat -> Attempt, upgrading: nat -> Attempt)
      returns (r: Result<(), Failure>)
      modifies this
      ensures (state, r) == Migrated(old(state), lib, stamping, upgrading)
      ensures Consistent(lib) && r.Success? ==> AtHead(state, lib)
      ensures AtHead(old(state), lib) ==>
        && state == old(state) && commits == old(commits) && tried == old(tried)
        && (r.Success? <==> old(state).indexesValid)
      ensures r == Result.Failure(NotAdoptable) <==> Unversioned(old(state)) && !(CORE_TABLES <= old(state).tables)
      ensures r == Result.Failure(NotAdoptable) ==> state == old(state) && commits == old(commits)
      ensures r.Failure? ==>
        && (commits == old(commits) || commits == old(commits) + 1)
        && (commits == old(commits) + 1 ==>
              Unversioned(old(state)) && state.revision == Some(lib.baseline) && VERSION_TABLE in state.tables)
    {
      var adopted := AdoptExistingSchema(lib, stamping);
      if adopted.Failure? {
        return Result.Failure(adopted.error);
      }
      if VERSION_TABLE in state.tables && state.revision == Some(lib.head) {
        return if state.indexesValid then Success(()) else Result.Failure(InvalidIndexes);
      }
      assert Consistent(lib) ==> UpgradesToHead(lib, state) && UpgradesToHead(lib, state.(schemaExists := true));
      r := RunAlembicCommand(lib.upgrade, true, upgrading, RETRIES);
    }

    // ---- seeding ------------------------------------------------------------------------------

    /** `seed_system_records` in one session, which is committed at the end or not at all. */
    method SeedSystemRecords(catalog: seq<string>, sessionFails: bool) returns (r: Result<Seeded, Failure>)
      modifies this
      ensures r.Failure? <==> sessionFails
      ensures r.Failure? ==> state == old(state)
      ensures r.Success? ==>
        && state == WithSeeds(old(state), catalog)
        && r.value.created + r.value.existing == |catalog|
        && r.value.created == |NamesOf(catalog) - old(state).permissions|
        && r.value.configSeeded == !old(state).configured
    {
      hide NamesOf;
      ghost var before := state.permissions;
      var names := state.permissions;
      var created, existing := 0, 0;
      SeedStart(catalog, before);
      for i := 0 to |catalog|
        invariant state == old(state) && names == before + NamesOf(catalog[..i])
        invariant created + existing == i
        invariant created == |NamesOf(catalog[..i]) - before|
      {
        SeedStep(catalog, i, before);
        if catalog[i] in names {
          existing := existing + 1;
        } else {
          names := names + {catalog[i]};
          created := created + 1;
        }
      }
      assert catalog[..|catalog|] == catalog;
      if sessionFails {
        return Result.Failure(SessionFailed);
      }
      r := Success(Seeded(created, existing, !state.configured));
      state := state.(permissions := names, configured := true);
    }

    /** `bootstrap_superuser`: an existing user of that e-mail is a success, any other user a refusal. */
    method BootstrapSuperuser(email: string, password: string, sessionFails: bool) returns (r: Result<bool, Failure>)
      modifies this
      ensures (state, r) == WithAdmin(old(state), email, password, sessionFails)
      ensures r.Failure? ==> state == old(state)
      ensures r.Success? ==> Fold(Trimmed(email)) in state.users && Fold(Trimmed(email)) != ""
      ensures r == Success(true) <==> state != old(state)
      ensures r == Success(true) ==> old(state).users == {} && state == old(state).(users := {Fold(Trimmed(email))})
      ensures r.Failure? <==>
        || Fold(Trimmed(email)) == "" || password == "" || sessionFails
        || (old(state).users != {} && Fold(Trimmed(email)) !in old(state).users)
      ensures r.Failure? ==>
        r.error ==
          (if Fold(Trimmed(email)) == "" then EmailMissing
           else if password == "" then PasswordMissing
           else if sessionFails then SessionFailed
           else UsersExist)
    {
      var normalized := Fold(Trimmed(email));
      if normalized == "" {
        return Result.Failure(EmailMissing);
      }
      if password == "" {
        return Result.Failure(PasswordMissing);
      }
      if sessionFails {
        return Result.Failure(SessionFailed);
      }
      if normalized in state.users {
        return Success(false);
      }
      if state.users != {} {
        return Result.Failure(UsersExist);
      }
      state := state.(users := state.users + {normalized});
      return Success(true);
    }
  }

  const RETRIES := 3

  /** A schema with tables of its own that Alembic does not know. */
  predicate Unversioned(db: Db) {
    VERSION_TABLE !in db.tables && db.tables != {}
  }

  predicate AtHead(db: Db, lib: Library) {
    VERSION_TABLE in db.tables && db.revision == Some(lib.head)
  }

  /** The command that is given these attempts returns in the end: one of the first three commits, after nothing but
      lock timeouts. */
  ghost predicate Returns(attempts: nat -> Attempt) {
    exists i | 0 <= i < 3 ::
      attempts(i).Commits? && forall j | 0 <= j < i :: !attempts(j).Commits? && attempts(j).cause == LockTimeout
  }

  lemma ReturnsMeans(attempts: nat -> Attempt)
    ensures Returns(attempts) <==> attempts(Made(attempts, 0, RETRIES) - 1).Commits?
  {
    RetryIsBounded(attempts, 0, RETRIES);
    var last := Made(attempts, 0, RETRIES) - 1;
    if attempts(last).Commits? {
      assert forall j | 0 <= j < last :: !attempts(j).Commits? && attempts(j).cause == LockTimeout;
    }
  }

  function Stamp(lib: Library): Db -> Db {
    (db: Db) => db.(tables := db.tables + {VERSION_TABLE}, revision := Some(lib.baseline))
  }

  function Adopted(db: Db, lib: Library, attempts: nat -> Attempt): (Db, Result<bool, Failure>) {
    if VERSION_TABLE in db.tables || db.tables == {} then (db, Success(false))
    else if !(CORE_TABLES <= db.tables) then (db, Result.Failure(NotAdoptable))
    else
      var (after, r) := RunCommand(db, Stamp(lib), true, attempts, RETRIES);
      (after, match r case Success(_) => Success(true) case Failure(e) => Result.Failure(e))
  }

  function Migrated(db: Db, lib: Library, stamping: nat -> Attempt,
                    upgrading: nat -> Attempt): (Db, Result<(), Failure>) {
    var (adopted, r) := Adopted(db, lib, stamping);
    if r.Failure? then (adopted, Result.Failure(r.error))
    else if VERSION_TABLE in adopted.tables && adopted.revision == Some(lib.head) then
      (adopted, if adopted.indexesValid then Success(()) else Result.Failure(InvalidIndexes))
    else RunCommand(adopted, lib.upgrade, true, upgrading, RETRIES)
  }

  datatype Seeded = Seeded(created: nat, existing: nat, configSeeded: bool)

  function NamesOf(catalog: seq<string>): set<string> {
    set n | n in catalog
  }

  lemma SeedStart(catalog: seq<string>, before: set<string>)
    ensures before == before + NamesOf(catalog[..0]) && |NamesOf(catalog[..0]) - before| == 0
  {
    assert NamesOf(catalog[..0]) == {};
  }

  lemma SeedStep(catalog: seq<string>, i: nat, before: set<string>)
    requires i < |catalog|
    ensures before + NamesOf(catalog[..i + 1]) ==
      before + NamesOf(catalog[..i]) + if catalog[i] in before + NamesOf(catalog[..i]) then {} else {catalog[i]}
    ensures |NamesOf(catalog[..i + 1]) - before| ==
      |NamesOf(catalog[..i]) - before| + if catalog[i] in before + NamesOf(catalog[..i]) then 0 else 1
  {
    var old', new' := NamesOf(catalog[..i]), NamesOf(catalog[..i + 1]);
    assert catalog[..i + 1] == catalog[..i] + [catalog[i]];
    assert new' == old' + {catalog[i]};
    if catalog[i] in before + old' {
      assert new' - before == old' - before;
    } else {
      assert new' - before == (old' - before) + {catalog[i]};
    }
  }

  function WithSeeds(db: Db, catalog: seq<string>): Db {
    db.(permissions := db.permissions + NamesOf(catalog), configured := true)
  }

  predicate IsSpace(c: char) {
    c in {' ', '\t', '\n', '\r'}
  }

  /** `str.strip`. */
  function Trimmed(s: string): string {
    if s != "" && IsSpace(s[0]) then Trimmed(s[1..])
    else if s != "" && IsSpace(s[|s| - 1]) then Trimmed(s[..|s| - 1])
    else s
  }

  function WithAdmin(db: Db, email: string, password: string, sessionFails: bool): (Db, Result<bool, Failure>) {
    var normalized := Fold(Trimmed(email));
    if normalized == "" then (db, Result.Failure(EmailMissing))
    else if password == "" then (db, Result.Failure(PasswordMissing))
    else if sessionFails then (db, Result.Failure(SessionFailed))
    else if normalized in db.users then (db, Success(false))
    else if db.users != {} then (db, Result.Failure(UsersExist))
    else (db.(users := db.users + {normalized}), Success(true))
  }
}
