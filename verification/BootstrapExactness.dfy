/** Which databases bootstrap takes on, when a run on one succeeds, and what it leaves behind, said on the database
    alone. */
module BootstrapExactness {
  import opened Outcomes
  import opened Text
  import opened Bootstrap
  import opened BootstrapRun

  /** Bootstrap keeps off: the database cannot be reached, the named schema is missing, there are tables that are
      neither versioned nor the whole auth schema, or the stamped revision is one this library does not know. */
  ghost predicate Unfit(db: Db, lib: Library) {
    || !db.reachable
    || (lib.schemaNamed && !db.schemaExists)
    || (db.tables != {} && VERSION_TABLE !in db.tables && !(CORE_TABLES <= db.tables))
    || (VERSION_TABLE in db.tables && db.revision.Some? && db.revision.value != lib.head &&
        !lib.known(db.revision.value))
  }

  /** The run reports neither success nor a failed step nor a final check. */
  ghost predicate Refused(o: Outcome) {
    !o.success && o.checks == [] && o.failure.None?
  }

  /** A run is refused exactly on the unfit databases, whatever its arguments and circumstances, and then nothing is
      changed or reported as done. */
  lemma RefusedIffUnfit(db: Db, lib: Library, args: Arguments, now: Circumstances)
    ensures var (after, outcome) := Bootstrapped(db, lib, args, now);
      && (Refused(outcome) <==> Unfit(db, lib))
      && (Refused(outcome) ==> after == db && outcome.executed == [])
      && (args.dryRun ==> after == db && outcome.executed == [] && (outcome.success <==> !Unfit(db, lib)))
  {
    hide RunSteps, Steps;
  }

  // ---- where a run leads ----------------------------------------------------------------------

  /** The database once its schema has been brought to head: a schema with tables of its own is stamped first. */
  ghost function Head(db: Db, lib: Library): Db {
    var ready := db.(schemaExists := true);
    var stamped := ready.(tables := db.tables + {VERSION_TABLE}, revision := Some(lib.baseline));
    if AtHead(db, lib) then db
    else if !Unversioned(db) then lib.upgrade(ready)
    else if lib.baseline == lib.head then stamped
    else lib.upgrade(stamped)
  }

  /** The migration goes through: every command it gives returns, and indexes are valid where stamping alone reached
      head. */
  ghost predicate Migratable(db: Db, lib: Library, now: Circumstances) {
    if AtHead(db, lib) then true
    else if !Unversioned(db) then Returns(now.upgrading)
    else Returns(now.stamping) && if lib.baseline == lib.head then db.indexesValid else Returns(now.upgrading)
  }

  /** With seeds unless they are skipped. */
  ghost function AfterSeeding(db: Db, lib: Library, args: Arguments): Db {
    if args.skipSeed then db else db.(permissions := db.permissions + NamesOf(lib.catalog), configured := true)
  }

  ghost predicate Seedable(args: Arguments, now: Circumstances) {
    args.skipSeed || !now.seedFails
  }

  ghost function Email(args: Arguments): string {
    Fold(Trimmed(args.adminEmail))
  }

  /** With the administrator if one is asked for. */
  ghost function Administered(db: Db, args: Arguments): Db {
    if args.adminEmail == "" then db else db.(users := db.users + {Email(args)})
  }

  /** An administrator who is asked for has a password and an e-mail, and is the first user or one already. */
  ghost predicate Administrable(db: Db, args: Arguments, now: Circumstances) {
    args.adminEmail == "" ||
    (args.adminPassword != "" && Email(args) != "" && !now.adminFails && (db.users == {} || Email(args) in db.users))
  }

  /** What the doctor must find at the end. */
  ghost predicate Sane(db: Db, lib: Library) {
    && db.reachable && (lib.schemaNamed ==> db.schemaExists)
    && VERSION_TABLE in db.tables && db.revision == Some(lib.head) && CORE_TABLES <= db.tables
  }

  /** The steps a run can report, one after the other. */
  ghost function MigrationReport(db: Db, lib: Library): Done {
    if AtHead(db, lib) then Done(SkipMigrate, false, 0, 0, 0) else Done(Migrate, true, 0, 0, 0)
  }

  ghost function SeedReport(head: Db, lib: Library, args: Arguments): seq<Done> {
    if args.skipSeed then []
    else [Done(Seed, false, |NamesOf(lib.catalog) - head.permissions|, if head.configured then 0 else 1, 0)]
  }

  ghost function AdminReport(head: Db, args: Arguments): Done {
    if args.adminEmail == "" then Done(SkipAdmin, false, 0, 0, 0)
    else Done(CreateAdmin, false, 0, 0, if Email(args) in head.users then 0 else 1)
  }

  // ---- what a failing step leaves -------------------------------------------------------------

  /** The command gave up with this error: on something other than a lock timeout, or on the third one. */
  ghost predicate GivesUp(attempts: nat -> Attempt, e: Failure) {
    exists made: nat ::
      TriedUntil(attempts, made, 3) && !attempts(made - 1).Commits? && e == CommandFailed(attempts(made - 1).cause)
  }

  /** A migration that fails names the command that gave up, or the indexes; a schema that was stamped stays stamped,
      and nothing else but the schema itself has been made. */
  ghost predicate Unfinished(db: Db, lib: Library, now: Circumstances, after: Db, e: Failure) {
    var ready := db.(schemaExists := true);
    if !Unversioned(db) then after in {db, ready} && GivesUp(now.upgrading, e)
    else if !Returns(now.stamping) then after in {db, ready} && GivesUp(now.stamping, e)
    else
      && after == ready.(tables := db.tables + {VERSION_TABLE}, revision := Some(lib.baseline))
      && if lib.baseline == lib.head then e == InvalidIndexes else GivesUp(now.upgrading, e)
  }

  /** Why no administrator could be made. */
  ghost function AdminFailure(args: Arguments, now: Circumstances): Failure {
    if args.adminPassword == "" then PasswordMissing
    else if Email(args) == "" then EmailMissing
    else if now.adminFails then SessionFailed
    else UsersExist
  }

  // ---- the steps ------------------------------------------------------------------------------

  lemma CommandReturns(db: Db, body: Db -> Db, attempts: nat -> Attempt)
    ensures var (after, r) := RunCommand(db, body, true, attempts, RETRIES);
      && (r.Success? <==> Returns(attempts)) && (r.Success? ==> after == body(db.(schemaExists := true)))
      && (r.Failure? ==> after in {db, db.(schemaExists := true)} && GivesUp(attempts, r.error))
  {
    hide Returns;
    ReturnsMeans(attempts);
    RetryIsBounded(attempts, 0, RETRIES);
    assert TriedUntil(attempts, Made(attempts, 0, RETRIES), 3);
    var last := Made(attempts, 0, RETRIES) - 1;
    if attempts(last).Commits? {
      assert SchemaEnsured(attempts, last + 1);
    }
  }

  lemma MigrationLeadsToHead(db: Db, lib: Library, now: Circumstances)
    requires !Unfit(db, lib) && !AtHead(db, lib)
    ensures var (after, r) := Migrated(db, lib, now.stamping, now.upgrading);
      && (r.Success? <==> Migratable(db, lib, now)) && (r.Success? ==> after == Head(db, lib))
      && (r.Failure? ==> Unfinished(db, lib, now, after, r.error))
  {
    hide RunCommand, Returns, GivesUp;
    CommandReturns(db, Stamp(lib), now.stamping);
    var adopted := Adopted(db, lib, now.stamping).0;
    CommandReturns(adopted, lib.upgrade, now.upgrading);
    var stamped := Stamp(lib)(db.(schemaExists := true));
    assert stamped.(schemaExists := true) == stamped;
    var r := Migrated(db, lib, now.stamping, now.upgrading).1;
    if Unversioned(db) && r.Failure? {
      if Returns(now.stamping) {
        assert adopted == stamped;
      } else {
        var stamping := RunCommand(db, Stamp(lib), true, now.stamping, RETRIES).1;
        assert stamping.Failure? && Adopted(db, lib, now.stamping).1 == Result.Failure(stamping.error);
      }
    }
  }

  /** The first step. */
  lemma FirstStep(db: Db, lib: Library, args: Arguments, now: Circumstances)
    requires !Unfit(db, lib)
    ensures var (after, r) := RunStep(db, lib, args, now, MigrationStep(Classify(db, lib)));
      && (r.Success? <==> Migratable(db, lib, now))
      && (r.Success? ==> after == Head(db, lib) && r.value == MigrationReport(db, lib))
      && (r.Failure? ==> Unfinished(db, lib, now, after, r.error))
  {
    hide Migrated, Returns, Unfinished;
    if !AtHead(db, lib) {
      MigrationLeadsToHead(db, lib, now);
      var (after, r) := Migrated(db, lib, now.stamping, now.upgrading);
      assert r.Failure? ==>
        RunStep(db, lib, args, now, MigrationStep(Classify(db, lib))) == (after, Result.Failure(r.error));
    }
  }

  lemma SeedingStep(db: Db, lib: Library, args: Arguments, now: Circumstances)
    requires !args.skipSeed
    ensures var (after, r) := RunStep(db, lib, args, now, Seed);
      && (r.Success? <==> Seedable(args, now))
      && (r.Success? ==> after == AfterSeeding(db, lib, args) && [r.value] == SeedReport(db, lib, args))
      && (r.Failure? ==> after == db && r.error == SessionFailed)
  {
  }

  lemma LastStep(db: Db, lib: Library, args: Arguments, now: Circumstances)
    ensures var (after, r) := RunStep(db, lib, args, now, if args.adminEmail != "" then CreateAdmin else SkipAdmin);
      && (r.Success? <==> Administrable(db, args, now))
      && (r.Success? ==> after == Administered(db, args) && r.value == AdminReport(db, args))
      && (r.Failure? ==> after == db && r.error == AdminFailure(args, now))
  {
    if args.adminEmail != "" && Email(args) in db.users {
      assert db.users + {Email(args)} == db.users;
    }
  }

  /** One more step after the others. */
  lemma OneMore(db: Db, lib: Library, args: Arguments, now: Circumstances, steps: seq<Action>, step: Action)
    ensures var (before, done, failure) := RunSteps(db, lib, args, now, steps);
      RunSteps(db, lib, args, now, steps + [step]) ==
      if failure.Some? then (before, done, failure)
      else
        var (after, r) := RunStep(before, lib, args, now, step);
        match r
        case Failure(e) => (after, done, Some(e))
        case Success(d) => (after, done + [d], None)
  {
    hide RunStep;
    assert (steps + [step])[..|steps|] == steps;
  }

  /** Migrating, then seeding unless it is skipped. */
  lemma StepsBeforeLast(db: Db, lib: Library, args: Arguments, now: Circumstances)
    requires !Unfit(db, lib)
    ensures var (after, done, failure) :=
        RunSteps(db, lib, args, now,
                 [MigrationStep(Classify(db, lib))] + if args.skipSeed then [] else [Seed]);
      var head := Head(db, lib);
      && (failure.None? <==> Migratable(db, lib, now) && Seedable(args, now))
      && (failure.None? ==>
        after == AfterSeeding(head, lib, args) && done == [MigrationReport(db, lib)] + SeedReport(head, lib, args))
      && (!Migratable(db, lib, now) ==>
        done == [] && failure.Some? && Unfinished(db, lib, now, after, failure.value))
      && (Migratable(db, lib, now) && !Seedable(args, now) ==>
        after == head && done == [MigrationReport(db, lib)] && failure == Some(SessionFailed))
  {
    hide RunStep, Classify, Migratable, Head, Unfit, MigrationStep, RunSteps, MigrationReport, Unfinished;
    var first := MigrationStep(Classify(db, lib));
    FirstStep(db, lib, args, now);
    NoSteps(db, lib, args, now);
    OneMore(db, lib, args, now, [], first);
    assert [] + [first] == [first] == [first] + [];
    assert !Migratable(db, lib, now) ==> RunStep(db, lib, args, now, first).1.Failure?;
    if !args.skipSeed {
      OneMore(db, lib, args, now, [first], Seed);
      SeedingStep(Head(db, lib), lib, args, now);
      assert !Seedable(args, now) ==> RunStep(Head(db, lib), lib, args, now, Seed).1.Failure?;
    }
  }

  /** The steps of a run that is taken on: all go through exactly if the schema can be migrated, seeded and given its
      administrator, and where they lead and what they report is what head, catalog and arguments say. */
  lemma StepsLead(db: Db, lib: Library, args: Arguments, now: Circumstances)
    requires !Unfit(db, lib)
    ensures var (after, done, failure) := RunSteps(db, lib, args, now, Steps(Classify(db, lib), args));
      var head := Head(db, lib);
      && (failure.None? <==> Migratable(db, lib, now) && Seedable(args, now) && Administrable(head, args, now))
      && (failure.None? ==>
           && after == Administered(AfterSeeding(head, lib, args), args)
           && done == [MigrationReport(db, lib)] + SeedReport(head, lib, args) + [AdminReport(head, args)])
      && (!Migratable(db, lib, now) ==>
           done == [] && failure.Some? && Unfinished(db, lib, now, after, failure.value))
      && (Migratable(db, lib, now) && !Seedable(args, now) ==>
           after == head && done == [MigrationReport(db, lib)] && failure == Some(SessionFailed))
      && (Migratable(db, lib, now) && Seedable(args, now) && !Administrable(head, args, now) ==>
           && after == AfterSeeding(head, lib, args) && failure == Some(AdminFailure(args, now))
           && done == [MigrationReport(db, lib)] + SeedReport(head, lib, args))
  {
    hide RunStep, Classify, Migratable, Head, Unfit, MigrationStep, RunSteps, MigrationReport, SeedReport, AdminReport;
    hide Seedable, Administrable, AfterSeeding, Administered, Unfinished, AdminFailure;
    var last := if args.adminEmail != "" then CreateAdmin else SkipAdmin;
    var before := [MigrationStep(Classify(db, lib))] + if args.skipSeed then [] else [Seed];
    assert Steps(Classify(db, lib), args) == before + [last];
    StepsBeforeLast(db, lib, args, now);
    OneMore(db, lib, args, now, before, last);
    LastStep(AfterSeeding(Head(db, lib), lib, args), lib, args, now);
    SeedsKeepUsers(Head(db, lib), lib, args, now);
    if RunSteps(db, lib, args, now, before).2.None? {
      assert RunSteps(db, lib, args, now, before).0 == AfterSeeding(Head(db, lib), lib, args);
      assert RunStep(AfterSeeding(Head(db, lib), lib, args), lib, args, now, last).1.Failure? <==>
        !Administrable(Head(db, lib), args, now);
    }
  }

  lemma SeedsKeepUsers(db: Db, lib: Library, args: Arguments, now: Circumstances)
    ensures Administrable(AfterSeeding(db, lib, args), args, now) <==> Administrable(db, args, now)
    ensures AdminReport(AfterSeeding(db, lib, args), args) == AdminReport(db, args)
  {
  }

  lemma NoSteps(db: Db, lib: Library, args: Arguments, now: Circumstances)
    ensures RunSteps(db, lib, args, now, []) == (db, [], None)
  {
  }

  // ---- the theorem ----------------------------------------------------------------------------

  lemma UnfitAborts(db: Db, lib: Library)
    ensures Unfit(db, lib) <==> Aborts(Classify(db, lib))
  {
  }

  /** Neither seeds nor an administrator change what the doctor looks at. */
  lemma SaneIff(head: Db, lib: Library, args: Arguments)
    ensures AllOk(Doctor(Administered(AfterSeeding(head, lib, args), args), lib)) <==> Sane(head, lib)
  {
    DoctorAllOkIff(Administered(AfterSeeding(head, lib, args), args), lib);
  }

  /** A real run on a fit database succeeds exactly if its migration goes through, leads to a sane schema, no session it
      needs fails, and the administrator asked for is acceptable. It then leaves the schema at head, seeded and
      administered as asked and otherwise as it was, and reports exactly that; it migrates exactly if the schema was not
      at head. */
  lemma SucceedsIff(db: Db, lib: Library, args: Arguments, now: Circumstances)
    requires !args.dryRun && !Unfit(db, lib)
    ensures var (after, outcome) := Bootstrapped(db, lib, args, now);
      var head := Head(db, lib);
      && (outcome.success <==>
           && Migratable(db, lib, now) && Sane(head, lib)
           && Seedable(args, now) && Administrable(head, args, now))
      && (outcome.success ==>
           && after == Administered(AfterSeeding(head, lib, args), args)
           && outcome.executed == [MigrationReport(db, lib)] + SeedReport(head, lib, args) + [AdminReport(head, args)]
           && (outcome.executed[0].migrated <==> !AtHead(db, lib)))
  {
    hide RunSteps, Migratable, Head, Doctor, AllOk, Seedable, Administrable, Steps, Classify, Unfit, Sane, SeedReport,
      AdminReport;
    UnfitAborts(db, lib);
    StepsLead(db, lib, args, now);
    SaneIff(Head(db, lib), lib, args);
    var (after, _, failure) := RunSteps(db, lib, args, now, Steps(Classify(db, lib), args));
    if failure.None? {
      assert after == Administered(AfterSeeding(Head(db, lib), lib, args), args);
    } else {
      assert !(Migratable(db, lib, now) && Seedable(args, now) && Administrable(Head(db, lib), args, now));
    }
  }

  /** A library whose upgrades also leave the core tables. */
  ghost predicate LeavesCore(lib: Library) {
    forall db: Db :: CORE_TABLES <= lib.upgrade(db).tables
  }

  /** With a consistent library whose upgrades leave the core tables, nothing but the circumstances can fail: every
      first boot, every legacy schema and every known revision is brought to a sane head if the commands given return,
        the
      sessions do not fail and the administrator is acceptable. */
  lemma FitDatabasesAreBrought(db: Db, lib: Library, args: Arguments, now: Circumstances)
    requires Consistent(lib) && LeavesCore(lib) && !args.dryRun && !Unfit(db, lib)
    requires AtHead(db, lib) ==> CORE_TABLES <= db.tables
    ensures Bootstrapped(db, lib, args, now).1.success <==>
      Migratable(db, lib, now) && Seedable(args, now) && Administrable(Head(db, lib), args, now)
  {
    hide Bootstrapped, Migratable, Seedable, Administrable;
    SucceedsIff(db, lib, args, now);
    var ready := db.(schemaExists := true);
    var stamped := ready.(tables := db.tables + {VERSION_TABLE}, revision := Some(lib.baseline));
    assert UpgradesToHead(lib, ready) && UpgradesToHead(lib, stamped);
  }
}
