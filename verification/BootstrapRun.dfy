/** `run_bootstrap`: a plan from the classified state, executed step by step, confirmed by the doctor. */
module BootstrapRun {
  import opened Outcomes
  import opened Text
  import opened Bootstrap

  datatype Action = Migrate | SkipMigrate | Seed | CreateAdmin | SkipAdmin

  datatype Arguments = Arguments(skipSeed: bool, adminEmail: string, adminPassword: string, dryRun: bool)

  /** Everything outside that can make a step fail. */
  datatype Circumstances = Circumstances(
    stamping: nat -> Attempt,
    upgrading: nat -> Attempt,
    seedFails: bool,
    adminFails: bool)

  function MigrationStep(s: State): Action {
    if s == HealthyCurrent then SkipMigrate else Migrate
  }

  /** `_build_bootstrap_plan` for a state that does not abort. */
  function Steps(s: State, args: Arguments): seq<Action> {
    [MigrationStep(s)] + (if args.skipSeed then [] else [Seed]) +
      [if args.adminEmail != "" then CreateAdmin else SkipAdmin]
  }

  /** What a step did: whether it migrated, how many permissions, configurations and users it created. */
  datatype Done = Done(action: Action, migrated: bool, permissions: nat, configs: nat, users: nat)

  function RunStep(db: Db, lib: Library, args: Arguments, now: Circumstances,
                   step: Action): (Db, Result<Done, Failure>) {
    match step
    case Migrate =>
      var (after, r) := Migrated(db, lib, now.stamping, now.upgrading);
      (after, match r case Failure(e) => Result.Failure(e) case Success(_) => Success(Done(step, true, 0, 0, 0)))
    case Seed =>
      if now.seedFails then (db, Result.Failure(SessionFailed))
      else
        (WithSeeds(db, lib.catalog),
         Success(Done(step, false, |NamesOf(lib.catalog) - db.permissions|, if db.configured then 0 else 1, 0)))
    case CreateAdmin =>
      if args.adminPassword == "" then (db, Result.Failure(PasswordMissing))
      else
        var (after, r) := WithAdmin(db, args.adminEmail, args.adminPassword, now.adminFails);
        (after,
         match r
         case Failure(e) => Result.Failure(e)
         case Success(created) => Success(Done(step, false, 0, 0, if created then 1 else 0)))
    case _ => (db, Success(Done(step, false, 0, 0, 0)))
  }

  /** The steps in order until one fails. */
  function RunSteps(db: Db, lib: Library, args: Arguments, now: Circumstances,
                    steps: seq<Action>): (Db, seq<Done>, Option<Failure>) {
    if steps == [] then (db, [], None)
    else
      var (before, done, failure) := RunSteps(db, lib, args, now, steps[..|steps| - 1]);
      if failure.Some? then (before, done, failure)
      else
        var (after, r) := RunStep(before, lib, args, now, steps[|steps| - 1]);
        match r
        case Failure(e) => (after, done, Some(e))
        case Success(d) => (after, done + [d], None)
  }

  datatype Outcome = Outcome(state: State, success: bool, executed: seq<Done>, checks: seq<Check>,
                             failure: Option<Failure>)

  function Bootstrapped(db: Db, lib: Library, args: Arguments, now: Circumstances): (Db, Outcome) {
    var s := Classify(db, lib);
    if Aborts(s) then (db, Outcome(s, false, [], [], None))
    else if args.dryRun then (db, Outcome(s, true, [], [], None))
    else
      var (after, done, failure) := RunSteps(db, lib, args, now, Steps(s, args));
      if failure.Some? then (after, Outcome(s, false, done, [], failure))
      else (after, Outcome(s, AllOk(Doctor(after, lib)), done, Doctor(after, lib), None))
  }

  // ---- the loop of the source -----------------------------------------------------------------

  lemma {:induction false} StepsFailLater(db: Db, lib: Library, args: Arguments, now: Circumstances,
                                          steps: seq<Action>, i: nat)
    requires i <= |steps| && RunSteps(db, lib, args, now, steps[..i]).2.Some?
    ensures RunSteps(db, lib, args, now, steps) == RunSteps(db, lib, args, now, steps[..i])
    decreases |steps| - i
  {
    if i < |steps| {
      assert steps[..i + 1][..i] == steps[..i];
      StepsFailLater(db, lib, args, now, steps, i + 1);
    } else {
      assert steps[..i] == steps;
    }
  }

  method Perform(database: Database, lib: Library, args: Arguments, now: Circumstances, step: Action)
    returns (r: Result<Done, Failure>)
    modifies database
    ensures (database.state, r) == RunStep(old(database.state), lib, args, now, step)
  {
    match step
    case Migrate =>
      var migrated := database.RunMigrations(lib, now.stamping, now.upgrading);
      r := match migrated case Failure(e) => Result.Failure(e) case Success(_) => Success(Done(step, true, 0, 0, 0));
    case Seed =>
      var seeded := database.SeedSystemRecords(lib.catalog, now.seedFails);
      r := match seeded
        case Failure(e) => Result.Failure(SessionFailed)
        case Success(s) => Success(Done(step, false, s.created, if s.configSeeded then 1 else 0, 0));
    case CreateAdmin =>
      if args.adminPassword == "" {
        return Result.Failure(PasswordMissing);
      }
      var admin := database.BootstrapSuperuser(args.adminEmail, args.adminPassword, now.adminFails);
      r := match admin
        case Failure(e) => Result.Failure(e)
        case Success(created) => Success(Done(step, false, 0, 0, if created then 1 else 0));
    case _ => r := Success(Done(step, false, 0, 0, 0));
  }

  method RunBootstrap(database: Database, lib: Library, args: Arguments, now: Circumstances) returns (outcome: Outcome)
    modifies database
    ensures (database.state, outcome) == Bootstrapped(old(database.state), lib, args, now)
  {
    hide RunStep, Classify, Doctor, AllOk, Aborts;
    var s := Classify(database.state, lib);
    if Aborts(s) {
      return Outcome(s, false, [], [], None);
    }
    if args.dryRun {
      return Outcome(s, true, [], [], None);
    }
    var steps := Steps(s, args);
    var executed: seq<Done> := [];
    for i := 0 to |steps|
      invariant RunSteps(old(database.state), lib, args, now, steps[..i]) == (database.state, executed, None)
    {
      assert steps[..i + 1][..i] == steps[..i];
      var r := Perform(database, lib, args, now, steps[i]);
      if r.Failure? {
        StepsFailLater(old(database.state), lib, args, now, steps, i + 1);
        return Outcome(s, false, executed, [], Some(r.error));
      }
      executed := executed + [r.value];
    }
    assert steps[..|steps|] == steps;
    var checks := RunDoctor(database.state, lib);
    return Outcome(s, AllOk(checks), executed, checks, None);
  }

  // ---- what bootstrap promises ----------------------------------------------------------------

  /** An aborted or dry run changes nothing. */
  lemma AbortedOrDryChangesNothing(db: Db, lib: Library, args: Arguments, now: Circumstances)
    requires Aborts(Classify(db, lib)) || args.dryRun
    ensures Bootstrapped(db, lib, args, now).0 == db && Bootstrapped(db, lib, args, now).1.executed == []
    ensures Bootstrapped(db, lib, args, now).1.success <==> !Aborts(Classify(db, lib))
  {
  }

  /** A real run that reports success leaves a healthy, current schema with all core tables. */
  lemma SuccessIsHealthy(db: Db, lib: Library, args: Arguments, now: Circumstances)
    requires !args.dryRun && Bootstrapped(db, lib, args, now).1.success
    ensures var after := Bootstrapped(db, lib, args, now).0;
      Classify(after, lib) == HealthyCurrent && CORE_TABLES <= after.tables
  {
    DoctorAllOkIff(Bootstrapped(db, lib, args, now).0, lib);
  }

  /** The steps of a run one by one. */
  lemma UnrolledSteps(db: Db, lib: Library, args: Arguments, now: Circumstances, steps: seq<Action>)
    requires 1 <= |steps| && RunSteps(db, lib, args, now, steps).2.None?
    ensures var n := |steps| - 1;
      var (before, done, failure) := RunSteps(db, lib, args, now, steps[..n]);
      && failure.None? && RunStep(before, lib, args, now, steps[n]).1.Success?
      && RunSteps(db, lib, args, now, steps) ==
           (RunStep(before, lib, args, now, steps[n]).0, done +
             [RunStep(before, lib, args, now, steps[n]).1.value], None)
  {
  }

  /** What later runs need to find: seeds unless skipped, the administrator if asked for. */
  ghost predicate Settled(db: Db, lib: Library, args: Arguments) {
    && Classify(db, lib) == HealthyCurrent
    && (!args.skipSeed ==> NamesOf(lib.catalog) <= db.permissions && db.configured)
    && (args.adminEmail != "" ==>
      args.adminPassword != "" && Fold(Trimmed(args.adminEmail)) in db.users && Fold(Trimmed(args.adminEmail)) != "")
  }

  lemma AdminOnlyAddsUser(db: Db, email: string, password: string, fails: bool)
    ensures var (after, r) := WithAdmin(db, email, password, fails);
      && after.permissions == db.permissions && after.configured == db.configured
      && (r.Success? ==> Fold(Trimmed(email)) in after.users && Fold(Trimmed(email)) != "")
  {
  }

  lemma LastStepSettles(db: Db, lib: Library, args: Arguments, now: Circumstances)
    requires RunStep(db, lib, args, now, if args.adminEmail != "" then CreateAdmin else SkipAdmin).1.Success?
    ensures var after := RunStep(db, lib, args, now, if args.adminEmail != "" then CreateAdmin else SkipAdmin).0;
      && after.permissions == db.permissions && after.configured == db.configured
      && (args.adminEmail != "" ==>
        args.adminPassword != "" && Fold(Trimmed(args.adminEmail)) in after.users &&
          Fold(Trimmed(args.adminEmail)) != "")
  {
    AdminOnlyAddsUser(db, args.adminEmail, args.adminPassword, now.adminFails);
  }

  /** A real run that reports success settles everything its arguments ask for. */
  lemma SuccessSettles(db: Db, lib: Library, args: Arguments, now: Circumstances)
    requires !args.dryRun && Bootstrapped(db, lib, args, now).1.success
    ensures Settled(Bootstrapped(db, lib, args, now).0, lib, args)
  {
    hide Doctor, WithAdmin, Migrated, AllOk, Classify, WithSeeds, Fold, Trimmed;
    SuccessIsHealthy(db, lib, args, now);
    var steps := Steps(Classify(db, lib), args);
    var n := |steps| - 1;
    UnrolledSteps(db, lib, args, now, steps);
    LastStepSettles(RunSteps(db, lib, args, now, steps[..n]).0, lib, args, now);
    if !args.skipSeed {
      UnrolledSteps(db, lib, args, now, steps[..n]);
      assert steps[..n][|steps[..n]| - 1] == Seed;
      SeedSettles(RunSteps(db, lib, args, now, steps[..n][..n - 1]).0, lib, args, now);
    }
  }

  lemma SeedSettles(db: Db, lib: Library, args: Arguments, now: Circumstances)
    requires RunStep(db, lib, args, now, Seed).1.Success?
    ensures var after := RunStep(db, lib, args, now, Seed).0;
      NamesOf(lib.catalog) <= after.permissions && after.configured
  {
  }

  /** On a settled database no step changes anything or creates anything, in whatever circumstances. */
  lemma SettledStep(db: Db, lib: Library, args: Arguments, now: Circumstances, step: Action)
    requires Settled(db, lib, args) && step in Steps(HealthyCurrent, args)
    ensures var (after, r) := RunStep(db, lib, args, now, step);
      after == db && (r.Success? ==> r.value == Done(step, false, 0, 0, 0))
  {
    if step == Seed {
      assert NamesOf(lib.catalog) - db.permissions == {};
      assert WithSeeds(db, lib.catalog) == db;
    }
  }

  ghost predicate CreatesNothing(d: Done) {
    !d.migrated && d.permissions == 0 && d.configs == 0 && d.users == 0
  }

  lemma {:induction false} SettledSteps(db: Db, lib: Library, args: Arguments, now: Circumstances, steps: seq<Action>)
    requires Settled(db, lib, args) && forall s | s in steps :: s in Steps(HealthyCurrent, args)
    ensures RunSteps(db, lib, args, now, steps).0 == db
    ensures forall d | d in RunSteps(db, lib, args, now, steps).1 :: CreatesNothing(d)
    ensures !now.seedFails && !now.adminFails ==> RunSteps(db, lib, args, now, steps).2.None?
  {
    hide Settled, RunStep, Steps;
    if steps != [] {
      var n := |steps| - 1;
      assert steps[n] in steps;
      SettledSteps(db, lib, args, now, steps[..n]);
      SettledStep(db, lib, args, now, steps[n]);
      SettledStepSucceeds(db, lib, args, now, steps[n]);
    }
  }

  lemma SettledStepSucceeds(db: Db, lib: Library, args: Arguments, now: Circumstances, step: Action)
    requires Settled(db, lib, args) && step in Steps(HealthyCurrent, args)
    ensures !now.seedFails && !now.adminFails ==> RunStep(db, lib, args, now, step).1.Success?
  {
  }

  /** Bootstrap is idempotent: after a success, a second run with the same arguments migrates nothing, creates nothing
      and leaves the database as it is, whatever else happens; and it succeeds unless a session fails. */
  lemma SecondRunChangesNothing(db: Db, lib: Library, args: Arguments, now: Circumstances, later: Circumstances)
    requires !args.dryRun && Bootstrapped(db, lib, args, now).1.success
    ensures var after := Bootstrapped(db, lib, args, now).0;
      && Bootstrapped(after, lib, args, later).0 == after
      && (forall d | d in Bootstrapped(after, lib, args, later).1.executed :: CreatesNothing(d))
      && (!later.seedFails && !later.adminFails ==> Bootstrapped(after, lib, args, later).1.success)
  {
    hide Doctor, WithAdmin, Migrated, AllOk, Settled, RunStep, Steps, RunSteps;
    var after := Bootstrapped(db, lib, args, now).0;
    SuccessIsHealthy(db, lib, args, now);
    SuccessSettles(db, lib, args, now);
    DoctorAllOkIff(after, lib);
    SettledSteps(after, lib, args, later, Steps(HealthyCurrent, args));
  }

  // ---- interrupted runs -----------------------------------------------------------------------

  lemma CommandKeepsGoing(db: Db, lib: Library, body: Db -> Db, attempts: nat -> Attempt)
    requires !Aborts(Classify(db, lib))
    requires forall ready: Db | ready in {db, db.(schemaExists := true)} :: !Aborts(Classify(body(ready), lib))
    ensures !Aborts(Classify(RunCommand(db, body, true, attempts, RETRIES).0, lib))
    ensures RunCommand(db, body, true, attempts, RETRIES).1.Success? ==>
      RunCommand(db, body, true, attempts, RETRIES).0 in {body(db), body(db.(schemaExists := true))}
  {
  }

  lemma StampKeepsGoing(db: Db, lib: Library)
    requires Consistent(lib) && !Aborts(Classify(db, lib))
    ensures !Aborts(Classify(Stamp(lib)(db), lib))
  {
  }

  lemma UpgradeKeepsGoing(db: Db, lib: Library)
    requires Consistent(lib) && !Aborts(Classify(db, lib))
    ensures !Aborts(Classify(lib.upgrade(db), lib))
  {
    assert UpgradesToHead(lib, db);
  }

  lemma SchemaKeepsGoing(db: Db, lib: Library)
    requires !Aborts(Classify(db, lib))
    ensures !Aborts(Classify(db.(schemaExists := true), lib))
  {
  }

  lemma MigrationKeepsGoing(db: Db, lib: Library, stamping: nat -> Attempt, upgrading: nat -> Attempt)
    requires Consistent(lib) && !Aborts(Classify(db, lib))
    ensures !Aborts(Classify(Migrated(db, lib, stamping, upgrading).0, lib))
  {
    hide RunCommand, Classify, Aborts, Stamp, Consistent;
    SchemaKeepsGoing(db, lib);
    StampKeepsGoing(db, lib);
    StampKeepsGoing(db.(schemaExists := true), lib);
    CommandKeepsGoing(db, lib, Stamp(lib), stamping);
    var adopted := Adopted(db, lib, stamping).0;
    SchemaKeepsGoing(adopted, lib);
    UpgradeKeepsGoing(adopted, lib);
    UpgradeKeepsGoing(adopted.(schemaExists := true), lib);
    CommandKeepsGoing(adopted, lib, lib.upgrade, upgrading);
  }

  lemma StepKeepsGoing(db: Db, lib: Library, args: Arguments, now: Circumstances, step: Action)
    requires Consistent(lib) && !Aborts(Classify(db, lib))
    ensures !Aborts(Classify(RunStep(db, lib, args, now, step).0, lib))
  {
    hide Migrated, Aborts, Consistent;
    MigrationKeepsGoing(db, lib, now.stamping, now.upgrading);
  }

  lemma {:induction false} StepsKeepGoing(db: Db, lib: Library, args: Arguments, now: Circumstances, steps: seq<Action>)
    requires Consistent(lib) && !Aborts(Classify(db, lib))
    ensures !Aborts(Classify(RunSteps(db, lib, args, now, steps).0, lib))
  {
    hide Classify, Aborts, Consistent, RunStep;
    if steps != [] {
      StepsKeepGoing(db, lib, args, now, steps[..|steps| - 1]);
      StepKeepsGoing(RunSteps(db, lib, args, now, steps[..|steps| - 1]).0, lib, args, now, steps[|steps| - 1]);
    }
  }

  /** However a run that was allowed to start ends, even between stamping and upgrading, bootstrap may be run again: the
      schema is never left in a state that it refuses. */
  lemma InterruptedRunCanBeRepeated(db: Db, lib: Library, args: Arguments, now: Circumstances)
    requires Consistent(lib) && !Aborts(Classify(db, lib))
    ensures !Aborts(Classify(Bootstrapped(db, lib, args, now).0, lib))
  {
    hide Classify, Aborts, Consistent, RunSteps, Doctor, AllOk;
    StepsKeepGoing(db, lib, args, now, Steps(Classify(db, lib), args));
  }
}
