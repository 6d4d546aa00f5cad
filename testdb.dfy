/**
 * Package `sqlvertest`: connecting to the administrative database,
 * provisioning a test database and the cleanup that either drops it or
 * leaves it for inspection. The parts of `testing.T` the package uses are
 * the class `T`: its failed flag, the messages it records and the cleanups
 * registered on it. `t.Fatal` marks the test failed and stops it; the
 * methods here return right after calling `Fatalf`, running what Go's
 * `defer` would run on the way out.
 */
module SqlverTest {
  import opened Wrappers
  import opened Errors
  import opened Sql
  import opened Uuid

  /** A message recorded on the test: `t.Logf`, `t.Errorf` or `t.Fatal`/`t.Fatalf` with its error operand. */
  datatype Report =
    | Logged(text: string)
    | Errored(context: string, cause: Error)
    | Fatal(context: string, cause: Error)

  /** The cleanup closure registered by `DB`, with what it captures. */
  datatype Teardown = Teardown(testDB: Handle, name: string)

  class T {
    var failed: bool
    var reports: seq<Report>
    var cleanups: seq<Teardown>

    constructor ()
      ensures !failed && reports == [] && cleanups == []
    {
      failed := false;
      reports := [];
      cleanups := [];
    }

    predicate Failed()
      reads this
    {
      failed
    }

    method Logf(text: string)
      modifies this
      ensures reports == old(reports) + [Logged(text)]
      ensures failed == old(failed) && cleanups == old(cleanups)
    {
      reports := reports + [Logged(text)];
    }

    /** `t.Errorf`: records the message and marks the test failed; the test goes on. */
    method Errorf(context: string, cause: Error)
      modifies this
      ensures reports == old(reports) + [Errored(context, cause)]
      ensures failed && cleanups == old(cleanups)
    {
      reports := reports + [Errored(context, cause)];
      failed := true;
    }

    /** `t.Fatalf`: records the message and marks the test failed; the caller stops. */
    method Fatalf(context: string, cause: Error)
      modifies this
      ensures reports == old(reports) + [Fatal(context, cause)]
      ensures failed && cleanups == old(cleanups)
    {
      reports := reports + [Fatal(context, cause)];
      failed := true;
    }

    method Cleanup(teardown: Teardown)
      modifies this
      ensures cleanups == old(cleanups) + [teardown]
      ensures failed == old(failed) && reports == old(reports)
    {
      cleanups := cleanups + [teardown];
    }
  }

  /**
   * `connectToPostgres`: open the administrative database and ping it.
   * Either failure comes back as a `PostgresConnectionError` wrapping the
   * driver's error, and a handle whose ping failed is closed first, so a
   * failed attempt leaves no handle open.
   */
  method ConnectToPostgres(server: Server, openOutcome: Option<Error>, pingOutcome: Option<Error>)
    returns (db: Handle?, err: Option<Error>)
    modifies server
    ensures err.None? <==> openOutcome.None? && pingOutcome.None?
    ensures openOutcome.Some? ==> err == Some(PostgresConnectionError(openOutcome.value))
    ensures openOutcome.None? && pingOutcome.Some? ==> err == Some(PostgresConnectionError(pingOutcome.value))
    ensures err.Some? ==> db == null && server.open == old(server.open)
    ensures err.None? ==> db != null && fresh(db) && db.database == AdminDatabase
                          && server.open == old(server.open) + {db}
    ensures server.databases == old(server.databases) && server.sent == old(server.sent)
  {
    var h, openErr := server.Open(AdminDatabase, openOutcome);
    if openErr.Some? {
      return null, Some(PostgresConnectionError(openErr.value));
    }
    var pingErr := server.Ping(h, pingOutcome);
    if pingErr.Some? {
      var _ := server.Close(h, None);
      return null, Some(PostgresConnectionError(pingErr.value));
    }
    return h, None;
  }

  /** What the driver and the entropy source report during `DB`, in the order they are asked. */
  datatype Provisioning = Provisioning(
    adminOpen: Option<Error>,
    adminPing: Option<Error>,
    random: seq<bv8>,
    randomErr: Option<Error>,
    create: Option<Error>,
    testOpen: Option<Error>,
    testPing: Option<Error>)

  /** Where `DB` stops. */
  datatype Stage = AdminUnavailable | NoIdentifier | CreateFailed | OpenFailed | PingFailed | Provisioned

  /** The database name `DB` derives from the random bytes. */
  function ProvisionedName(d: Provisioning): string
    requires |d.random| == 16
  {
    TestDBName(Format(WithVersionAndVariant(d.random)))
  }

  /** The first step of `DB` that fails, given the databases the server holds when it starts. */
  function StageReached(d: Provisioning, databases: set<string>): Stage
    requires |d.random| == 16
  {
    if d.adminOpen.Some? || d.adminPing.Some? then AdminUnavailable
    else if d.randomErr.Some? then NoIdentifier
    else if d.create.Some? || ProvisionedName(d) in databases then CreateFailed
    else if d.testOpen.Some? then OpenFailed
    else if d.testPing.Some? then PingFailed
    else Provisioned
  }

  /** The database was created: every stage after a successful `CREATE DATABASE`. */
  predicate Created(stage: Stage) {
    stage == OpenFailed || stage == PingFailed || stage == Provisioned
  }

  /** The message a fatal stage is reported with. */
  function FatalContext(stage: Stage): string {
    match stage
    case AdminUnavailable => ""
    case NoIdentifier => "failed to generate UUID for test database name: "
    case CreateFailed => "failed to create test database: "
    case OpenFailed => "failed to connect to test database: "
    case PingFailed => "failed to ping test database: "
    case Provisioned => ""
  }

  /** The error a failed `DB` reports with `t.Fatal`/`t.Fatalf`. */
  function FatalCause(d: Provisioning, databases: set<string>): Error
    requires |d.random| == 16
    requires StageReached(d, databases) != Provisioned
  {
    match StageReached(d, databases)
    case AdminUnavailable => PostgresConnectionError(if d.adminOpen.Some? then d.adminOpen.value else d.adminPing.value)
    case NoIdentifier => Wrapped("failed to generate UUID: ", d.randomErr.value)
    case CreateFailed =>
      if d.create.Some? then d.create.value
      else Refusal(databases, {}, CreateDatabase(ProvisionedName(d))).value
    case OpenFailed => d.testOpen.value
    case PingFailed => d.testPing.value
  }

  /** The driver error behind a fatal stage, when the driver reported one. */
  function DriverError(d: Provisioning, stage: Stage): Option<Error> {
    match stage
    case AdminUnavailable => if d.adminOpen.Some? then d.adminOpen else d.adminPing
    case NoIdentifier => d.randomErr
    case CreateFailed => d.create
    case OpenFailed => d.testOpen
    case PingFailed => d.testPing
    case Provisioned => None
  }

  /**
   * `DB`: create a fresh database and hand back a connection to it. A
   * failure at any step is fatal and registers no cleanup; a database
   * already created stays on the server in that case. The administrative
   * connection is closed on every path, and a test connection is handed
   * back only together with the one cleanup that owns it.
   */
  method DB(t: T, server: Server, d: Provisioning) returns (db: Handle?)
    requires |d.random| == 16
    modifies t, server
    ensures var stage := StageReached(d, old(server.databases));
      && (db != null <==> stage == Provisioned)
      && server.databases == (if Created(stage) then old(server.databases) + {ProvisionedName(d)} else old(server.databases))
    ensures db != null ==> fresh(db) && db.database == ProvisionedName(d)
                           && server.open == old(server.open) + {db}
                           && t.cleanups == old(t.cleanups) + [Teardown(db, ProvisionedName(d))]
                           && t.failed == old(t.failed) && t.reports == old(t.reports)
    ensures db == null ==> var stage := StageReached(d, old(server.databases));
      && server.open == old(server.open)
      && t.cleanups == old(t.cleanups) && t.failed
      && t.reports == old(t.reports) + [Fatal(FatalContext(stage), FatalCause(d, old(server.databases)))]
    ensures var stage := StageReached(d, old(server.databases));
      server.sent == old(server.sent)
                     + (if stage == AdminUnavailable || stage == NoIdentifier then [] else [Sent(AdminDatabase, "CREATE DATABASE " + ProvisionedName(d) + ";")])
  {
    var mainDB, err := ConnectToPostgres(server, d.adminOpen, d.adminPing);
    if err.Some? {
      t.Fatalf("", err.value);
      return null;
    }
    db := CreateAndConnect(t, server, mainDB, d);
    // defer mainDB.Close()
    var _ := server.Close(mainDB, None);
  }

  /** The body of `DB` once the administrative connection `mainDB` is open, up to its deferred close. */
  method CreateAndConnect(t: T, server: Server, mainDB: Handle, d: Provisioning) returns (db: Handle?)
    requires |d.random| == 16 && d.adminOpen.None? && d.adminPing.None?
    requires mainDB in server.open && mainDB.database == AdminDatabase
    modifies t, server
    ensures var stage := StageReached(d, old(server.databases));
      && (db != null <==> stage == Provisioned)
      && server.databases == (if Created(stage) then old(server.databases) + {ProvisionedName(d)} else old(server.databases))
    ensures db != null ==> fresh(db) && db.database == ProvisionedName(d)
                           && server.open == old(server.open) + {db}
                           && t.cleanups == old(t.cleanups) + [Teardown(db, ProvisionedName(d))]
                           && t.failed == old(t.failed) && t.reports == old(t.reports)
    ensures db == null ==> var stage := StageReached(d, old(server.databases));
      && server.open == old(server.open)
      && t.cleanups == old(t.cleanups) && t.failed
      && t.reports == old(t.reports) + [Fatal(FatalContext(stage), FatalCause(d, old(server.databases)))]
    ensures var stage := StageReached(d, old(server.databases));
      server.sent == old(server.sent)
                     + (if stage == AdminUnavailable || stage == NoIdentifier then [] else [Sent(AdminDatabase, "CREATE DATABASE " + ProvisionedName(d) + ";")])
  {
    var uuid, uuidErr := GenerateUUID(d.random, d.randomErr);
    if uuidErr.Some? {
      t.Fatalf("failed to generate UUID for test database name: ", uuidErr.value);
      return null;
    }
    var testDBName := TestDBName(uuid);
    var createErr := server.Exec(mainDB, CreateDatabase(testDBName), d.create);
    if createErr.Some? {
      t.Fatalf("failed to create test database: ", createErr.value);
      return null;
    }
    db := ConnectToTestDB(t, server, testDBName, d.testOpen, d.testPing);
    if db != null {
      t.Cleanup(Teardown(db, testDBName));
    }
  }

  /** Open and ping the new database; a handle whose ping failed is closed before the fatal report. */
  method ConnectToTestDB(t: T, server: Server, name: string, openOutcome: Option<Error>, pingOutcome: Option<Error>)
    returns (db: Handle?)
    modifies t, server
    ensures db != null <==> openOutcome.None? && pingOutcome.None?
    ensures server.databases == old(server.databases) && server.sent == old(server.sent)
    ensures t.cleanups == old(t.cleanups)
    ensures db != null ==> fresh(db) && db.database == name && server.open == old(server.open) + {db}
                           && t.failed == old(t.failed) && t.reports == old(t.reports)
    ensures openOutcome.Some? ==> t.reports == old(t.reports) + [Fatal("failed to connect to test database: ", openOutcome.value)]
    ensures openOutcome.None? && pingOutcome.Some? ==> t.reports == old(t.reports) + [Fatal("failed to ping test database: ", pingOutcome.value)]
    ensures db == null ==> server.open == old(server.open) && t.failed
  {
    var testDB, openErr := server.Open(name, openOutcome);
    if openErr.Some? {
      t.Fatalf("failed to connect to test database: ", openErr.value);
      return null;
    }
    var pingErr := server.Ping(testDB, pingOutcome);
    if pingErr.Some? {
      var _ := server.Close(testDB, None);
      t.Fatalf("failed to ping test database: ", pingErr.value);
      return null;
    }
    return testDB;
  }

  /**
   * A fatal stage's report carries the driver's error on its chain, when the
   * driver reported one, and with it everything that error wraps.
   */
  lemma FatalCauseWrapsDriverError(d: Provisioning, databases: set<string>)
    requires |d.random| == 16
    requires StageReached(d, databases) != Provisioned
    ensures DriverError(d, StageReached(d, databases)).Some? ==>
              Is(FatalCause(d, databases), DriverError(d, StageReached(d, databases)).value)
    ensures DriverError(d, StageReached(d, databases)).None? <==>
              StageReached(d, databases) == CreateFailed && d.create.None? && ProvisionedName(d) in databases
    ensures DriverError(d, StageReached(d, databases)).Some? ==>
              forall target :: Is(DriverError(d, StageReached(d, databases)).value, target) ==> Is(FatalCause(d, databases), target)
  {
    var driver := DriverError(d, StageReached(d, databases));
    if driver.Some? {
      forall target | Is(driver.value, target)
        ensures Is(FatalCause(d, databases), target)
      {
        IsTransitive(FatalCause(d, databases), driver.value, target);
      }
    }
  }

  /** `%q` of a name made of identifier characters: the name between double quotes. */
  function Quoted(name: string): string {
    "\"" + name + "\""
  }

  /** What the driver reports while the cleanup runs, in the order it is asked. */
  datatype TeardownOutcomes = TeardownOutcomes(
    close: Option<Error>,
    adminOpen: Option<Error>,
    adminPing: Option<Error>,
    drop: Option<Error>)

  /**
   * The cleanup keeps the database when the test has failed by the time it
   * asks: it had failed before, or closing the test connection failed,
   * which `t.Errorf` records as a failure.
   */
  predicate Keeps(failed: bool, o: TeardownOutcomes) {
    failed || o.close.Some?
  }

  /**
   * The cleanup drops the database: it does not keep it, the new
   * administrative connection comes up, and neither the network nor the
   * server refuses the drop. No other connection to the database may be
   * open, and the administrative database cannot drop itself.
   */
  predicate Drops(failed: bool, o: TeardownOutcomes, databases: set<string>, open: set<Handle>, td: Teardown) {
    && !Keeps(failed, o)
    && o.adminOpen.None? && o.adminPing.None? && o.drop.None?
    && td.name in databases && td.name != AdminDatabase
    && !InUse(open - {td.testDB}, td.name)
  }

  /**
   * The error a failed drop reports: the driver's when it gave one,
   * otherwise the server's refusal. The cleanup's own administrative
   * connection is open on `postgres` while it asks, so `postgres` is always
   * in use.
   */
  function DropFailure(o: TeardownOutcomes, databases: set<string>, others: set<Handle>, name: string): (r: Option<Error>)
    ensures r.None? <==> o.drop.None? && name in databases && name != AdminDatabase && !InUse(others, name)
  {
    if o.drop.Some? then o.drop
    else if name !in databases then Some(DoesNotExist(name))
    else if name == AdminDatabase || InUse(others, name) then Some(BeingAccessed(name))
    else None
  }

  lemma InUseWith(open: set<Handle>, h: Handle, name: string)
    ensures InUse(open + {h}, name) <==> InUse(open, name) || h.database == name
  {
  }

  /**
   * The cleanup registered by `DB`. The test connection is closed first;
   * the failed flag is read after that; a failed test leaves the database
   * and a log line naming it; otherwise a fresh administrative connection
   * drops that one database and nothing else.
   */
  method RunTeardown(t: T, server: Server, td: Teardown, o: TeardownOutcomes)
    modifies t, server
    ensures server.open == old(server.open) - {td.testDB}
    ensures Drops(old(t.failed), o, old(server.databases), old(server.open), td) ==>
              server.databases == old(server.databases) - {td.name} && t.reports == old(t.reports) && !t.failed
    ensures !Drops(old(t.failed), o, old(server.databases), old(server.open), td) ==>
              server.databases == old(server.databases) && t.failed
    ensures Keeps(old(t.failed), o) ==>
              t.reports == old(t.reports)
                           + (if o.close.Some? then [Errored("Failed to close test DB connection: ", o.close.value)] else [])
                           + [Logged("Database left intact: " + Quoted(td.name))]
    ensures !Keeps(old(t.failed), o) && (o.adminOpen.Some? || o.adminPing.Some?) ==>
              t.reports == old(t.reports)
                           + [Fatal("cannot connect to postgres to drop " + Quoted(td.name) + ": ",
                                    PostgresConnectionError(if o.adminOpen.Some? then o.adminOpen.value else o.adminPing.value))]
    ensures !Keeps(old(t.failed), o) && o.adminOpen.None? && o.adminPing.None? ==>
              var failure := DropFailure(o, old(server.databases), old(server.open) - {td.testDB}, td.name);
              t.reports == old(t.reports)
                           + (if failure.Some? then [Fatal("failed to drop test database " + Quoted(td.name) + ": ", failure.value)] else [])
    ensures Keeps(old(t.failed), o) || o.adminOpen.Some? || o.adminPing.Some? ==> server.sent == old(server.sent)
    ensures !Keeps(old(t.failed), o) && o.adminOpen.None? && o.adminPing.None? ==>
              server.sent == old(server.sent) + [Sent(AdminDatabase, "DROP DATABASE " + td.name + ";")]
    ensures t.cleanups == old(t.cleanups)
  {
    var closeErr := server.Close(td.testDB, o.close);
    if closeErr.Some? {
      t.Errorf("Failed to close test DB connection: ", closeErr.value);
    }
    if t.Failed() {
      t.Logf("Database left intact: " + Quoted(td.name));
      return;
    }
    ghost var others := server.open;
    var mainDB, err := ConnectToPostgres(server, o.adminOpen, o.adminPing);
    if err.Some? {
      t.Fatalf("cannot connect to postgres to drop " + Quoted(td.name) + ": ", err.value);
      return;
    }
    InUseWith(others, mainDB, td.name);
    var dropErr := server.Exec(mainDB, DropDatabase(td.name), o.drop);
    if dropErr.Some? {
      t.Fatalf("failed to drop test database " + Quoted(td.name) + ": ", dropErr.value);
    }
    // defer mainDB.Close()
    var _ := server.Close(mainDB, None);
  }
}
