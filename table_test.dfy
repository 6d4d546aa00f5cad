/**
 * `TestCreateTable` as a client of the two packages: provision a database,
 * create the three-column table in it, then run the cleanup `DB`
 * registered, as the test framework does when the test returns. The
 * catalog query that follows `Up` in the test needs a live server and is
 * not part of this model.
 */
module TableTest {
  import opened Wrappers
  import opened Errors
  import opened Sql
  import opened Uuid
  import opened SqlverTest
  import opened Sqlver

  /** The table the test creates. */
  function TestTable(): (r: Table)
    ensures r.name == "name" && |r.columns| == 3
    ensures r.columns[0] == Column("i", "integer") && r.columns[1] == Column("t", "text") && r.columns[2] == Column("b", "boolean")
  {
    Table("name", [Integer("i"), Text("t"), Boolean("b")])
  }

  /** The columns of the table that `TestCreateTable` creates: i as integer, t as text, b as boolean. */
  lemma TestCreateTableColumns()
    ensures Renderings(TestTable().columns) == ["i integer", "t text", "b boolean"]
  {
    var r := Renderings(TestTable().columns);
    assert r[0] == "i integer";
    assert r[1] == "t text";
    assert r[2] == "b boolean";
  }

  /**
   * Whatever the driver does, the test leaves no connection open. When the
   * database was provisioned, a passing run hands the server back exactly
   * as it found it and the test passes; a run whose `Up` failed keeps the
   * database and logs its name. The statements sent are the `CREATE
   * DATABASE` on `postgres`, the table on the new database and, unless the
   * database is kept or no administrative connection comes up, the `DROP
   * DATABASE` on `postgres`.
   */
  method TestCreateTable(t: T, server: Server, d: Provisioning, exec: Option<Error>, o: TeardownOutcomes)
    requires |d.random| == 16
    requires !t.failed && t.cleanups == [] && server.open == {}
    modifies t, server
    ensures server.open == {}
    ensures var stage := StageReached(d, old(server.databases));
      stage != Provisioned ==>
        server.databases == if Created(stage) then old(server.databases) + {ProvisionedName(d)} else old(server.databases)
    ensures StageReached(d, old(server.databases)) == Provisioned ==>
      && (server.databases == old(server.databases) <==>
            exec.None? && o.close.None? && o.adminOpen.None? && o.adminPing.None? && o.drop.None?)
      && (server.databases != old(server.databases) ==> server.databases == old(server.databases) + {ProvisionedName(d)})
      && (t.failed <==> server.databases != old(server.databases))
      && (server.databases == old(server.databases) ==> t.reports == old(t.reports))
      && server.sent == old(server.sent)
                        + [Sent(AdminDatabase, "CREATE DATABASE " + ProvisionedName(d) + ";"),
                           Sent(ProvisionedName(d), CreateTableDDL(TestTable()))]
                        + (if exec.None? && o.close.None? && o.adminOpen.None? && o.adminPing.None?
                           then [Sent(AdminDatabase, "DROP DATABASE " + ProvisionedName(d) + ";")] else [])
      && (exec.Some? ==> t.failed && |t.reports| > 0 && t.reports[|t.reports| - 1] == Logged("Database left intact: " + Quoted(ProvisionedName(d))))
    ensures var stage := StageReached(d, old(server.databases));
      stage != Provisioned ==>
        && t.failed && t.cleanups == []
        && t.reports == old(t.reports) + [Fatal(FatalContext(stage), FatalCause(d, old(server.databases)))]
        && server.sent == old(server.sent)
                          + (if stage == AdminUnavailable || stage == NoIdentifier then []
                             else [Sent(AdminDatabase, "CREATE DATABASE " + ProvisionedName(d) + ";")])
    ensures StageReached(d, old(server.databases)) == Provisioned ==> var name := ProvisionedName(d);
      && |t.cleanups| == 1 && t.cleanups[0].name == name
      && t.reports == old(t.reports)
                      + (if exec.Some? then [Errored("failed to up table: ", exec.value)] else [])
                      + (if exec.Some? || o.close.Some? then
                           (if o.close.Some? then [Errored("Failed to close test DB connection: ", o.close.value)] else [])
                           + [Logged("Database left intact: " + Quoted(name))]
                         else if o.adminOpen.Some? || o.adminPing.Some? then
                           [Fatal("cannot connect to postgres to drop " + Quoted(name) + ": ",
                                  PostgresConnectionError(if o.adminOpen.Some? then o.adminOpen.value else o.adminPing.value))]
                         else if o.drop.Some? then [Fatal("failed to drop test database " + Quoted(name) + ": ", o.drop.value)]
                         else [])
  {
    var db := DB(t, server, d);
    if db == null {
      return;
    }
    ghost var name := ProvisionedName(d);
    ghost var databases := server.databases;
    assert name !in old(server.databases) && databases == old(server.databases) + {name};
    var table := TestTable();
    var err := Up(table, server, db, exec);
    if err.Some? {
      t.Errorf("failed to up table: ", err.value);
    }
    TestDBNameIsNotAdmin(Format(WithVersionAndVariant(d.random)));
    assert server.open - {db} == {};
    RunTeardown(t, server, t.cleanups[0], o);
  }
}
