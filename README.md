# sqlver / sqlvertest in Dafny

This project models the Go repository `sqlver`. The repository has two parts:

- **`table.go`**: a table description (`Table`, `Column`, the `Integer`/`Text`/`Boolean` constructors). `Table.Up` renders it into one `CREATE TABLE` statement and runs that statement on a `*sql.DB`.
- **`sqlvertest/testdb.go`**: `DB(t)` hands each test its own throw-away Postgres database. It connects to the administrative database `postgres`, derives the name `test_<identifier>` from sixteen random bytes, creates the database and opens a connection to it. It then registers a cleanup. When the test ends, the cleanup closes that connection. If the test has failed, the cleanup leaves the database in place and logs its name. Otherwise it reconnects as administrator and drops the database.

Modules, one per concern:

| file | module | models |
|---|---|---|
| `wrappers.dfy` | `Wrappers` | `Option` |
| `errors.dfy` | `Errors` | Go `error` values: driver failures, `%w` wrapping, `PostgresConnectionError`; `Error()`, `errors.Unwrap`, `errors.Is` (errors compared by value) |
| `hex.dfy` | `Hex` | the `%x` verb on byte slices, and its inverse |
| `uuid.dfy` | `Uuid` | `generateUUID` with the random bytes as input; the test database name |
| `sql.dfy` | `Sql` | an abstract `database/sql` + Postgres server: a set of database names, the set of open handles, the statements sent, each with the database of the connection it came on |
| `testdb.dfy` | `SqlverTest` | the parts of `testing.T` used; `connectToPostgres`; `DB`; the cleanup closure |
| `table.dfy` | `Sqlver` | `table.go` |
| `table_test.dfy` | `TableTest` | `TestCreateTable` as a client of both packages, with the cleanup run at the end |

What the driver, the network and `crypto/rand` report are inputs to the model. Each `Option<Error>` outcome feeds one `Open`, `Ping`, `Close`, `Exec` or entropy read, in the order the code makes those calls. Two Postgres refusals are modelled on the server side on top of those outcomes:

- a `CREATE DATABASE` fails when the name exists;
- a `DROP DATABASE` fails when the database is missing or some open connection still uses it.

`t.Fatal`/`t.Fatalf` mark the test failed, and the method then returns straight away. Go's `defer mainDB.Close()` becomes an explicit close on every path out.

Behaviour of the code worth noting:

- The administrative connection is closed when `DB` returns (a `defer`), not before the test database is opened (`sqlvertest/testdb.go:75`).
- A failed close of the test connection during cleanup is reported with `t.Errorf` (`sqlvertest/testdb.go:104-106`). That call marks the test failed, so the database is then kept rather than dropped. `SqlverTest.Keeps` states this.
- The identifier does carry the RFC 4122 version 4 nibble and the RFC 4122 variant bits (sections 4.1.3 and 4.1.1 of RFC 4122). It differs from the string form in section 3 of RFC 4122 only in joining the groups with `_` instead of `-`.
- A database whose creation succeeded but whose connection could not be opened or pinged gets no cleanup. It stays on the server, and the test is failed.

## Model

| member | source | states |
|---|---|---|
| `Errors.Unwrap` | sqlvertest/testdb.go:31-33 | the error directly wrapped: `Err` for a `PostgresConnectionError`, the `%w` operand for a wrapped error, nothing for a plain driver error |
| `Errors.ConnectionErrorWraps` | sqlvertest/testdb.go:31-33 | `errors.Is` sees through a `PostgresConnectionError` to its cause and to everything on the cause's chain |
| `Errors.ConnectionErrorText` | sqlvertest/testdb.go:22-29 | the message starts with a blank line and `Connection to Postgres failed: <cause>`, then the remedy line, then the `createuser` command naming the configured user; it contains the `ALTER USER <user> WITH PASSWORD '<password>' CREATEDB;` command and ends with a newline |
| `Errors.ConnectionErrorMessage` | sqlvertest/testdb.go:22-28 | the buffer filled line by line equals the error's `Error()` text and contains both the wrapped error's text and the user name |
| `Hex.EncodeByte` | sqlvertest/testdb.go:47 | one byte becomes two lower-case hex digits from which the byte is recovered |
| `Hex.Encode` | sqlvertest/testdb.go:47 | `%x` of a slice has two characters per byte, all lower-case hex digits |
| `Hex.DecodeEncode` | sqlvertest/testdb.go:47 | decoding the `%x` text of any byte slice gives the slice back |
| `Hex.EncodeDecode` | sqlvertest/testdb.go:47 | any text that decodes is exactly the `%x` text of what it decodes to |
| `Hex.EncodeInjective` | sqlvertest/testdb.go:47 | two slices print the same exactly when they are equal |
| `Uuid.WithVersionAndVariant` | sqlvertest/testdb.go:42-44 | byte 6 gets high nibble 4 and keeps its low nibble; byte 8 gets top bits `10` and keeps its low six bits; the other fourteen bytes are untouched |
| `Uuid.StampFixedPoints` | sqlvertest/testdb.go:43-44 | stamped bytes are version 4; the bytes left unchanged by stamping are exactly the version-4 ones, so stamping is idempotent |
| `Uuid.Format` | sqlvertest/testdb.go:47 | the identifier is 36 characters long, with `_` at indices 8, 13, 18 and 23 and nowhere else, and a lower-case hex digit everywhere else |
| `Uuid.ParseFormat` | sqlvertest/testdb.go:42-47 | reading the five hex groups of the identifier back gives exactly the sixteen bytes it was formatted from |
| `Uuid.FormatParse` | sqlvertest/testdb.go:47 | any text that parses is exactly the identifier of the bytes it parses to |
| `Uuid.FormatInjective` | sqlvertest/testdb.go:42-47 | two byte strings give the same identifier only when they are equal |
| `Uuid.GenerateUUID` | sqlvertest/testdb.go:35-50 | on a failed read: `""` and the read error wrapped as `failed to generate UUID: %w`; otherwise no error and the identifier formatted from the random bytes with version and variant stamped in |
| `Uuid.TestDBName` | sqlvertest/testdb.go:82 | the database name is `test_` followed by the identifier, and nothing else |
| `Uuid.TestDBNameIsIdentifier` | sqlvertest/testdb.go:78-82 | every generated database name is 41 characters, starts with a letter and contains only `a`-`z`, `0`-`9` and `_` |
| `Uuid.TestDBNameInjective` | sqlvertest/testdb.go:78-82 | two runs get the same database name exactly when their stamped random bytes agree |
| `Uuid.TestDBNameIsNotAdmin` | sqlvertest/testdb.go:82 | no generated name is the administrative database `postgres` |
| `SqlverTest.ConnectToPostgres` | sqlvertest/testdb.go:52-63 | success exactly when open and ping both succeed, with a fresh handle on `postgres`; on open or ping failure a `PostgresConnectionError` wrapping that failure, and no handle left open |
| `SqlverTest.DB` | sqlvertest/testdb.go:68-122 | a connection comes back exactly when every step succeeds; then it is a fresh handle on the generated name, the database was added and one cleanup for that handle and name is registered. On any failure the test is failed with one fatal report, no cleanup is registered and no handle is left open. The server gains the generated name exactly when `CREATE DATABASE` succeeded. `CREATE DATABASE <name>;` is sent on `postgres` exactly when the admin connection and the identifier were obtained, and no other statement is sent |
| `SqlverTest.CreateAndConnect` | sqlvertest/testdb.go:77-102 | the steps of `DB` after the administrative connection, with the same outcome per step, the same reports and the same `CREATE DATABASE <name>;` as the one statement sent |
| `SqlverTest.ConnectToTestDB` | sqlvertest/testdb.go:90-102 | a fresh open handle on the new database exactly when open and ping succeed; a fatal report for the step that failed; a handle whose ping failed is closed first |
| `SqlverTest.FatalCauseWrapsDriverError` | sqlvertest/testdb.go:71-101 | the fatal report of a failed `DB` has the driver's error, and everything that error wraps, on its `errors.Is` chain. The only failure without a driver error is the server refusing an existing name |
| `SqlverTest.RunTeardown` | sqlvertest/testdb.go:103-120 | the test connection is always closed. If the test is failed at that point (including by a failed close), the database stays and `Database left intact: "<name>"` is logged. Otherwise exactly that name is dropped and every other database is unchanged, provided the new admin connection and the drop succeed; if either fails, nothing is dropped and the test is failed with `cannot connect to postgres to drop "<name>": ` and the connection error, or `failed to drop test database "<name>": ` and the driver's error or the server's refusal. A kept database gets no statement at all; otherwise exactly `DROP DATABASE <name>;` is sent on `postgres` once the admin connection is up |
| `Sqlver.Integer` | table.go:41 | keeps the name; the type is `integer`; the column renders as `<name> integer` (table.go:45-47) |
| `Sqlver.Text` | table.go:42 | keeps the name; the type is `text`; the column renders as `<name> text` |
| `Sqlver.Boolean` | table.go:43 | keeps the name; the type is `boolean`; the column renders as `<name> boolean` |
| `Sqlver.ColumnDDL` | table.go:45-47 | a column renders as its name, one space and its type |
| `Sqlver.ColumnDDLInjective` | table.go:45-47 | columns whose names have no spaces render the same exactly when they are the same column |
| `Sqlver.RenderDDL` | table.go:16-28 | the buffer built by the loop, with its first-column flag, is exactly the `CREATE TABLE` statement |
| `Sqlver.ColumnListIsJoin` | table.go:19-27 | the column part is one newline and then the `",\n"`-join of the column renderings, in declaration order |
| `Sqlver.ColumnListCommas` | table.go:19-27 | with names and types free of commas, `n` columns give exactly `n - 1` commas |
| `Sqlver.CreateTableFrame` | table.go:18-28 | the statement is `CREATE TABLE <name> (`, then the column part, then `)` and a newline |
| `Sqlver.EmptyTable` | table.go:17-28 | a table without columns renders as `CREATE TABLE <name> ()` and a newline |
| `Sqlver.Up` | table.go:29-33 | exactly the rendered statement is sent, on the connection's database, and the driver's error is returned unchanged (none when it reports none) |
| `TableTest.TestCreateTableColumns` | table_test.go:15-22 | the test's columns render as `i integer`, `t text`, `b boolean` |
| `TableTest.TestCreateTable` | table_test.go:12-25 | no connection is left open. If provisioning failed, the test is failed with the one fatal report of `DB`, no cleanup is registered, `CREATE DATABASE <name>;` was sent on `postgres` exactly when the admin connection and the identifier were obtained, and the server changed only by a database that was created. If it succeeded, exactly one cleanup, for the generated name, is registered, and the reports are given for every outcome: the `Up` error, then the close error and the `Database left intact` line when the database is kept, or the fatal report of a failed admin connection or drop. If it succeeded, the server ends as it started exactly when `Up` and every cleanup step succeed; otherwise the new database stays. A failed `Up` leaves the test failed with the database's name logged. When provisioning succeeds, the test fails exactly when the database is kept, and a passing run adds no report. The statements sent, in order, are `CREATE DATABASE <name>;` on `postgres`, then the three-column `CREATE TABLE` on the new database, then `DROP DATABASE <name>;` on `postgres`. The drop is left out when the database is kept or no admin connection came up |

## Left out

- `crypto/rand`: the sixteen bytes and the read's failure are inputs. How unlikely a collision between parallel tests is cannot be stated here.
- Connection strings, host, port and `sslmode`: handles only record the database they were opened against.
- The package-level `PostgresUsername`/`PostgresPassword` variables: the credentials are a parameter of the message text.
- `context.Context` in `Up`: it is ignored.
- Concurrency between parallel tests, `t.Parallel` and `t.Helper`: each run is modelled alone.
- Message formatting of `t.Logf`/`t.Errorf`/`t.Fatalf`: reports keep the format's fixed text and the error value. `%q` is modelled as plain double quotes. That is exact for generated names, which need no escaping.
- The catalog query of `TestCreateTable` (table_test.go:26-54): it needs a live server.
- Postgres behaviour beyond the two refusals above: `Ping` does not check that the database exists, and DDL changes no modelled catalog.
- Errors from the deferred `mainDB.Close()` and from `_ = testDB.Close()`: the code discards them, and the model passes no error there.
- Errors.ConnectionErrorText: the `\tsudo -u postgres psql -c "` wrapper around the `ALTER USER` command is not stated; the command itself is.
