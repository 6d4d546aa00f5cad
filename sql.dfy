/**
 * An abstract Postgres server seen through `database/sql` and `lib/pq`.
 * The server is the set of database names it holds; every `*sql.DB` handle
 * is a `Handle` naming the database it was opened against, and the handles
 * not yet closed are the set `open`. What the driver reports for `Open`,
 * `Ping`, `Close` and `Exec` is passed in as an outcome; on top of that the
 * server refuses to create a database that exists and to drop one that is
 * missing or still has an open connection, as Postgres does.
 */
module Sql {
  import opened Wrappers
  import opened Errors

  /** The database that administrative connections open (`dbname=postgres`). */
  const AdminDatabase := "postgres"

  /** A `*sql.DB`: a connection pool bound to one database. */
  class Handle {
    const database: string

    constructor (database: string)
      ensures this.database == database
    {
      this.database := database;
    }
  }

  datatype Statement =
    | CreateDatabase(name: string)
    | DropDatabase(name: string)
    | Ddl(text: string)

  /** The SQL text sent for a statement. */
  function StatementText(stmt: Statement): string {
    match stmt
    case CreateDatabase(name) => "CREATE DATABASE " + name + ";"
    case DropDatabase(name) => "DROP DATABASE " + name + ";"
    case Ddl(text) => text
  }

  /** A statement as it reached the server: the database of the connection it came on, and its text. */
  datatype Sent = Sent(database: string, text: string)

  const ErrClosed := Failure("sql: database is closed")

  /** Some open handle is connected to database `name`. */
  predicate InUse(open: set<Handle>, name: string) {
    exists h :: h in open && h.database == name
  }

  function AlreadyExists(name: string): Error {
    Failure("database \"" + name + "\" already exists")
  }

  function DoesNotExist(name: string): Error {
    Failure("database \"" + name + "\" does not exist")
  }

  function BeingAccessed(name: string): Error {
    Failure("database \"" + name + "\" is being accessed by other users")
  }

  /** The error the server itself raises for a statement, whatever the network did. */
  function Refusal(databases: set<string>, open: set<Handle>, stmt: Statement): (r: Option<Error>)
    ensures r.None? <==> match stmt
      case CreateDatabase(name) => name !in databases
      case DropDatabase(name) => name in databases && !InUse(open, name)
      case Ddl(_) => true
  {
    match stmt
    case CreateDatabase(name) =>
      if name in databases then Some(AlreadyExists(name)) else None
    case DropDatabase(name) =>
      if name !in databases then Some(DoesNotExist(name))
      else if InUse(open, name) then Some(BeingAccessed(name))
      else None
    case Ddl(_) => None
  }

  /** The set of databases after a statement has succeeded. */
  function Effect(databases: set<string>, stmt: Statement): (r: set<string>)
    ensures stmt.CreateDatabase? ==> r == databases + {stmt.name}
    ensures stmt.DropDatabase? ==> r == databases - {stmt.name}
    ensures stmt.Ddl? ==> r == databases
  {
    match stmt
    case CreateDatabase(name) => databases + {name}
    case DropDatabase(name) => databases - {name}
    case Ddl(_) => databases
  }

  class Server {
    var databases: set<string>
    var open: set<Handle>
    /** Every statement that reached the server, in order, with the database it was sent on. */
    var sent: seq<Sent>

    constructor (databases: set<string>)
      ensures this.databases == databases && open == {} && sent == []
    {
      this.databases := databases;
      open := {};
      sent := [];
    }

    /** `sql.Open`: a new handle bound to `database`, or the driver's error. */
    method Open(database: string, outcome: Option<Error>) returns (h: Handle?, err: Option<Error>)
      modifies this
      ensures err == outcome
      ensures outcome.Some? ==> h == null && open == old(open)
      ensures outcome.None? ==> h != null && fresh(h) && h.database == database && open == old(open) + {h}
      ensures databases == old(databases) && sent == old(sent)
    {
      err := outcome;
      if outcome.Some? {
        h := null;
      } else {
        h := new Handle(database);
        open := open + {h};
      }
    }

    /** `DB.Ping`: fails on a closed handle, otherwise reports what the round trip did. */
    method Ping(h: Handle, outcome: Option<Error>) returns (err: Option<Error>)
      ensures h !in open ==> err == Some(ErrClosed)
      ensures h in open ==> err == outcome
    {
      err := if h in open then outcome else Some(ErrClosed);
    }

    /** `DB.Close`: the handle is released whatever error closing its connections reports. */
    method Close(h: Handle, outcome: Option<Error>) returns (err: Option<Error>)
      modifies this
      ensures err == outcome
      ensures open == old(open) - {h}
      ensures databases == old(databases) && sent == old(sent)
    {
      err := outcome;
      open := open - {h};
    }

    /**
     * `DB.Exec`: a closed handle fails without reaching the server; otherwise
     * the text is sent, and the statement takes effect unless the network
     * or the server refuses it.
     */
    method Exec(h: Handle, stmt: Statement, outcome: Option<Error>) returns (err: Option<Error>)
      modifies this
      ensures h !in old(open) ==> err == Some(ErrClosed) && sent == old(sent)
      ensures h in old(open) ==> sent == old(sent) + [Sent(h.database, StatementText(stmt))]
      ensures h in old(open) && outcome.Some? ==> err == outcome
      ensures h in old(open) && outcome.None? ==> err == Refusal(old(databases), old(open), stmt)
      ensures databases == if err.None? then Effect(old(databases), stmt) else old(databases)
      ensures open == old(open)
    {
      if h !in open {
        return Some(ErrClosed);
      }
      sent := sent + [Sent(h.database, StatementText(stmt))];
      err := if outcome.Some? then outcome else Refusal(databases, open, stmt);
      if err.None? {
        databases := Effect(databases, stmt);
      }
    }
  }
}
