/**
 * Package `sqlver`, file `table.go`: a table description rendered into a
 * single `CREATE TABLE` statement and executed on a connection. Names are
 * written as given; nothing is quoted or escaped.
 */
module Sqlver {
  import opened Wrappers
  import opened Errors
  import opened Sql

  datatype Column = Column(name: string, dataType: string)

  datatype Table = Table(name: string, columns: seq<Column>)

  /** The three column types a column can be built with. */
  predicate IsPrimitiveType(dataType: string) {
    dataType == "integer" || dataType == "text" || dataType == "boolean"
  }

  function Integer(name: string): (c: Column)
    ensures c.name == name && c.dataType == "integer" && IsPrimitiveType(c.dataType)
    ensures ColumnDDL(c) == name + " integer"
  {
    Column(name, "integer")
  }

  function Text(name: string): (c: Column)
    ensures c.name == name && c.dataType == "text" && IsPrimitiveType(c.dataType)
    ensures ColumnDDL(c) == name + " text"
  {
    Column(name, "text")
  }

  function Boolean(name: string): (c: Column)
    ensures c.name == name && c.dataType == "boolean" && IsPrimitiveType(c.dataType)
    ensures ColumnDDL(c) == name + " boolean"
  {
    Column(name, "boolean")
  }

  /** `fprintDDL`: the column's name, a space, its type. */
  function ColumnDDL(c: Column): (r: string)
    ensures |r| == |c.name| + 1 + |c.dataType|
    ensures r[..|c.name|] == c.name && r[|c.name|] == ' ' && r[|c.name| + 1..] == c.dataType
  {
    c.name + " " + c.dataType
  }

  /** `s` has no space, so the first space of a column's rendering ends its name. */
  predicate SpaceFree(s: string) {
    forall i :: 0 <= i < |s| ==> s[i] != ' '
  }

  /** Columns whose names have no spaces render alike exactly when they are the same column. */
  lemma ColumnDDLInjective(a: Column, b: Column)
    requires SpaceFree(a.name) && SpaceFree(b.name)
    ensures ColumnDDL(a) == ColumnDDL(b) <==> a == b
  {
    if ColumnDDL(a) == ColumnDDL(b) {
      var r := ColumnDDL(a);
      assert forall i :: 0 <= i < |a.name| ==> r[i] == a.name[i];
      assert forall i :: 0 <= i < |b.name| ==> r[i] == b.name[i];
      assert |a.name| == |b.name|;
      assert a.name == r[..|a.name|] == b.name;
    }
  }

  /**
   * The text between the parentheses: each column on a line of its own,
   * lines after the first ended by a comma on the line before. Defined
   * column by column from the end, as the loop grows it.
   */
  function ColumnList(columns: seq<Column>): string {
    if columns == [] then ""
    else if |columns| == 1 then "\n" + ColumnDDL(columns[0])
    else ColumnList(columns[..|columns| - 1]) + ",\n" + ColumnDDL(columns[|columns| - 1])
  }

  /** The statement `Up` sends. */
  function CreateTableDDL(t: Table): string {
    "CREATE TABLE " + t.name + " (" + ColumnList(t.columns) + ")\n"
  }

  /** `parts` joined with `sep` between neighbours, as `strings.Join` does. */
  function Join(sep: string, parts: seq<string>): string {
    if parts == [] then ""
    else if |parts| == 1 then parts[0]
    else parts[0] + sep + Join(sep, parts[1..])
  }

  /** The rendering of every column, in declaration order. */
  function Renderings(columns: seq<Column>): (r: seq<string>)
    ensures |r| == |columns|
    ensures forall i :: 0 <= i < |columns| ==> r[i] == ColumnDDL(columns[i])
  {
    seq(|columns|, i requires 0 <= i < |columns| => ColumnDDL(columns[i]))
  }

  lemma {:induction false} JoinSnoc(sep: string, parts: seq<string>, last: string)
    requires parts != []
    ensures Join(sep, parts + [last]) == Join(sep, parts) + sep + last
    decreases |parts|
  {
    if |parts| == 1 {
      assert parts + [last] == [parts[0], last];
      assert [parts[0], last][1..] == [last];
    } else {
      assert (parts + [last])[1..] == parts[1..] + [last];
      JoinSnoc(sep, parts[1..], last);
    }
  }

  /**
   * The columns between the parentheses are the `",\n"`-join of the column
   * renderings in declaration order, after one leading newline.
   */
  lemma {:induction false} ColumnListIsJoin(columns: seq<Column>)
    requires columns != []
    ensures ColumnList(columns) == "\n" + Join(",\n", Renderings(columns))
    decreases |columns|
  {
    if |columns| == 1 {
      assert Renderings(columns) == [ColumnDDL(columns[0])];
    } else {
      var front, last := columns[..|columns| - 1], ColumnDDL(columns[|columns| - 1]);
      var joined := Join(",\n", Renderings(front));
      ColumnListIsJoin(front);
      assert Renderings(columns) == Renderings(front) + [last];
      JoinSnoc(",\n", Renderings(front), last);
      calc {
        ColumnList(columns);
        ColumnList(front) + ",\n" + last;
        ("\n" + joined) + ",\n" + last;
        { Associate("\n", joined, ",\n", last); }
        "\n" + (joined + ",\n" + last);
        "\n" + Join(",\n", Renderings(columns));
      }
    }
  }

  lemma Associate(a: string, b: string, c: string, d: string)
    ensures (a + b) + c + d == a + (b + c + d)
  {
  }

  /** How often `c` occurs in `s`. */
  function Count(c: char, s: string): nat {
    if s == [] then 0 else (if s[0] == c then 1 else 0) + Count(c, s[1..])
  }

  lemma {:induction false} CountAppend(c: char, a: string, b: string)
    ensures Count(c, a + b) == Count(c, a) + Count(c, b)
    decreases |a|
  {
    if a == [] {
      assert a + b == b;
    } else {
      assert (a + b)[0] == a[0];
      assert (a + b)[1..] == a[1..] + b;
      CountAppend(c, a[1..], b);
    }
  }

  /** No name or type contains a comma (the code does not check this). */
  predicate CommaFree(columns: seq<Column>) {
    forall i :: 0 <= i < |columns| ==> Count(',', ColumnDDL(columns[i])) == 0
  }

  /** With comma-free names and types, `n` columns put exactly `n - 1` commas in the list. */
  lemma {:induction false} ColumnListCommas(columns: seq<Column>)
    requires columns != [] && CommaFree(columns)
    ensures Count(',', ColumnList(columns)) == |columns| - 1
    decreases |columns|
  {
    var last := ColumnDDL(columns[|columns| - 1]);
    if |columns| == 1 {
      CountAppend(',', "\n", last);
    } else {
      var front := columns[..|columns| - 1];
      ColumnListCommas(front);
      CountAppend(',', ColumnList(front) + ",\n", last);
      CountAppend(',', ColumnList(front), ",\n");
    }
  }

  /** The statement opens with the table name and the parenthesis, closes with `)` and a newline. */
  lemma CreateTableFrame(t: Table)
    ensures var ddl := CreateTableDDL(t);
      && var head := "CREATE TABLE " + t.name + " (";
      && |ddl| == |head| + |ColumnList(t.columns)| + 2
      && ddl[..|head|] == head
      && ddl[|head|..|ddl| - 2] == ColumnList(t.columns)
      && ddl[|ddl| - 2..] == ")\n"
  {
  }

  /** A table without columns renders as an empty parenthesised list. */
  lemma EmptyTable(name: string)
    ensures CreateTableDDL(Table(name, [])) == "CREATE TABLE " + name + " ()\n"
  {
  }

  /** `Up` up to the `ExecContext` call: the statement built in a buffer, column by column. */
  method RenderDDL(t: Table) returns (ddl: string)
    ensures ddl == CreateTableDDL(t)
  {
    ddl := "CREATE TABLE " + t.name + " (";
    var notFirstColumn := false;
    for i := 0 to |t.columns|
      invariant ddl == "CREATE TABLE " + t.name + " (" + ColumnList(t.columns[..i])
      invariant notFirstColumn <==> i > 0
    {
      if notFirstColumn {
        ddl := ddl + ",";
      }
      ddl := ddl + "\n";
      ddl := ddl + ColumnDDL(t.columns[i]);
      notFirstColumn := true;
      assert t.columns[..i + 1][..i] == t.columns[..i];
    }
    assert t.columns[..|t.columns|] == t.columns;
    ddl := ddl + ")\n";
  }

  /** `Table.Up`: sends exactly the rendered statement and returns the driver's error unchanged. */
  method Up(t: Table, server: Server, db: Handle, outcome: Option<Error>) returns (err: Option<Error>)
    modifies server
    ensures db in old(server.open) ==> server.sent == old(server.sent) + [Sent(db.database, CreateTableDDL(t))] && err == outcome
    ensures db !in old(server.open) ==> server.sent == old(server.sent) && err == Some(ErrClosed)
    ensures server.databases == old(server.databases) && server.open == old(server.open)
  {
    var ddl := RenderDDL(t);
    err := server.Exec(db, Ddl(ddl), outcome);
    if err.Some? {
      return err;
    }
    return None;
  }
}
