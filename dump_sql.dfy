// The SQL dump of backend-node/dump-sql.js: every row of every table, in the
// fixed dependency order, becomes one `INSERT ... ON CONFLICT DO NOTHING;`
// line. Reading a table is a parameter that may fail; a failed table is
// reported and skipped.

module DumpSql {
  import opened Common
  import opened Js

  /** The tables, parents before children. */
  const Tables: seq<string> :=
    ["users", "batches", "jobs", "candidates", "analyses", "candidate_pipeline", "communication_log"]

  /** A row as `Object.keys(row)` lists it: column names with their values. */
  type Row = seq<(string, Value)>

  /** `"'" + String(val).replace(/'/g, "''") + "'"`. */
  function Quote(s: string): string
  {
    "'" + ReplaceChar(s, '\'', "''") + "'"
  }

  /** A value as it appears in the `VALUES` list. */
  function RenderValue(v: Value): string
  {
    match v
    case Null => "NULL"
    case Num(n) => NumberToString(n)
    case _ => Quote(ToText(v))
  }

  /** Reads a doubled-quote body back: `''` is one quote, a lone quote is malformed. */
  function Undouble(s: string): (r: Option<string>)
  {
    if s == [] then Some([])
    else if s[0] != '\'' then
      match Undouble(s[1..])
      case None => None
      case Some(rest) => Some([s[0]] + rest)
    else if |s| >= 2 && s[1] == '\'' then
      match Undouble(s[2..])
      case None => None
      case Some(rest) => Some(['\''] + rest)
    else None
  }

  /** Reads a quoted literal back. */
  function Unquote(s: string): (r: Option<string>)
  {
    if |s| >= 2 && s[0] == '\'' && s[|s| - 1] == '\'' then Undouble(s[1..|s| - 1]) else None
  }

  /** Undoubling recovers every text, quotes included. */
  lemma {:induction false} UndoubleRoundTrip(s: string)
    ensures Undouble(ReplaceChar(s, '\'', "''")) == Some(s)
  {
    if s != [] {
      UndoubleRoundTrip(s[1..]);
      var rest := ReplaceChar(s[1..], '\'', "''");
      if s[0] == '\'' {
        assert ReplaceChar(s, '\'', "''") == "''" + rest;
        assert ("''" + rest)[2..] == rest;
      } else {
        assert ReplaceChar(s, '\'', "''") == [s[0]] + rest;
        assert ([s[0]] + rest)[1..] == rest;
      }
      assert [s[0]] + s[1..] == s;
    }
  }

  /** Every text quoted by the dump reads back as itself. */
  lemma QuoteRoundTrip(s: string)
    ensures Unquote(Quote(s)) == Some(s)
  {
    var body := ReplaceChar(s, '\'', "''");
    assert Quote(s)[1..|Quote(s)| - 1] == body;
    UndoubleRoundTrip(s);
  }

  /** Null is `NULL`, a number is written bare, and anything else is a quoted text. */
  lemma RenderedValueShapes(v: Value)
    ensures v == Null <==> RenderValue(v) == "NULL"
    ensures v.Num? ==> RenderValue(v) == NumberToString(v.n)
    ensures !v.Num? && v != Null ==> Unquote(RenderValue(v)) == Some(ToText(v))
  {
    if !v.Num? && v != Null {
      QuoteRoundTrip(ToText(v));
      assert RenderValue(v)[0] == '\'';
    } else if v.Num? {
      assert RenderValue(v)[0] != 'N';
    }
  }

  /** `keys.map(k => `"${k}"`).join(', ')`. */
  function Columns(row: Row): string
  {
    if row == [] then ""
    else "\"" + row[0].0 + "\"" + (if |row| == 1 then "" else ", " + Columns(row[1..]))
  }

  /** The rendered values, in column order, joined with `, `. */
  function Values(row: Row): string
  {
    if row == [] then ""
    else RenderValue(row[0].1) + (if |row| == 1 then "" else ", " + Values(row[1..]))
  }

  const ConflictClause := ") ON CONFLICT DO NOTHING;\n"

  /** The statement for one row. */
  function InsertLine(table: string, row: Row): string
  {
    "INSERT INTO \"" + table + "\" (" + Columns(row) + ") VALUES (" + Values(row) + ConflictClause
  }

  /** Each statement is one line: it ends in the conflict clause and its newline. */
  lemma InsertLineEnds(table: string, row: Row)
    ensures EndsWith(InsertLine(table, row), ConflictClause)
  {
    EndsWithLast("INSERT INTO \"" + table + "\" (" + Columns(row) + ") VALUES (" + Values(row), ConflictClause);
  }

  /** The statement writer of one table. */
  function RowWriter(table: string): Row -> string
  {
    row => InsertLine(table, row)
  }

  /** The statements of some rows, in order. */
  function InsertLines(table: string, rows: seq<Row>): string
  {
    ConcatMap(RowWriter(table), rows)
  }

  /** The section of one table: nothing for an empty table, else a heading and one line per row. */
  function TableSection(table: string, rows: seq<Row>): (s: string)
    ensures rows == [] <==> s == ""
  {
    if |rows| > 0 then "\n-- Data for " + table + "\n" + InsertLines(table, rows) else ""
  }

  /** What one table contributes: its section, or nothing when it cannot be read. */
  function SectionWriter(read: string -> Result<seq<Row>>): string -> string
  {
    table => match read(table) case Ok(rows) => TableSection(table, rows) case Err(_) => ""
  }

  /** The dump's contribution of each table, in the order given. */
  function Sections(tables: seq<string>, read: string -> Result<seq<Row>>): string
  {
    ConcatMap(SectionWriter(read), tables)
  }

  /** The report of one table: its message when it cannot be read. */
  function FailureOf(table: string, read: string -> Result<seq<Row>>): seq<(string, string)>
  {
    match read(table)
    case Ok(_) => []
    case Err(e) => [(table, e)]
  }

  /** The tables whose read failed, with their messages, in order. */
  function Failures(tables: seq<string>, read: string -> Result<seq<Row>>): seq<(string, string)>
  {
    if tables == [] then []
    else Failures(tables[..|tables| - 1], read) + FailureOf(tables[|tables| - 1], read)
  }

  /** The body of the `forEach` over tables: one table's section appended, or its failure reported. */
  method DumpTable(start: string, table: string, read: string -> Result<seq<Row>>)
    returns (sql: string, failure: seq<(string, string)>)
    ensures sql == start + SectionWriter(read)(table)
    ensures failure == FailureOf(table, read)
  {
    sql := start;
    failure := [];
    match read(table) {
      case Err(e) =>
        failure := [(table, e)];
        assert SectionWriter(read)(table) == "";
      case Ok(rows) =>
        assert SectionWriter(read)(table) == TableSection(table, rows);
        if |rows| > 0 {
          var heading := "\n-- Data for " + table + "\n";
          sql := sql + heading;
          sql := AppendAll(sql, RowWriter(table), rows);
          assert sql == start + (heading + InsertLines(table, rows));
        }
    }
  }

  /**
   * The dump: the sections of the tables in dependency order, and the
   * tables that could not be read. A failed table contributes nothing and
   * the tables after it are still dumped.
   */
  method Dump(read: string -> Result<seq<Row>>) returns (sql: string, errors: seq<(string, string)>)
    ensures sql == Sections(Tables, read)
    ensures errors == Failures(Tables, read)
  {
    sql, errors := DumpTables(Tables, read);
  }

  /** The `forEach` over a list of tables. */
  method DumpTables(tables: seq<string>, read: string -> Result<seq<Row>>) returns (sql: string, errors: seq<(string, string)>)
    ensures sql == Sections(tables, read)
    ensures errors == Failures(tables, read)
  {
    sql := "";
    errors := [];
    var t := 0;
    while t < |tables|
      invariant 0 <= t <= |tables|
      invariant sql == Sections(tables[..t], read)
      invariant errors == Failures(tables[..t], read)
    {
      var table := tables[t];
      DumpStep(tables, t, read);
      var failure;
      sql, failure := DumpTable(sql, table, read);
      errors := errors + failure;
      t := t + 1;
    }
    assert tables[..t] == tables;
  }

  /** One more table adds its section and its failure, if any, after the others'. */
  lemma DumpStep(tables: seq<string>, t: nat, read: string -> Result<seq<Row>>)
    requires t < |tables|
    ensures Sections(tables[..t + 1], read) == Sections(tables[..t], read) + SectionWriter(read)(tables[t])
    ensures Failures(tables[..t + 1], read) == Failures(tables[..t], read) + FailureOf(tables[t], read)
  {
    assert tables[..t + 1] == tables[..t] + [tables[t]];
    ConcatMapAppend(SectionWriter(read), tables[..t], [tables[t]]);
    FailuresStep(tables[..t + 1], read);
  }

  lemma FailuresStep(tables: seq<string>, read: string -> Result<seq<Row>>)
    requires tables != []
    ensures Failures(tables, read) == Failures(tables[..|tables| - 1], read) + FailureOf(tables[|tables| - 1], read)
  {
  }

  /**
   * A table that cannot be read leaves the others' sections exactly as they
   * would be: the dump is the sections before it followed by those after it.
   */
  lemma FailedTableSkipped(before: seq<string>, table: string, after: seq<string>, read: string -> Result<seq<Row>>)
    requires read(table).Err?
    ensures Sections(before + [table] + after, read) == Sections(before, read) + Sections(after, read)
  {
    ConcatMapAppend(SectionWriter(read), before + [table], after);
    ConcatMapAppend(SectionWriter(read), before, [table]);
  }

  /** A table with rows gives its heading and then exactly one statement per row, in row order. */
  lemma TableSectionRows(table: string, rows: seq<Row>, row: Row)
    ensures TableSection(table, rows + [row]) == "\n-- Data for " + table + "\n" + InsertLines(table, rows) + InsertLine(table, row)
  {
    ConcatMapAppend(RowWriter(table), rows, [row]);
  }
}
