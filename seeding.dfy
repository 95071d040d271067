/** The database seeder: every table is filled from its CSV file with one
    parameterised INSERT per row; a row the database refuses is reported as an
    ERROR system log and the remaining rows are still inserted; one commit
    ends the run. */
module Seeding {
  import opened Text
  import opened Js

  /** A row as `csv.DictReader` yields it: header to cell text; a column the
      row lacks is absent. */
  type CsvRow = map<string, string>

  /** A bind parameter: the cell text, or `None`. */
  type Param = Option<string>

  /** What opening and reading a seed file gives. */
  datatype CsvFile = Missing | Unreadable | Rows(rows: seq<CsvRow>)

  /** `":" + str(i + 1)` for each column, in column order. */
  function Markers(n: nat): (ms: seq<string>)
    ensures |ms| == n
    ensures forall i :: 0 <= i < n ==> ms[i] == ":" + NatToString(i + 1)
  {
    seq(n, i requires 0 <= i < n => ":" + NatToString(i + 1))
  }

  /** `", ".join([f":{i+1}" for i in range(len(columns))])`. */
  function Placeholders(n: nat): (p: string)
    ensures Count(p, ':') == n
  {
    PlaceholderCount(n);
    Join(", ", Markers(n))
  }

  /** The `i`-th marker names bind parameter `i + 1`. */
  lemma MarkersNumbered(n: nat)
    ensures forall i :: 0 <= i < n ==> Markers(n)[i][0] == ':'
    ensures forall i :: 0 <= i < n ==> DigitsValue(Markers(n)[i][1..]) == i + 1
  {
    forall i | 0 <= i < n ensures DigitsValue(Markers(n)[i][1..]) == i + 1 {
      assert Markers(n)[i][1..] == NatToString(i + 1);
      DigitsValueOfNatToString(i + 1);
    }
  }

  /** The number of `c` characters in `s`. */
  function Count(s: string, c: char): nat {
    multiset(s)[c]
  }

  /** Joining with a separator free of `c` adds up the counts of the items,
      stated for items that each hold `c` once or not at all. */
  lemma {:induction false} JoinCount(items: seq<string>, sep: string, c: char, one: bool)
    requires Count(sep, c) == 0 && forall i :: 0 <= i < |items| ==> Count(items[i], c) == (if one then 1 else 0)
    ensures Count(Join(sep, items), c) == (if one then |items| else 0)
    decreases |items|
  {
    if |items| > 1 {
      JoinCount(items[1..], sep, c, one);
      var rest := Join(sep, items[1..]);
      assert Join(sep, items) == items[0] + sep + rest;
      assert multiset(items[0] + sep + rest) == multiset(items[0]) + multiset(sep) + multiset(rest);
    }
  }

  /** The placeholder text carries exactly one marker (`:`) per column. */
  lemma PlaceholderCount(n: nat)
    ensures Count(Join(", ", Markers(n)), ':') == n
  {
    var ms := Markers(n);
    forall i | 0 <= i < n ensures Count(ms[i], ':') == 1 {
      var d := NatToString(i + 1);
      assert ':' !in d;
      assert ms[i] == ":" + d;
    }
    assert ':' !in ", ";
    JoinCount(ms, ", ", ':', true);
  }

  /** `f"INSERT INTO {table_name} ({', '.join(columns)}) VALUES ({placeholders})"`. */
  function InsertSql(table: string, columns: seq<string>): string {
    "INSERT INTO " + table + " (" + Join(", ", columns) + ") VALUES (" + Placeholders(|columns|) + ")"
  }

  /** With names free of `:`, the statement has one bind marker per column. */
  lemma InsertSqlMarkers(table: string, columns: seq<string>)
    requires Count(table, ':') == 0 && forall i :: 0 <= i < |columns| ==> Count(columns[i], ':') == 0
    ensures Count(InsertSql(table, columns), ':') == |columns|
  {
    assert ':' !in ", ";
    JoinCount(columns, ", ", ':', false);
    SqlShapeCount(table, Join(", ", columns), Placeholders(|columns|));
  }

  /** The fixed text of the statement holds no marker of its own. */
  lemma SqlShapeCount(table: string, cols: string, p: string)
    ensures Count("INSERT INTO " + table + " (" + cols + ") VALUES (" + p + ")", ':')
            == Count(table, ':') + Count(cols, ':') + Count(p, ':')
  {
    SqlFixedText();
    GapsCount("INSERT INTO ", table, " (", cols, ") VALUES (", p, ")");
  }

  /** The literal parts of the statement. */
  lemma SqlFixedText()
    ensures ':' !in "INSERT INTO " && ':' !in " (" && ':' !in ") VALUES (" && ':' !in ")"
  {
  }

  /** Text interleaving four pieces free of `:` with three others has the
      markers of those three. */
  lemma GapsCount(l1: string, a: string, l2: string, b: string, l3: string, c: string, l4: string)
    requires ':' !in l1 && ':' !in l2 && ':' !in l3 && ':' !in l4
    ensures Count(l1 + a + l2 + b + l3 + c + l4, ':') == Count(a, ':') + Count(b, ':') + Count(c, ':')
  {
    AbsentCount(l1);
    AbsentCount(l2);
    AbsentCount(l3);
    AbsentCount(l4);
    CountAppend(l1, a);
    CountAppend(l1 + a, l2);
    CountAppend(l1 + a + l2, b);
    CountAppend(l1 + a + l2 + b, l3);
    CountAppend(l1 + a + l2 + b + l3, c);
    CountAppend(l1 + a + l2 + b + l3 + c, l4);
  }

  /** Counts add up over a concatenation. */
  lemma CountAppend(a: string, b: string)
    ensures Count(a + b, ':') == Count(a, ':') + Count(b, ':')
  {
    assert multiset(a + b) == multiset(a) + multiset(b);
  }

  /** A text without `:` counts none. */
  lemma {:induction false} AbsentCount(lit: string)
    requires ':' !in lit
    ensures Count(lit, ':') == 0
  {
    if lit != [] {
      assert lit == [lit[0]] + lit[1..];
      AbsentCount(lit[1..]);
      CountAppend([lit[0]], lit[1..]);
    }
  }

  /** `tuple(row.get(col, None) if row.get(col, None) != '' else None for col in columns)`. */
  function ProjectRow(row: CsvRow, columns: seq<string>): (p: seq<Param>)
    ensures |p| == |columns|
    ensures forall i :: 0 <= i < |columns| ==> (p[i] == None <==> columns[i] !in row || row[columns[i]] == "")
    ensures forall i :: 0 <= i < |columns| && p[i].Some? ==> p[i].value == row[columns[i]]
  {
    seq(|columns|, i requires 0 <= i < |columns| =>
      if columns[i] in row && row[columns[i]] != "" then Some(row[columns[i]]) else None)
  }

  function Projected(rows: seq<CsvRow>, columns: seq<string>): (ps: seq<seq<Param>>)
    ensures |ps| == |rows|
    ensures forall i :: 0 <= i < |rows| ==> ps[i] == ProjectRow(rows[i], columns)
  {
    seq(|rows|, i requires 0 <= i < |rows| => ProjectRow(rows[i], columns))
  }

  /** What `log_system_event` records. */
  datatype Event = RowInsertFailed(table: string, row: seq<Param>) | FileNotFound(file: string) | UnexpectedError(table: string)

  /** One `cursor.execute`: a row insert, or a system-log insert with its level. */
  datatype Exec = Insert(table: string, sql: string, row: seq<Param>) | Log(event: Event, level: string)

  /** The executes of one row: its insert, then an ERROR log when the
      database refuses it. */
  function RowExecs(table: string, sql: string, row: seq<Param>, refused: bool): seq<Exec> {
    [Insert(table, sql, row)] + (if refused then [Log(RowInsertFailed(table, row), "ERROR")] else [])
  }

  /** The executes of the insert loop; `fails(i)` says whether the database
      refuses the `i`-th row. */
  function RowsTrace(table: string, sql: string, rows: seq<seq<Param>>, fails: nat -> bool): seq<Exec> {
    if rows == [] then []
    else
      var n := |rows| - 1;
      RowsTrace(table, sql, rows[..n], fails) + RowExecs(table, sql, rows[n], fails(n))
  }

  /** One more row appends its insert and, when it is refused, its ERROR log. */
  lemma RowsTraceStep(start: seq<Exec>, table: string, sql: string, rows: seq<seq<Param>>, i: nat, fails: nat -> bool)
    requires i < |rows|
    ensures var inserted := start + RowsTrace(table, sql, rows[..i], fails) + [Insert(table, sql, rows[i])];
      start + RowsTrace(table, sql, rows[..i + 1], fails)
      == if fails(i) then inserted + [Log(RowInsertFailed(table, rows[i]), "ERROR")] else inserted
  {
    assert rows[..i + 1][..i] == rows[..i];
  }

  /** The executes of one `insert_data_from_csv` call. */
  function CsvTrace(table: string, columns: seq<string>, fileName: string, file: CsvFile, fails: nat -> bool): seq<Exec> {
    match file
    case Missing => [Log(FileNotFound(fileName), "ERROR")]
    case Unreadable => [Log(UnexpectedError(table), "ERROR")]
    case Rows(rs) => RowsTrace(table, InsertSql(table, columns), Projected(rs, columns), fails)
  }

  /** The row inserts of a trace, in order. */
  function Inserts(trace: seq<Exec>): seq<Exec> {
    if trace == [] then []
    else Inserts(trace[..|trace| - 1]) + (if trace[|trace| - 1].Insert? then [trace[|trace| - 1]] else [])
  }

  /** The system-log events of a trace, in order. */
  function Events(trace: seq<Exec>): seq<Exec> {
    if trace == [] then []
    else Events(trace[..|trace| - 1]) + (if trace[|trace| - 1].Log? then [trace[|trace| - 1]] else [])
  }

  lemma {:induction false} InsertsAppend(a: seq<Exec>, b: seq<Exec>)
    ensures Inserts(a + b) == Inserts(a) + Inserts(b)
    ensures Events(a + b) == Events(a) + Events(b)
    decreases |b|
  {
    if b == [] {
      assert a + b == a;
    } else {
      var n := |b| - 1;
      assert (a + b)[..|a + b| - 1] == a + b[..n];
      InsertsAppend(a, b[..n]);
    }
  }

  /** One row contributes its insert, and its ERROR log exactly when refused. */
  lemma RowExecsSplit(table: string, sql: string, row: seq<Param>, refused: bool)
    ensures Inserts(RowExecs(table, sql, row, refused)) == [Insert(table, sql, row)]
    ensures Events(RowExecs(table, sql, row, refused)) == if refused then [Log(RowInsertFailed(table, row), "ERROR")] else []
  {
    var x := [Insert(table, sql, row)];
    var y: seq<Exec> := if refused then [Log(RowInsertFailed(table, row), "ERROR")] else [];
    InsertsAppend(x, y);
    assert x[..0] == [];
    if refused {
      assert y[..0] == [];
    }
  }

  /** The inserts of `rows`, one per row in order. */
  function RowInserts(table: string, sql: string, rows: seq<seq<Param>>): (ins: seq<Exec>)
    ensures |ins| == |rows|
    ensures forall i :: 0 <= i < |rows| ==> ins[i] == Insert(table, sql, rows[i])
  {
    seq(|rows|, i requires 0 <= i < |rows| => Insert(table, sql, rows[i]))
  }

  /** Every row is attempted, in file order, whatever the database refuses. */
  lemma {:induction false} EveryRowAttempted(table: string, sql: string, rows: seq<seq<Param>>, fails: nat -> bool)
    ensures Inserts(RowsTrace(table, sql, rows, fails)) == RowInserts(table, sql, rows)
  {
    if rows != [] {
      var n := |rows| - 1;
      EveryRowAttempted(table, sql, rows[..n], fails);
      InsertsAppend(RowsTrace(table, sql, rows[..n], fails), RowExecs(table, sql, rows[n], fails(n)));
      RowExecsSplit(table, sql, rows[n], fails(n));
      RowInsertsStep(table, sql, rows);
    }
  }

  lemma RowInsertsStep(table: string, sql: string, rows: seq<seq<Param>>)
    requires rows != []
    ensures RowInserts(table, sql, rows) == RowInserts(table, sql, rows[..|rows| - 1]) + [Insert(table, sql, rows[|rows| - 1])]
  {
    var n := |rows| - 1;
    var lhs := RowInserts(table, sql, rows);
    var rhs := RowInserts(table, sql, rows[..n]) + [Insert(table, sql, rows[n])];
    assert |lhs| == |rhs|;
    forall i | 0 <= i < |lhs| ensures lhs[i] == rhs[i] {
      if i < n {
        assert rows[..n][i] == rows[i];
      }
    }
  }

  /** The rows of the file the loop reaches: the ones the database refuses. */
  function FailedRows(table: string, rows: seq<seq<Param>>, fails: nat -> bool): seq<Exec> {
    if rows == [] then []
    else
      var n := |rows| - 1;
      FailedRows(table, rows[..n], fails) + (if fails(n) then [Log(RowInsertFailed(table, rows[n]), "ERROR")] else [])
  }

  /** The ERROR logs of the insert loop report exactly the refused rows, in order. */
  lemma {:induction false} EveryRefusalLogged(table: string, sql: string, rows: seq<seq<Param>>, fails: nat -> bool)
    ensures Events(RowsTrace(table, sql, rows, fails)) == FailedRows(table, rows, fails)
  {
    if rows != [] {
      var n := |rows| - 1;
      EveryRefusalLogged(table, sql, rows[..n], fails);
      InsertsAppend(RowsTrace(table, sql, rows[..n], fails), RowExecs(table, sql, rows[n], fails(n)));
      RowExecsSplit(table, sql, rows[n], fails(n));
    }
  }

  /** A seeded table: its name, the columns filled from the file, and the file. */
  datatype TableSpec = TableSpec(name: string, columns: seq<string>, file: string)

  /** The tables of `seed_all`, in seeding order. */
  function Tables(): seq<TableSpec> {
    [TableSpec("Missions", ["mission_name", "launch_date", "mission_type", "status"], "missions.csv"),
     TableSpec("Satellites", ["satellite_name", "launch_date", "orbit_type", "mission_id"], "satellites.csv"),
     TableSpec("Ground_Stations", ["station_name", "location", "contact_frequency"], "ground_stations.csv"),
     TableSpec("Satellite_Tracking", ["satellite_id", "station_id", "timestamp", "latitude", "longitude", "altitude_km"], "satellite_tracking.csv"),
     TableSpec("Space_Debris", ["description", "latitude", "longitude", "size_meters", "risk_level"], "space_debris.csv"),
     TableSpec("Predictions", ["satellite_id", "prediction_date", "status_prediction", "lifespan_months", "collision_risk"], "predictions.csv"),
     TableSpec("System_Logs", ["log_message", "log_level", "log_time"], "system_logs.csv")]
  }

  /** The database's verdicts on the rows of one table. */
  function TableVerdicts(fails: (string, nat) -> bool, table: string): nat -> bool {
    (i: nat) => fails(table, i)
  }

  /** Seeding one more table appends that table's executes to what came before. */
  lemma SeedTraceStep(start: seq<Exec>, ts: seq<TableSpec>, k: nat, files: string -> CsvFile, fails: (string, nat) -> bool)
    requires k < |ts|
    ensures start + SeedTrace(ts[..k + 1], files, fails)
            == start + SeedTrace(ts[..k], files, fails)
               + CsvTrace(ts[k].name, ts[k].columns, ts[k].file, files(ts[k].file), TableVerdicts(fails, ts[k].name))
  {
    assert ts[..k + 1][..k] == ts[..k];
  }

  /** The executes of seeding `ts` in order; `files` gives each file's content
      and `fails(table, i)` the database's verdict on row `i` of that table. */
  function SeedTrace(ts: seq<TableSpec>, files: string -> CsvFile, fails: (string, nat) -> bool): seq<Exec> {
    if ts == [] then []
    else
      var t := ts[|ts| - 1];
      SeedTrace(ts[..|ts| - 1], files, fails) + CsvTrace(t.name, t.columns, t.file, files(t.file), TableVerdicts(fails, t.name))
  }

  /** The row inserts a table contributes: the rows of its file, or none. */
  function TableInserts(t: TableSpec, file: CsvFile): seq<Exec> {
    match file
    case Rows(rs) => RowInserts(t.name, InsertSql(t.name, t.columns), Projected(rs, t.columns))
    case _ => []
  }

  /** One `insert_data_from_csv` call inserts all the rows of its file, or
      none when the file is missing or unreadable. */
  lemma CsvInserts(t: TableSpec, file: CsvFile, fails: nat -> bool)
    ensures Inserts(CsvTrace(t.name, t.columns, t.file, file, fails)) == TableInserts(t, file)
  {
    match file
    case Rows(rs) =>
      EveryRowAttempted(t.name, InsertSql(t.name, t.columns), Projected(rs, t.columns), fails);
    case Missing =>
      assert [Log(FileNotFound(t.file), "ERROR")][..0] == [];
    case Unreadable =>
      assert [Log(UnexpectedError(t.name), "ERROR")][..0] == [];
  }

  function SeedInserts(ts: seq<TableSpec>, files: string -> CsvFile): seq<Exec> {
    if ts == [] then [] else SeedInserts(ts[..|ts| - 1], files) + TableInserts(ts[|ts| - 1], files(ts[|ts| - 1].file))
  }

  /** The tables are filled one after another in list order, each with all
      the rows of its file in file order, whatever rows the database refuses. */
  lemma {:induction false} SeedInsertsInOrder(ts: seq<TableSpec>, files: string -> CsvFile, fails: (string, nat) -> bool)
    ensures Inserts(SeedTrace(ts, files, fails)) == SeedInserts(ts, files)
  {
    if ts != [] {
      var t := ts[|ts| - 1];
      var f := TableVerdicts(fails, t.name);
      SeedInsertsInOrder(ts[..|ts| - 1], files, fails);
      InsertsAppend(SeedTrace(ts[..|ts| - 1], files, fails), CsvTrace(t.name, t.columns, t.file, files(t.file), f));
      CsvInserts(t, files(t.file), f);
    }
  }

  /** The cursor and connection of one seeding run: every execute in order
      and the number of commits. */
  class Seeder {
    var trace: seq<Exec>
    var commits: nat

    constructor ()
      ensures trace == [] && commits == 0
    {
      trace, commits := [], 0;
    }

    /** `insert_data_from_csv`. */
    method InsertDataFromCsv(table: string, columns: seq<string>, fileName: string, file: CsvFile, fails: nat -> bool)
      modifies this
      ensures trace == old(trace) + CsvTrace(table, columns, fileName, file, fails)
      ensures commits == old(commits)
    {
      match file
      case Missing =>
        trace := trace + [Log(FileNotFound(fileName), "ERROR")];
      case Unreadable =>
        trace := trace + [Log(UnexpectedError(table), "ERROR")];
      case Rows(rs) =>
        var rows := Projected(rs, columns);
        var sql := InsertSql(table, columns);
        var i := 0;
        while i < |rows|
          invariant 0 <= i <= |rows|
          invariant trace == old(trace) + RowsTrace(table, sql, rows[..i], fails)
          invariant commits == old(commits)
        {
          RowsTraceStep(old(trace), table, sql, rows, i, fails);
          trace := trace + [Insert(table, sql, rows[i])];
          if fails(i) {
            trace := trace + [Log(RowInsertFailed(table, rows[i]), "ERROR")];
          }
          i := i + 1;
        }
        assert rows[..i] == rows;
    }

    /** The `for table_name, cols, filename in tables` loop. */
    method SeedTables(ts: seq<TableSpec>, files: string -> CsvFile, fails: (string, nat) -> bool)
      modifies this
      ensures trace == old(trace) + SeedTrace(ts, files, fails)
      ensures commits == old(commits)
    {
      var k := 0;
      while k < |ts|
        invariant 0 <= k <= |ts|
        invariant trace == old(trace) + SeedTrace(ts[..k], files, fails)
        invariant commits == old(commits)
      {
        SeedTraceStep(old(trace), ts, k, files, fails);
        InsertDataFromCsv(ts[k].name, ts[k].columns, ts[k].file, files(ts[k].file), TableVerdicts(fails, ts[k].name));
        k := k + 1;
      }
      assert ts[..k] == ts;
    }

    /** `seed_all`: the seven tables in order, then one commit. */
    method SeedAll(files: string -> CsvFile, fails: (string, nat) -> bool)
      modifies this
      ensures trace == old(trace) + SeedTrace(Tables(), files, fails)
      ensures commits == old(commits) + 1
    {
      SeedTables(Tables(), files, fails);
      commits := commits + 1;
    }
  }
}
