/**
 * The table data model of the dashboard: cells, tables, the column-oriented
 * literals the defaults are written in, the required-column check and the
 * structural equality used to detect edits.
 */
module Tables {

  /** A cell: the dashboard's tables hold strings and integers. */
  datatype Value = Str(s: string) | Int(n: int)

  /** A table in row-major form: ordered column names and ordered rows of cells. */
  datatype Table = Table(columns: seq<string>, rows: seq<seq<Value>>)

  /** Every row has one cell per column. */
  predicate WellFormed(t: Table)
  {
    forall i :: 0 <= i < |t.rows| ==> |t.rows[i]| == |t.columns|
  }

  /** One entry of a column-oriented literal: a name and its values, top to bottom. */
  datatype Column = Column(name: string, values: seq<Value>)

  function Names(d: seq<Column>): (names: seq<string>)
    ensures |names| == |d|
    ensures forall j :: 0 <= j < |d| ==> names[j] == d[j].name
  {
    seq(|d|, j requires 0 <= j < |d| => d[j].name)
  }

  /** Number of rows a column-oriented literal describes (that of its first column). */
  function Height(d: seq<Column>): nat
  {
    if |d| == 0 then 0 else |d[0].values|
  }

  /** All columns of the literal have the same length. */
  predicate Rectangular(d: seq<Column>)
  {
    forall j :: 0 <= j < |d| ==> |d[j].values| == Height(d)
  }

  /**
   * Builds a table from a column-oriented literal, as constructing a data
   * frame from a dictionary of lists does: the columns keep the literal's
   * order and row i holds the i-th value of every column. A literal whose
   * columns differ in length cannot be turned into a table.
   */
  function FromColumns(d: seq<Column>): (t: Table)
    requires Rectangular(d)
    ensures t.columns == Names(d)
    ensures |t.rows| == Height(d)
    ensures WellFormed(t)
    ensures forall i, j :: 0 <= i < |t.rows| && 0 <= j < |d| ==> t.rows[i][j] == d[j].values[i]
  {
    Table(Names(d), seq(Height(d), i requires 0 <= i < Height(d) =>
                          seq(|d|, j requires 0 <= j < |d| => d[j].values[i])))
  }

  /** The values of column j of a well-formed table, top to bottom. */
  function ColumnValues(t: Table, j: nat): seq<Value>
    requires WellFormed(t) && j < |t.columns|
  {
    seq(|t.rows|, i requires 0 <= i < |t.rows| => t.rows[i][j])
  }

  /** Reading a column back out of the built table gives the literal's column. */
  lemma FromColumnsKeepsColumns(d: seq<Column>, j: nat)
    requires Rectangular(d) && j < |d|
    ensures FromColumns(d).columns[j] == d[j].name
    ensures ColumnValues(FromColumns(d), j) == d[j].values
  {
  }

  /**
   * The generator `all(col in columns for col in required)`: walks the
   * required names in order and stops at the first one that is absent.
   */
  function AllIn(required: seq<string>, columns: seq<string>): (r: bool)
    ensures r <==> forall i :: 0 <= i < |required| ==> required[i] in columns
  {
    if |required| == 0 then true
    else required[0] in columns && AllIn(required[1..], columns)
  }

  /** The schema check: every required name is one of the table's columns. */
  function HasColumns(t: Table, required: seq<string>): (r: bool)
    ensures r <==> forall c :: c in required ==> c in t.columns
  {
    AllIn(required, t.columns)
  }

  /** Extra columns never make a table fail the schema check. */
  lemma SchemaAllowsExtraColumns(t: Table, u: Table, required: seq<string>)
    requires forall c :: c in t.columns ==> c in u.columns
    ensures HasColumns(t, required) ==> HasColumns(u, required)
  {
  }

  /** The schema check does not depend on the order of the columns. */
  lemma SchemaIgnoresColumnOrder(t: Table, u: Table, required: seq<string>)
    requires multiset(t.columns) == multiset(u.columns)
    ensures HasColumns(t, required) == HasColumns(u, required)
  {
    forall c | c in t.columns ensures c in u.columns {
      assert c in multiset(t.columns);
    }
    forall c | c in u.columns ensures c in t.columns {
      assert c in multiset(u.columns);
    }
    SchemaAllowsExtraColumns(t, u, required);
    SchemaAllowsExtraColumns(u, t, required);
  }

  /** Row-by-row comparison of two row sequences. */
  function SameRows(a: seq<seq<Value>>, b: seq<seq<Value>>): (r: bool)
    ensures r <==> a == b
  {
    if |a| == 0 || |b| == 0 then |a| == |b|
    else a[0] == b[0] && SameRows(a[1..], b[1..])
  }

  /**
   * Structural equality of two tables, the dashboard's test for "no edits":
   * same columns in the same order, same rows in the same order, same cells.
   */
  function SameTable(a: Table, b: Table): (r: bool)
    ensures r <==> a == b
  {
    a.columns == b.columns && SameRows(a.rows, b.rows)
  }

  /** A table is never changed with respect to itself; a different cell is always a change. */
  lemma ChangeDetection(t: Table, u: Table, i: nat, j: nat)
    requires i < |t.rows| && i < |u.rows| && j < |t.rows[i]| && j < |u.rows[i]|
    requires t.rows[i][j] != u.rows[i][j]
    ensures SameTable(t, t)
    ensures !SameTable(t, u)
  {
  }
}
