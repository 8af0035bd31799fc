/** The pandas DataFrame operations the tools use, on an abstract table:
    an ordered list of column names and a sequence of rows, each row a map
    from column name to cell.  A cell pandas has no value for is `Nan`. */
module Tables {
  import opened Python
  import opened Dicts

  type Row = map<string, Value>

  datatype Table = Table(columns: seq<string>, rows: seq<Row>)

  function ColumnSet(columns: seq<string>): set<string>
  {
    set c | c in columns
  }

  /** Every row has a cell for exactly the table's columns. */
  predicate Rectangular(t: Table)
  {
    forall row :: row in t.rows ==> row.Keys == ColumnSet(t.columns)
  }

  lemma ColumnSetConcat(a: seq<string>, b: seq<string>)
    ensures ColumnSet(a + b) == ColumnSet(a) + ColumnSet(b)
  {
  }

  /** A database cursor returns one cell per column in every row. */
  predicate Aligned(records: seq<seq<Value>>, columns: seq<string>)
  {
    forall i :: 0 <= i < |records| ==> |records[i]| == |columns|
  }

  /** The row built from one record; for a repeated column name the last
      cell wins. */
  function RowOf(columns: seq<string>, record: seq<Value>): (r: Row)
    requires |record| == |columns|
    ensures r.Keys == ColumnSet(columns)
  {
    if columns == [] then map[]
    else
      var n := |columns| - 1;
      assert columns == columns[..n] + [columns[n]];
      ColumnSetConcat(columns[..n], [columns[n]]);
      RowOf(columns[..n], record[..n])[columns[n] := record[n]]
  }

  /** With distinct column names, each cell of the row is the record's
      value at that column's position. */
  lemma {:induction false} RowOfCells(columns: seq<string>, record: seq<Value>)
    requires |record| == |columns|
    ensures Distinct(columns) ==> forall j :: 0 <= j < |columns| ==> RowOf(columns, record)[columns[j]] == record[j]
  {
    if columns != [] && Distinct(columns) {
      var n := |columns| - 1;
      var init := columns[..n];
      DistinctPrefix(columns, n);
      RowOfCells(init, record[..n]);
      var r := RowOf(init, record[..n]);
      assert RowOf(columns, record) == r[columns[n] := record[n]];
      forall j | 0 <= j < |columns| ensures RowOf(columns, record)[columns[j]] == record[j] {
        if j < n {
          assert init[j] == columns[j] && record[..n][j] == record[j];
          assert columns[j] != columns[n];
        }
      }
    }
  }

  /** `pd.DataFrame(records, columns=columns)`. */
  function FromRecords(records: seq<seq<Value>>, columns: seq<string>): (t: Table)
    requires Aligned(records, columns)
    ensures t.columns == columns && |t.rows| == |records| && Rectangular(t)
    ensures Distinct(columns) ==>
      forall i, j :: 0 <= i < |records| && 0 <= j < |columns| ==> t.rows[i][columns[j]] == records[i][j]
  {
    var t := Table(columns, seq(|records|, i requires 0 <= i < |records| => RowOf(columns, records[i])));
    RecordsCells(records, columns);
    t
  }

  lemma RecordsCells(records: seq<seq<Value>>, columns: seq<string>)
    requires Aligned(records, columns)
    ensures Distinct(columns) ==>
      forall i, j :: 0 <= i < |records| && 0 <= j < |columns| ==> RowOf(columns, records[i])[columns[j]] == records[i][j]
  {
    forall i | 0 <= i < |records| {
      RowOfCells(columns, records[i]);
    }
  }

  /** `t[name] = v`: an existing column is overwritten, a new one is
      appended; every row gets the cell `v`. */
  function SetColumn(t: Table, name: string, v: Value): (r: Table)
    ensures |r.rows| == |t.rows|
    ensures ColumnSet(r.columns) == ColumnSet(t.columns) + {name}
    ensures Rectangular(t) ==> Rectangular(r)
  {
    Table(if name in t.columns then t.columns else t.columns + [name],
          seq(|t.rows|, i requires 0 <= i < |t.rows| => t.rows[i][name := v]))
  }

  // ---------------------------------------------------------------------
  // pd.concat

  /** The columns of `cols` followed by those of `more` not seen yet. */
  function AddColumns(cols: seq<string>, more: seq<string>): (r: seq<string>)
    ensures ColumnSet(r) == ColumnSet(cols) + ColumnSet(more)
    ensures Distinct(cols) ==> Distinct(r)
    ensures |r| >= |cols| && r[..|cols|] == cols
    decreases more
  {
    if more == [] then cols
    else
      var next := if more[0] in cols then cols else cols + [more[0]];
      assert more == [more[0]] + more[1..];
      ColumnSetConcat([more[0]], more[1..]);
      ColumnSetConcat(cols, [more[0]]);
      var r := AddColumns(next, more[1..]);
      assert r[..|cols|] == r[..|next|][..|cols|];
      r
  }

  /** The columns of a concatenation: the union, in order of appearance. */
  function UnionColumns(frames: seq<Table>): (r: seq<string>)
    ensures forall k :: 0 <= k < |frames| ==> ColumnSet(frames[k].columns) <= ColumnSet(r)
  {
    if frames == [] then []
    else
      var n := |frames| - 1;
      var r := AddColumns(UnionColumns(frames[..n]), frames[n].columns);
      assert forall k :: 0 <= k < n ==> frames[k] == frames[..n][k];
      r
  }

  /** The rows of all frames, frame after frame. */
  function AllRows(frames: seq<Table>): seq<Row>
  {
    if frames == [] then [] else frames[0].rows + AllRows(frames[1..])
  }

  /** The number of rows summed over the frames. */
  function TotalRows(frames: seq<Table>): nat
  {
    if frames == [] then 0 else |frames[0].rows| + TotalRows(frames[1..])
  }

  /** A row extended to `columns`, missing cells filled with `Nan`. */
  function Reindex(row: Row, columns: seq<string>): (r: Row)
    ensures r.Keys == ColumnSet(columns)
  {
    map c | c in ColumnSet(columns) :: if c in row then row[c] else Nan
  }

  /** `pd.concat(frames, ignore_index=True)`; concatenating nothing raises
      ValueError. */
  function Concat(frames: seq<Table>): (r: Result<Table>)
    ensures r.Err? <==> frames == []
  {
    if frames == [] then Err(ValueError("No objects to concatenate"))
    else
      var columns := UnionColumns(frames);
      var rows := AllRows(frames);
      Ok(Table(columns, seq(|rows|, i requires 0 <= i < |rows| => Reindex(rows[i], columns))))
  }

  lemma {:induction false} AllRowsLength(frames: seq<Table>)
    ensures |AllRows(frames)| == TotalRows(frames)
  {
    if frames != [] {
      AllRowsLength(frames[1..]);
    }
  }

  lemma {:induction false} AllRowsAppend(a: seq<Table>, b: seq<Table>)
    ensures AllRows(a + b) == AllRows(a) + AllRows(b)
  {
    if a == [] {
      assert a + b == b;
    } else {
      assert (a + b)[1..] == a[1..] + b;
      AllRowsAppend(a[1..], b);
    }
  }

  /** Every row of the concatenated frames is a row of one of them. */
  lemma {:induction false} AllRowsFrom(frames: seq<Table>, i: nat)
    requires i < |AllRows(frames)|
    ensures exists k :: 0 <= k < |frames| && AllRows(frames)[i] in frames[k].rows
  {
    if i >= |frames[0].rows| {
      AllRowsFrom(frames[1..], i - |frames[0].rows|);
      var k :| 0 <= k < |frames[1..]| && AllRows(frames[1..])[i - |frames[0].rows|] in frames[1..][k].rows;
      assert AllRows(frames)[i] in frames[k + 1].rows;
    }
  }

  /** The concatenation has one row per row of the frames, in frame order;
      each keeps its cells and gets `Nan` for the columns it lacked. */
  lemma ConcatRows(frames: seq<Table>)
    requires frames != []
    requires forall k :: 0 <= k < |frames| ==> Rectangular(frames[k])
    ensures |Concat(frames).value.rows| == TotalRows(frames)
    ensures Rectangular(Concat(frames).value)
    ensures forall i, c :: 0 <= i < |AllRows(frames)| && c in AllRows(frames)[i] ==>
      c in Concat(frames).value.rows[i] && Concat(frames).value.rows[i][c] == AllRows(frames)[i][c]
  {
    AllRowsLength(frames);
    var rows := AllRows(frames);
    var columns := UnionColumns(frames);
    forall i, c | 0 <= i < |rows| && c in rows[i]
      ensures c in ColumnSet(columns)
    {
      AllRowsFrom(frames, i);
      var k :| 0 <= k < |frames| && rows[i] in frames[k].rows;
      var j :| 0 <= j < |frames[k].rows| && frames[k].rows[j] == rows[i];
      assert rows[i].Keys == ColumnSet(frames[k].columns);
    }
  }

  /** The rows of `b` are those before frame `k`, then its own, then
      those after it. */
  lemma AllRowsSplit(b: seq<Table>, k: nat)
    requires k < |b|
    ensures AllRows(b) == AllRows(b[..k]) + (b[k].rows + AllRows(b[k + 1..]))
  {
    assert b[k..][1..] == b[k + 1..];
    assert b == b[..k] + b[k..];
    AllRowsAppend(b[..k], b[k..]);
  }

  /** Taking frame `k` out of `b` takes its rows out of `AllRows(b)`. */
  lemma AllRowsRemove(b: seq<Table>, k: nat)
    requires k < |b|
    ensures multiset(AllRows(b)) == multiset(b[k].rows) + multiset(AllRows(b[..k] + b[k + 1..]))
  {
    AllRowsSplit(b, k);
    AllRowsAppend(b[..k], b[k + 1..]);
  }

  /** Removing the element at `k` removes one occurrence from the
      multiset. */
  lemma RemoveAt(b: seq<Table>, k: nat)
    requires k < |b|
    ensures multiset(b[..k] + b[k + 1..]) == multiset(b) - multiset{b[k]}
  {
    assert b == b[..k] + [b[k]] + b[k + 1..];
  }

  /** Permuting the frames permutes the concatenated row sequence: the
      multiset of rows taken from the frames is the same. */
  lemma {:induction false} AllRowsPermutation(a: seq<Table>, b: seq<Table>)
    requires multiset(a) == multiset(b)
    ensures multiset(AllRows(a)) == multiset(AllRows(b))
    decreases |a|
  {
    if a == [] {
      assert |b| == |multiset(b)| == 0;
    } else {
      assert a == [a[0]] + a[1..];
      assert multiset(a[1..]) == multiset(a) - multiset{a[0]};
      assert a[0] in multiset(b);
      var k :| 0 <= k < |b| && b[k] == a[0];
      AllRowsRemove(b, k);
      RemoveAt(b, k);
      AllRowsPermutation(a[1..], b[..k] + b[k + 1..]);
    }
  }

  // ---------------------------------------------------------------------
  // Selecting the rows of one value of a column

  /** The cell of `row` in column `c`. */
  function Cell(row: Row, c: string): Value
  {
    if c in row then row[c] else Nan
  }

  /** `t[c].unique()`: the distinct cells of column `c`, in order of first
      appearance (`Nan` counts once). */
  function Unique(t: Table, c: string): (u: seq<Value>)
    ensures Distinct(u)
    ensures forall v :: v in u <==> exists i :: 0 <= i < |t.rows| && Cell(t.rows[i], c) == v
  {
    var cells := seq(|t.rows|, i requires 0 <= i < |t.rows| => Cell(t.rows[i], c));
    assert forall i :: 0 <= i < |t.rows| ==> cells[i] == Cell(t.rows[i], c);
    UniqueOf(cells)
  }

  function UniqueOf(cells: seq<Value>): (u: seq<Value>)
    ensures Distinct(u)
    ensures forall v :: v in u <==> v in cells
  {
    if cells == [] then []
    else
      var n := |cells| - 1;
      var u := UniqueOf(cells[..n]);
      assert cells == cells[..n] + [cells[n]];
      if cells[n] in u then u else u + [cells[n]]
  }

  /** `unique()` lists values in order of first appearance: every row
      holding a later value of the list comes after a row holding an
      earlier one. */
  lemma UniqueInOrder(t: Table, c: string, k: nat, l: nat, j: nat)
    requires k < l < |Unique(t, c)| && j < |t.rows| && Cell(t.rows[j], c) == Unique(t, c)[l]
    ensures exists i :: 0 <= i < j && Cell(t.rows[i], c) == Unique(t, c)[k]
  {
    var cells := seq(|t.rows|, i requires 0 <= i < |t.rows| => Cell(t.rows[i], c));
    assert Unique(t, c) == UniqueOf(cells);
    UniqueOfInOrder(cells, k, l, j);
    var i :| 0 <= i < j && cells[i] == UniqueOf(cells)[k];
    assert Cell(t.rows[i], c) == Unique(t, c)[k];
  }

  lemma {:induction false} UniqueOfInOrder(cells: seq<Value>, k: nat, l: nat, j: nat)
    requires k < l < |UniqueOf(cells)| && j < |cells| && cells[j] == UniqueOf(cells)[l]
    ensures exists i :: 0 <= i < j && cells[i] == UniqueOf(cells)[k]
    decreases |cells|
  {
    var n := |cells| - 1;
    var prefix := cells[..n];
    var u := UniqueOf(prefix);
    assert cells == prefix + [cells[n]];
    if l < |u| {
      assert UniqueOf(cells)[k] == u[k] && UniqueOf(cells)[l] == u[l];
      // Some occurrence of the later value lies in the prefix.
      assert u[l] in prefix;
      var j' :| 0 <= j' < n && prefix[j'] == u[l];
      var j'' := if j < n then j else j';
      assert prefix[j''] == u[l];
      UniqueOfInOrder(prefix, k, l, j'');
      var i :| 0 <= i < j'' && prefix[i] == u[k];
      assert cells[i] == UniqueOf(cells)[k];
    } else {
      // The later value is the last cell, seen for the first time.
      assert UniqueOf(cells) == u + [cells[n]] && l == |u|;
      assert UniqueOf(cells)[k] == u[k] && u[k] in prefix;
      assert j == n;
      var i :| 0 <= i < n && prefix[i] == u[k];
      assert cells[i] == UniqueOf(cells)[k];
    }
  }

  /** Python `==` between cells: `nan` equals nothing, not even itself. */
  predicate CellEq(a: Value, b: Value)
  {
    a != Nan && b != Nan && a == b
  }

  /** `t[t[c] == v]`: the rows whose cell in column `c` equals `v`. */
  function Select(t: Table, c: string, v: Value): (r: Table)
    ensures r.columns == t.columns
    ensures forall row :: row in r.rows <==> row in t.rows && CellEq(Cell(row, c), v)
    ensures Rectangular(t) ==> Rectangular(r)
  {
    Table(t.columns, SelectRows(t.rows, c, v))
  }

  function SelectRows(rows: seq<Row>, c: string, v: Value): (r: seq<Row>)
    ensures forall row :: row in r <==> row in rows && CellEq(Cell(row, c), v)
    ensures multiset(r) <= multiset(rows)
  {
    if rows == [] then []
    else
      var n := |rows| - 1;
      assert rows == rows[..n] + [rows[n]];
      SelectRows(rows[..n], c, v) + (if CellEq(Cell(rows[n], c), v) then [rows[n]] else [])
  }

  /** `t.drop(columns=[c])`. */
  function Drop(t: Table, c: string): (r: Table)
    ensures ColumnSet(r.columns) == ColumnSet(t.columns) - {c}
    ensures |r.rows| == |t.rows|
    ensures forall i :: 0 <= i < |t.rows| ==> r.rows[i] == t.rows[i] - {c}
    ensures Rectangular(t) ==> Rectangular(r)
  {
    Table(RemoveColumn(t.columns, c), seq(|t.rows|, i requires 0 <= i < |t.rows| => t.rows[i] - {c}))
  }

  function RemoveColumn(columns: seq<string>, c: string): (r: seq<string>)
    ensures ColumnSet(r) == ColumnSet(columns) - {c}
  {
    if columns == [] then []
    else
      assert columns == [columns[0]] + columns[1..];
      ColumnSetConcat([columns[0]], columns[1..]);
      var head := if columns[0] == c then [] else [columns[0]];
      ColumnSetConcat(head, RemoveColumn(columns[1..], c));
      head + RemoveColumn(columns[1..], c)
  }
}
