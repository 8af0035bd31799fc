/** db_tools/exporter.py: `export_data` chooses the files and sheets a
    result table is written to, and `format_excel` turns every written
    sheet with data into an Excel table with fitted column widths. */
module Exporter {
  import opened Python
  import opened Dicts
  import opened Tables
  import opened Paths

  // ---------------------------------------------------------------------
  // Worksheets and their formatting

  /** A worksheet as written by `to_excel(index=False)`: its title and the
      frame whose header and rows fill it. */
  datatype Sheet = Sheet(title: string, table: Table)

  /** What `format_excel` leaves on a sheet: nothing, or an Excel table
      over the used range and a width per column. */
  datatype Style = Plain | Styled(tableName: string, range: string, widths: seq<nat>)

  /** `ws.max_row`: the header row plus one row per record; a sheet
      without columns holds no cell, and openpyxl reports one row. */
  function MaxRow(t: Table): nat
  {
    if t.columns == [] then 1 else |t.rows| + 1
  }

  /** The text `str(cell.value)` of a written cell; missing values are
      written as empty cells. */
  function CellText(v: Value): string
  {
    if v == Nan || v == NoneValue then "" else Show(v)
  }

  /** The cells of the `j`-th worksheet column, header first. */
  function ColumnTexts(t: Table, j: nat): (texts: seq<string>)
    requires j < |t.columns|
    ensures |texts| == |t.rows| + 1 && texts[0] == t.columns[j]
    ensures forall i :: 0 <= i < |t.rows| ==> texts[i + 1] == CellText(Cell(t.rows[i], t.columns[j]))
  {
    [t.columns[j]] + seq(|t.rows|, i requires 0 <= i < |t.rows| => CellText(Cell(t.rows[i], t.columns[j])))
  }

  /** The length of the longest text, 0 for none. */
  function MaxLen(texts: seq<string>): (n: nat)
    ensures forall k :: 0 <= k < |texts| ==> |texts[k]| <= n
    ensures texts == [] ==> n == 0
    ensures texts != [] ==> exists k :: 0 <= k < |texts| && |texts[k]| == n
  {
    if texts == [] then 0
    else
      var m := MaxLen(texts[..|texts| - 1]);
      assert forall k :: 0 <= k < |texts| - 1 ==> texts[..|texts| - 1][k] == texts[k];
      if |texts[|texts| - 1]| > m then |texts[|texts| - 1]| else m
  }

  function Min(a: nat, b: nat): nat { if a < b then a else b }

  /** `min(max_length + 2, 50)`. */
  function Width(texts: seq<string>): nat
  {
    Min(MaxLen(texts) + 2, 50)
  }

  /** The width of every worksheet column. */
  function Widths(t: Table): (w: seq<nat>)
    ensures |w| == |t.columns|
  {
    seq(|t.columns|, j requires 0 <= j < |t.columns| => Width(ColumnTexts(t, j)))
  }

  /** `re.sub(r"[^\w]", "_", sheet)` over ASCII word characters. */
  predicate WordChar(c: char)
  {
    ('a' <= c <= 'z') || ('A' <= c <= 'Z') || ('0' <= c <= '9') || c == '_'
  }

  function TableName(title: string): string
  {
    seq(|title|, i requires 0 <= i < |title| => if WordChar(title[i]) then title[i] else '_')
  }

  /** `get_column_letter(n)`: the bijective base-26 column name ("A", ...,
      "Z", "AA", ...). */
  function ColumnLetter(n: nat): (s: string)
    requires n >= 1
    ensures |s| >= 1 && forall i :: 0 <= i < |s| ==> 'A' <= s[i] <= 'Z'
    decreases n
  {
    var last := [(('A' as int) + (n - 1) % 26) as char];
    if n <= 26 then last else ColumnLetter((n - 1) / 26) + last
  }

  /** `f"A1:{last_column}{ws.max_row}"`. */
  function Range(t: Table): string
    requires t.columns != []
  {
    "A1:" + ColumnLetter(|t.columns|) + NatToString(MaxRow(t))
  }

  /** What `format_excel` does to one sheet: nothing when it holds at most
      one row, else the table and the widths. */
  function SheetStyle(ws: Sheet): Style
  {
    if MaxRow(ws.table) <= 1 then Plain
    else Styled(TableName(ws.title), Range(ws.table), Widths(ws.table))
  }

  function Formatted(sheets: seq<Sheet>): (r: seq<Style>)
    ensures |r| == |sheets|
  {
    seq(|sheets|, k requires 0 <= k < |sheets| => SheetStyle(sheets[k]))
  }

  /** The styles of a written workbook: formatted when `format` is set,
      plain otherwise. */
  function Styles(sheets: seq<Sheet>, format: bool): (r: seq<Style>)
    ensures |r| == |sheets|
  {
    if format then Formatted(sheets) else seq(|sheets|, k => Plain)
  }

  /** The `max_length` loop over the cells of one column. */
  method ColumnWidth(t: Table, j: nat) returns (width: nat)
    requires j < |t.columns|
    ensures width == Width(ColumnTexts(t, j))
  {
    var column := ColumnTexts(t, j);
    var maxLength := 0;
    for i := 0 to |column|
      invariant maxLength == MaxLen(column[..i])
    {
      assert column[..i + 1][..i] == column[..i];
      if |column[i]| > maxLength {
        maxLength := |column[i]|;
      }
    }
    assert column[..|column|] == column;
    width := Min(maxLength + 2, 50);
  }

  /** An openpyxl workbook: its sheets and what each one is styled with. */
  class Workbook {
    var sheets: seq<Sheet>
    var styles: seq<Style>

    predicate Valid()
      reads this
    {
      |styles| == |sheets|
    }

    /** The workbook `to_excel` leaves: the sheets, none styled yet. */
    constructor (sheets: seq<Sheet>)
      ensures this.sheets == sheets && styles == seq(|sheets|, k => Plain)
      ensures Valid()
    {
      this.sheets := sheets;
      styles := seq(|sheets|, k => Plain);
    }

    /** `format_excel(wb, df)`: every sheet with a data row becomes a table
        with fitted widths; the others keep their style. */
    method FormatExcel()
      requires Valid()
      modifies this
      ensures Valid() && sheets == old(sheets)
      ensures forall k :: 0 <= k < |sheets| ==>
        styles[k] == if MaxRow(sheets[k].table) <= 1 then old(styles)[k] else SheetStyle(sheets[k])
    {
      for k := 0 to |sheets|
        invariant Valid() && sheets == old(sheets)
        invariant forall m :: 0 <= m < k ==>
          styles[m] == if MaxRow(sheets[m].table) <= 1 then old(styles)[m] else SheetStyle(sheets[m])
        invariant forall m :: k <= m < |sheets| ==> styles[m] == old(styles)[m]
      {
        var ws := sheets[k];
        if MaxRow(ws.table) > 1 {
          var widths := ColumnWidths(ws.table);
          styles := styles[k := Styled(TableName(ws.title), Range(ws.table), widths)];
        }
      }
    }
  }

  /** The `for column in ws.columns` loop. */
  method ColumnWidths(t: Table) returns (widths: seq<nat>)
    ensures widths == Widths(t)
  {
    widths := [];
    for j := 0 to |t.columns|
      invariant |widths| == j
      invariant forall m :: 0 <= m < j ==> widths[m] == Width(ColumnTexts(t, m))
    {
      var width := ColumnWidth(t, j);
      widths := widths + [width];
    }
  }

  /** Formatting a fresh workbook yields `Formatted` of its sheets. */
  method FormatNew(sheets: seq<Sheet>) returns (styles: seq<Style>)
    ensures styles == Formatted(sheets)
  {
    var wb := new Workbook(sheets);
    wb.FormatExcel();
    styles := wb.styles;
  }

  // ---------------------------------------------------------------------
  // Properties of the formatting

  /** Every width lies between 2 and 50; below the cap it is the longest
      text plus two, and no text is longer than the width allows. */
  lemma WidthBounds(texts: seq<string>)
    ensures 2 <= Width(texts) <= 50
    ensures forall k :: 0 <= k < |texts| ==> Width(texts) == 50 || |texts[k]| + 2 <= Width(texts)
    ensures texts != [] && Width(texts) < 50 ==> exists k :: 0 <= k < |texts| && |texts[k]| + 2 == Width(texts)
    ensures texts != [] && Width(texts) == 50 ==> exists k :: 0 <= k < |texts| && |texts[k]| + 2 >= 50
  {
  }

  /** A column is at least as wide as its header needs, up to the cap, and
      every cell text fits within the width unless the cap applies. */
  lemma ColumnWidthFits(t: Table, j: nat)
    requires j < |t.columns|
    ensures 2 <= Widths(t)[j] <= 50
    ensures Widths(t)[j] >= Min(|t.columns[j]| + 2, 50)
    ensures forall i :: 0 <= i < |t.rows| ==>
      Widths(t)[j] >= Min(|CellText(Cell(t.rows[i], t.columns[j]))| + 2, 50)
  {
    var texts := ColumnTexts(t, j);
    WidthBounds(texts);
    assert forall i :: 0 <= i < |t.rows| ==> texts[i + 1] == CellText(Cell(t.rows[i], t.columns[j]));
  }

  /** A sheet is formatted exactly when it has a column and a data row. */
  lemma SkippedSheets(ws: Sheet)
    ensures SheetStyle(ws).Plain? <==> ws.table.columns == [] || ws.table.rows == []
  {
  }

  /** The table name has the title's length, keeps its word characters,
      replaces every other character by "_", and is stable under
      renaming. */
  lemma TableNameIsIdentifier(title: string)
    ensures |TableName(title)| == |title|
    ensures forall i :: 0 <= i < |title| ==> WordChar(TableName(title)[i])
    ensures forall i :: 0 <= i < |title| ==> WordChar(title[i]) ==> TableName(title)[i] == title[i]
    ensures forall i :: 0 <= i < |title| ==> !WordChar(title[i]) ==> TableName(title)[i] == '_'
    ensures TableName(TableName(title)) == TableName(title)
  {
  }

  /** `get_column_letter` is injective. */
  lemma {:induction false} ColumnLetterInjective(m: nat, n: nat)
    requires m >= 1 && n >= 1 && ColumnLetter(m) == ColumnLetter(n)
    ensures m == n
    decreases m
  {
    var sm, sn := ColumnLetter(m), ColumnLetter(n);
    assert sm[|sm| - 1] == sn[|sn| - 1];
    assert (m - 1) % 26 == (n - 1) % 26;
    if m > 26 && n > 26 {
      assert sm[..|sm| - 1] == ColumnLetter((m - 1) / 26);
      assert sn[..|sn| - 1] == ColumnLetter((n - 1) / 26);
      ColumnLetterInjective((m - 1) / 26, (n - 1) / 26);
    }
  }

  // ---------------------------------------------------------------------
  // Splitting by connection

  /** `df[df[c] == v].drop(columns=[c])` for every `v` of `values`. */
  function PartitionBy(df: Table, c: string, values: seq<Value>): (parts: Dict<Value, Table>)
    ensures Keys(parts) == values
    ensures forall k :: 0 <= k < |parts| ==> parts[k].1 == Drop(Select(df, c, values[k]), c)
  {
    seq(|values|, k requires 0 <= k < |values| => (values[k], Drop(Select(df, c, values[k]), c)))
  }

  /** One part per distinct value of column `c`, in order of appearance. */
  function Partition(df: Table, c: string): Dict<Value, Table>
  {
    PartitionBy(df, c, Unique(df, c))
  }

  /** The number of rows across the parts. */
  function PartRows(parts: Dict<Value, Table>): nat
  {
    if parts == [] then 0 else |parts[0].1.rows| + PartRows(parts[1..])
  }

  /** The number of rows whose cell in `c` is not missing. */
  function Tagged(rows: seq<Row>, c: string): nat
  {
    if rows == [] then 0
    else Tagged(rows[..|rows| - 1], c) + (if Cell(rows[|rows| - 1], c) != Nan then 1 else 0)
  }

  /** The number of values of `values` a cell equals. */
  function Matches(x: Value, values: seq<Value>): nat
  {
    if values == [] then 0 else (if CellEq(x, values[0]) then 1 else 0) + Matches(x, values[1..])
  }

  function SelectedCount(rows: seq<Row>, c: string, values: seq<Value>): nat
  {
    if values == [] then 0 else |SelectRows(rows, c, values[0])| + SelectedCount(rows, c, values[1..])
  }

  /** Among distinct values a present cell matches once if it is one of
      them, a missing cell never. */
  lemma {:induction false} MatchesOnce(x: Value, values: seq<Value>)
    requires Distinct(values)
    ensures Matches(x, values) == if x != Nan && x in values then 1 else 0
  {
    if values != [] {
      MatchesOnce(x, values[1..]);
      assert values == [values[0]] + values[1..];
      assert values[0] !in values[1..];
    }
  }

  /** Adding a row adds its matches to the per-value counts. */
  lemma {:induction false} SelectedCountSnoc(rows: seq<Row>, r: Row, c: string, values: seq<Value>)
    ensures SelectedCount(rows + [r], c, values) == SelectedCount(rows, c, values) + Matches(Cell(r, c), values)
  {
    if values != [] {
      var rows' := rows + [r];
      assert rows'[..|rows'| - 1] == rows;
      SelectedCountSnoc(rows, r, c, values[1..]);
    }
  }

  /** Distinct values covering every present cell select every tagged row
      once. */
  lemma {:induction false} SelectedCountTagged(rows: seq<Row>, c: string, values: seq<Value>)
    requires Distinct(values)
    requires forall i :: 0 <= i < |rows| && Cell(rows[i], c) != Nan ==> Cell(rows[i], c) in values
    ensures SelectedCount(rows, c, values) == Tagged(rows, c)
    decreases |rows|
  {
    if rows == [] {
      SelectedCountEmpty(c, values);
    } else {
      var n := |rows| - 1;
      assert rows == rows[..n] + [rows[n]];
      SelectedCountTagged(rows[..n], c, values);
      SelectedCountSnoc(rows[..n], rows[n], c, values);
      MatchesOnce(Cell(rows[n], c), values);
    }
  }

  lemma {:induction false} SelectedCountEmpty(c: string, values: seq<Value>)
    ensures SelectedCount([], c, values) == 0
  {
    if values != [] {
      SelectedCountEmpty(c, values[1..]);
    }
  }

  lemma {:induction false} PartRowsSelected(df: Table, c: string, values: seq<Value>)
    ensures PartRows(PartitionBy(df, c, values)) == SelectedCount(df.rows, c, values)
  {
    if values != [] {
      assert PartitionBy(df, c, values)[1..] == PartitionBy(df, c, values[1..]);
      PartRowsSelected(df, c, values[1..]);
    }
  }

  /** The number of tagged rows is the number of rows when no cell is
      missing. */
  lemma {:induction false} TaggedAll(rows: seq<Row>, c: string)
    requires forall i :: 0 <= i < |rows| ==> Cell(rows[i], c) != Nan
    ensures Tagged(rows, c) == |rows|
  {
    if rows != [] {
      TaggedAll(rows[..|rows| - 1], c);
    }
  }

  /** A row of the part of `v` is a row of the table with value `v`,
      without the column. */
  lemma PartRowFromTable(df: Table, c: string, v: Value, row: Row)
    requires row in Drop(Select(df, c, v), c).rows
    ensures exists i :: 0 <= i < |df.rows| && row == df.rows[i] - {c} && CellEq(Cell(df.rows[i], c), v)
  {
    var sel := Select(df, c, v);
    var j :| 0 <= j < |sel.rows| && Drop(sel, c).rows[j] == row;
    assert sel.rows[j] in sel.rows;
    var i :| 0 <= i < |df.rows| && df.rows[i] == sel.rows[j];
  }

  /** A row with value `v` lands, without the column, in the part of
      `v`. */
  lemma TableRowInPart(df: Table, c: string, i: nat)
    requires i < |df.rows| && Cell(df.rows[i], c) != Nan
    ensures df.rows[i] - {c} in Drop(Select(df, c, Cell(df.rows[i], c)), c).rows
  {
    var sel := Select(df, c, Cell(df.rows[i], c));
    assert df.rows[i] in sel.rows;
    var j :| 0 <= j < |sel.rows| && sel.rows[j] == df.rows[i];
    assert Drop(sel, c).rows[j] == df.rows[i] - {c};
  }

  /** Every row of a part is a row of the table with the part's value,
      without the column, which no part has. */
  lemma PartRowsComeFromTable(df: Table, c: string)
    ensures Keys(Partition(df, c)) == Unique(df, c)
    ensures forall k :: 0 <= k < |Partition(df, c)| ==> c !in ColumnSet(Partition(df, c)[k].1.columns)
    ensures forall k, row :: 0 <= k < |Partition(df, c)| && row in Partition(df, c)[k].1.rows ==>
      exists i :: 0 <= i < |df.rows| && row == df.rows[i] - {c} && CellEq(Cell(df.rows[i], c), Partition(df, c)[k].0)
  {
    var u := Unique(df, c);
    var parts := Partition(df, c);
    assert Keys(parts) == u;
    forall k, row | 0 <= k < |parts| && row in parts[k].1.rows
      ensures exists i :: 0 <= i < |df.rows| && row == df.rows[i] - {c} && CellEq(Cell(df.rows[i], c), parts[k].0)
    {
      assert parts[k].0 == u[k];
      PartRowFromTable(df, c, u[k], row);
    }
  }

  /** Every row whose value is present lands, without the column, in the
      part of its value. */
  lemma RowsReachTheirPart(df: Table, c: string)
    ensures forall i :: 0 <= i < |df.rows| && Cell(df.rows[i], c) != Nan ==>
      exists k :: 0 <= k < |Partition(df, c)| && Partition(df, c)[k].0 == Cell(df.rows[i], c) &&
        df.rows[i] - {c} in Partition(df, c)[k].1.rows
  {
    var u := Unique(df, c);
    var parts := Partition(df, c);
    assert Keys(parts) == u;
    forall i | 0 <= i < |df.rows| && Cell(df.rows[i], c) != Nan
      ensures exists k :: 0 <= k < |parts| && parts[k].0 == Cell(df.rows[i], c) && df.rows[i] - {c} in parts[k].1.rows
    {
      var v := Cell(df.rows[i], c);
      assert v in u;
      var k :| 0 <= k < |u| && u[k] == v;
      assert parts[k].0 == v;
      TableRowInPart(df, c, i);
    }
  }

  /** The parts together hold one row per row with a present value, so
      every row when no value is missing: with the two lemmas above, the
      parts partition those rows. */
  lemma PartitionCount(df: Table, c: string)
    ensures PartRows(Partition(df, c)) == Tagged(df.rows, c)
    ensures (forall i :: 0 <= i < |df.rows| ==> Cell(df.rows[i], c) != Nan) ==> PartRows(Partition(df, c)) == |df.rows|
  {
    var u := Unique(df, c);
    PartRowsSelected(df, c, u);
    SelectedCountTagged(df.rows, c, u);
    if forall i :: 0 <= i < |df.rows| ==> Cell(df.rows[i], c) != Nan {
      TaggedAll(df.rows, c);
    }
  }

  // ---------------------------------------------------------------------
  // export_data

  /** A file `export_data` writes. */
  datatype Output =
    | ExcelFile(path: FilePath, sheets: seq<Sheet>, styles: seq<Style>)
    | JsonFile(path: FilePath, table: Table)
    | CsvFile(path: FilePath, table: Table)

  /** The files written, in order, and the exception that ended the call,
      if any; files written before an exception stay written. */
  datatype Export = Export(written: seq<Output>, error: Option<Error>)

  /** What openpyxl raises on saving a workbook that has no sheet. */
  const NoVisibleSheet := IndexError("At least one sheet must be visible")

  const ColumnRequired := ValueError("connection_column is required when single_file or single_sheet are False!")

  /** The two checks `export_data` makes before writing. */
  function Validate(df: Table, singleFile: bool, singleSheet: bool, column: Option<string>): (e: Option<Error>)
    ensures (!singleFile || !singleSheet) && column.None? ==> e == Some(ColumnRequired)
    ensures e.None? <==> ((singleFile && singleSheet) || column.Some?) &&
                         (!Truthy(column) || column.value in df.columns)
    ensures e.Some? && ((singleFile && singleSheet) || column.Some?) ==>
      e == Some(ValueError(column.value + " not found in Dataframe!"))
  {
    if (!singleFile || !singleSheet) && column.None? then Some(ColumnRequired)
    else if Truthy(column) && column.value !in df.columns then Some(ValueError(column.value + " not found in Dataframe!"))
    else None
  }

  /** An Excel file holding `sheets`. */
  function Book(path: FilePath, sheets: seq<Sheet>, format: bool): Output
  {
    ExcelFile(path, sheets, Styles(sheets, format))
  }

  /** The sheets of the single-file layout: one per part, titled
      `str(value)`. */
  function SheetsOf(parts: Dict<Value, Table>): (sheets: seq<Sheet>)
    ensures |sheets| == |parts|
    ensures forall k :: 0 <= k < |parts| ==> sheets[k] == Sheet(Show(parts[k].0), parts[k].1)
  {
    seq(|parts|, k requires 0 <= k < |parts| => Sheet(Show(parts[k].0), parts[k].1))
  }

  /** The path of one part in the single-sheet layout. */
  function PartPath(savePath: FilePath, v: Value): Result<FilePath>
  {
    WithStem(savePath, Stem(savePath) + "_" + Show(v))
  }

  /** The single-sheet layout: one workbook per part, its one sheet named
      "Sheet1", until a path cannot be formed. */
  function PerFile(savePath: FilePath, parts: Dict<Value, Table>, format: bool): Export
  {
    if parts == [] then Export([], None)
    else
      match PartPath(savePath, parts[0].0)
      case Err(e) => Export([], Some(e))
      case Ok(p) =>
        var rest := PerFile(savePath, parts[1..], format);
        Export([Book(p, [Sheet("Sheet1", parts[0].1)], format)] + rest.written, rest.error)
  }

  /** `export_data(save_path, df, file_format, single_file, single_sheet,
      connection_column, format)`. */
  function ExportData(savePath: FilePath, df: Table, fileFormat: string, singleFile: bool, singleSheet: bool,
                      column: Option<string>, format: bool): Export
  {
    match Validate(df, singleFile, singleSheet, column)
    case Some(e) => Export([], Some(e))
    case None =>
      if fileFormat == "xlsx" then
        if singleFile && singleSheet then Export([Book(savePath, [Sheet("Data", df)], format)], None)
        else if singleFile then
          // The split runs inside the writer's `with`: a `KeyError` or an
          // empty column leaves the workbook without a sheet, and closing
          // it raises `IndexError` in place of anything raised inside.
          if column.value !in df.columns || Partition(df, column.value) == [] then Export([], Some(NoVisibleSheet))
          else Export([Book(savePath, SheetsOf(Partition(df, column.value)), format)], None)
        else if singleSheet then
          if column.value !in df.columns then Export([], Some(KeyError(Str(column.value))))
          else PerFile(savePath, Partition(df, column.value), format)
        else Export([], None)
      else if fileFormat == "json" then Export([JsonFile(savePath, df)], None)
      else if fileFormat == "csv" then Export([CsvFile(savePath, df)], None)
      else Export([], None)
  }

  // ---------------------------------------------------------------------
  // Properties of export_data

  /** A failed check raises before anything is written. */
  lemma RejectedExportWritesNothing(savePath: FilePath, df: Table, fileFormat: string, singleFile: bool,
                                    singleSheet: bool, column: Option<string>, format: bool)
    requires Validate(df, singleFile, singleSheet, column).Some?
    ensures ExportData(savePath, df, fileFormat, singleFile, singleSheet, column, format) ==
      Export([], Validate(df, singleFile, singleSheet, column))
  {
  }

  /** Both flags set: one workbook whose only sheet "Data" holds the whole
      table, whether or not a column is named. */
  lemma OneSheetHoldsEverything(savePath: FilePath, df: Table, column: Option<string>, format: bool)
    requires !Truthy(column) || column.value in df.columns
    ensures ExportData(savePath, df, "xlsx", true, true, column, format) ==
      Export([ExcelFile(savePath, [Sheet("Data", df)], Styles([Sheet("Data", df)], format))], None)
  {
  }

  /** The table has a part exactly when it has a row. */
  lemma PartitionEmpty(df: Table, c: string)
    ensures Partition(df, c) == [] <==> df.rows == []
  {
    if df.rows != [] {
      assert Cell(df.rows[0], c) in Unique(df, c);
    }
  }

  /** Single file only: one workbook with one sheet per distinct value of
      the column, titled by the value and holding the part of that value. */
  lemma SheetPerConnection(savePath: FilePath, df: Table, c: string, format: bool)
    requires c in df.columns && df.rows != []
    ensures var r := ExportData(savePath, df, "xlsx", true, false, Some(c), format);
      var sheets := SheetsOf(Partition(df, c));
      r == Export([ExcelFile(savePath, sheets, Styles(sheets, format))], None) &&
      |sheets| == |Unique(df, c)| &&
      forall k :: 0 <= k < |sheets| ==>
        sheets[k].title == Show(Unique(df, c)[k]) && sheets[k].table == Drop(Select(df, c, Unique(df, c)[k]), c)
  {
    PartitionEmpty(df, c);
  }

  /** Single file only, on a table without rows: no sheet is written, so
      closing the workbook raises `IndexError` and nothing is written. */
  lemma NoRowsNoWorkbook(savePath: FilePath, df: Table, c: string, format: bool)
    requires c in df.columns && df.rows == []
    ensures ExportData(savePath, df, "xlsx", true, false, Some(c), format) == Export([], Some(NoVisibleSheet))
  {
    PartitionEmpty(df, c);
  }

  /** The files of the single-sheet layout, when every path can be formed:
      one per part in order, each beside the requested path. */
  lemma {:induction false} PerFileWritten(savePath: FilePath, parts: Dict<Value, Table>, format: bool)
    requires forall k :: 0 <= k < |parts| ==> PartPath(savePath, parts[k].0).Ok?
    ensures PerFile(savePath, parts, format).error.None?
    ensures |PerFile(savePath, parts, format).written| == |parts|
    ensures forall k :: 0 <= k < |parts| ==>
      PerFile(savePath, parts, format).written[k] ==
        Book(PartPath(savePath, parts[k].0).value, [Sheet("Sheet1", parts[k].1)], format)
  {
    if parts != [] {
      PerFileWritten(savePath, parts[1..], format);
    }
  }

  /** A path that cannot be formed stops the single-sheet layout: the
      files of the earlier parts are written and its `ValueError` is
      raised. */
  lemma {:induction false} PerFileStops(savePath: FilePath, parts: Dict<Value, Table>, format: bool, n: nat)
    requires n < |parts| && PartPath(savePath, parts[n].0).Err?
    requires forall k :: 0 <= k < n ==> PartPath(savePath, parts[k].0).Ok?
    ensures PerFile(savePath, parts, format).error == Some(PartPath(savePath, parts[n].0).error)
    ensures PerFile(savePath, parts, format).written == PerFile(savePath, parts[..n], format).written
  {
    if n > 0 {
      var tail := parts[1..];
      assert tail[n - 1] == parts[n];
      assert forall k :: 0 <= k < n - 1 ==> tail[k] == parts[k + 1];
      PerFileStops(savePath, tail, format, n - 1);
      var p := PartPath(savePath, parts[0].0).value;
      var head := [Book(p, [Sheet("Sheet1", parts[0].1)], format)];
      assert PerFile(savePath, parts, format).written == head + PerFile(savePath, tail, format).written;
      SliceTail(parts, n);
      assert PerFile(savePath, parts[..n], format).written == head + PerFile(savePath, tail[..n - 1], format).written;
    }
  }

  lemma SliceTail<T>(s: seq<T>, n: nat)
    requires 0 < n <= |s|
    ensures s[..n][0] == s[0] && s[1..][..n - 1] == s[..n][1..]
  {
  }

  /** The path of the part of `v`: beside `savePath`, with its suffix,
      stem `{stem}_{value}`. */
  lemma PartPathShape(savePath: FilePath, v: Value)
    requires savePath.name != "" && '/' !in savePath.name && Suffix(savePath) != ""
    requires '/' !in Show(v)
    ensures PartPath(savePath, v).Ok?
    ensures var q := PartPath(savePath, v).value;
      q.parent == savePath.parent && Stem(q) == Stem(savePath) + "_" + Show(v) && Suffix(q) == Suffix(savePath)
  {
    StemAndSuffix(savePath);
    assert Stem(savePath) == savePath.name[..|Stem(savePath)|];
    WithStemRoundTrip(savePath, Stem(savePath) + "_" + Show(v));
  }

  /** Single sheet only: with a named path that has a suffix and
      connection values without a separator, one file per distinct value,
      named `{stem}_{value}` with the requested suffix in the requested
      directory, holding the part of that value. */
  lemma FilePerConnection(savePath: FilePath, df: Table, c: string, format: bool)
    requires c in df.columns
    requires savePath.name != "" && '/' !in savePath.name && Suffix(savePath) != ""
    requires forall v :: v in Unique(df, c) ==> '/' !in Show(v)
    ensures var r := ExportData(savePath, df, "xlsx", false, true, Some(c), format);
      var u := Unique(df, c);
      r.error.None? && |r.written| == |u| &&
      forall k :: 0 <= k < |u| ==>
        r.written[k].path.parent == savePath.parent &&
        Stem(r.written[k].path) == Stem(savePath) + "_" + Show(u[k]) &&
        Suffix(r.written[k].path) == Suffix(savePath) &&
        r.written[k] == Book(r.written[k].path, [Sheet("Sheet1", Drop(Select(df, c, u[k]), c))], format)
  {
    var u := Unique(df, c);
    var parts := Partition(df, c);
    forall k | 0 <= k < |parts|
      ensures PartPath(savePath, parts[k].0).Ok?
      ensures var q := PartPath(savePath, parts[k].0).value;
        q.parent == savePath.parent && Stem(q) == Stem(savePath) + "_" + Show(u[k]) && Suffix(q) == Suffix(savePath)
    {
      assert u[k] in u;
      PartPathShape(savePath, u[k]);
    }
    PerFileWritten(savePath, parts, format);
  }

  /** xlsx with neither flag set writes nothing and raises nothing. */
  lemma NoLayoutWritesNothing(savePath: FilePath, df: Table, c: string, format: bool)
    requires c in df.columns
    ensures ExportData(savePath, df, "xlsx", false, false, Some(c), format) == Export([], None)
  {
  }

  /** An empty column name passes the checks; a layout that splits by it
      then fails unless the table has a column named "": with one file per
      value `df[""]` raises `KeyError`, with one sheet per value the
      workbook is closed without a sheet and raises `IndexError` instead. */
  lemma EmptyColumnNameRaises(savePath: FilePath, df: Table, singleFile: bool, singleSheet: bool, format: bool)
    requires singleFile != singleSheet && "" !in df.columns
    ensures Validate(df, singleFile, singleSheet, Some("")).None?
    ensures singleSheet ==>
      ExportData(savePath, df, "xlsx", singleFile, singleSheet, Some(""), format) == Export([], Some(KeyError(Str(""))))
    ensures singleFile ==>
      ExportData(savePath, df, "xlsx", singleFile, singleSheet, Some(""), format) == Export([], Some(NoVisibleSheet))
  {
  }

  /** JSON and CSV write the whole table to the requested path; any other
      format writes nothing. */
  lemma OtherFormats(savePath: FilePath, df: Table, fileFormat: string, singleFile: bool, singleSheet: bool,
                     column: Option<string>, format: bool)
    requires Validate(df, singleFile, singleSheet, column).None? && fileFormat != "xlsx"
    ensures var r := ExportData(savePath, df, fileFormat, singleFile, singleSheet, column, format);
      r.error.None? &&
      (fileFormat == "json" ==> r.written == [JsonFile(savePath, df)]) &&
      (fileFormat == "csv" ==> r.written == [CsvFile(savePath, df)]) &&
      (fileFormat != "json" && fileFormat != "csv" ==> r.written == [])
  {
  }
}
