/**
 * The normalisation half of `InvoiceApp.save_to_excel`: the rows of a batch become a table
 * with exactly the fourteen export columns, in their fixed order, "NA" standing for every
 * missing or empty cell; and the table is written to, or appended to, the first sheet of a
 * workbook.
 */
module Export {
  import opened Wrappers
  import opened Json
  import opened Columns
  import opened RowFlattener

  /** The export columns, in the order they appear in the sheet. */
  const ColumnOrder: seq<string> := [
    "Invoice Date", "Invoice No", "Supplier Name", "GSTIN/UIN", "Consignor From Name", "Consignor From GSTIN",
    "Item Name", "HSN Code", "QTY", "Rate", "Batch No", "Exp Date", "Amount", "Narration"]

  /** The text every missing or empty cell is replaced with. */
  const NA: Json := JString("NA")

  /**
   * A data frame as `pd.DataFrame(rows)` builds it: its columns are the keys of all rows, and
   * a row that lacks one of them reads as NaN there.
   */
  datatype Frame = Frame(columns: set<string>, rows: seq<Row>)

  /** The keys of all rows together. */
  function KeysOf(rows: seq<Row>): (ks: set<string>)
    ensures forall i :: 0 <= i < |rows| ==> rows[i].Keys <= ks
  {
    if rows == [] then {}
    else
      var front := rows[..|rows| - 1];
      assert forall i :: 0 <= i < |front| ==> front[i] == rows[i];
      KeysOf(front) + rows[|rows| - 1].Keys
  }

  /** `pd.DataFrame(all_extracted_rows)` */
  function FrameOf(rows: seq<Row>): Frame {
    Frame(KeysOf(rows), rows)
  }

  /** A row's cell in a column: NaN, written None, when the row lacks the key. */
  function CellAt(row: Row, name: string): Option<Json> {
    if name in row then row[name] else None
  }

  /** `fillna("NA")`: NaN and None become "NA"; a JSON null is Python's None. */
  function Filled(v: Option<Json>): (j: Json)
    ensures j != JNull
    ensures v.Some? && v.value != JNull ==> j == v.value
    ensures v.None? || v == Some(JNull) ==> j == NA
  {
    match v
    case Some(x) => if x == JNull then NA else x
    case None => NA
  }

  /** `new_df[col] = "NA"`: a new column holding "NA" in every row. */
  function WithColumn(df: Frame, col: string): Frame {
    Frame(df.columns + {col}, seq(|df.rows|, i requires 0 <= i < |df.rows| => df.rows[i][col := Some(NA)]))
  }

  /** An exported table: its header and its lines, one cell per header entry. */
  datatype Table = Table(header: seq<string>, rows: seq<seq<Json>>)

  /**
   * `df.reindex(columns=order).fillna("NA")`: the frame's rows with their cells in the given
   * order; a column the frame lacks reads as NaN.
   */
  function Reindexed(df: Frame, order: seq<string>): Table {
    Table(order, seq(|df.rows|, i requires 0 <= i < |df.rows| =>
      seq(|order|, j requires 0 <= j < |order| =>
        Filled(if order[j] in df.columns then CellAt(df.rows[i], order[j]) else None))))
  }

  /**
   * The exported table of a batch, defined without a data frame: one line per row, each cell
   * the row's value in that export column, or "NA".
   */
  function ExportTable(rows: seq<Row>): Table {
    Table(ColumnOrder, seq(|rows|, i requires 0 <= i < |rows| => ExportLine(rows[i])))
  }

  /** One exported line: the row's cells in the export order. */
  function ExportLine(row: Row): seq<Json> {
    seq(|ColumnOrder|, j requires 0 <= j < |ColumnOrder| => Filled(CellAt(row, ColumnOrder[j])))
  }

  /**
   * The frame reindexed on the export columns gives the exported table whenever it holds the
   * batch's rows, no row has a key outside the frame's columns, and the added columns hold "NA".
   */
  lemma {:induction false} ReindexedIsExport(df: Frame, rows: seq<Row>)
    requires |df.rows| == |rows|
    requires forall i, name :: 0 <= i < |rows| && name in ColumnOrder ==>
      Filled(if name in df.columns then CellAt(df.rows[i], name) else None) == Filled(CellAt(rows[i], name))
    ensures Reindexed(df, ColumnOrder) == ExportTable(rows)
  {
    var t := Reindexed(df, ColumnOrder);
    forall i | 0 <= i < |rows|
      ensures t.rows[i] == ExportLine(rows[i])
    {
      forall j | 0 <= j < |ColumnOrder|
        ensures t.rows[i][j] == ExportLine(rows[i])[j]
      {
        assert ColumnOrder[j] in ColumnOrder;
      }
    }
  }

  /**
   * The normalisation of `save_to_excel`: every export column the frame lacks is added as
   * "NA", then the frame is reindexed on the export columns and its empty cells filled.
   */
  method NormaliseForExport(rows: seq<Row>) returns (table: Table)
    ensures table == ExportTable(rows)
  {
    var df := FrameOf(rows);
    var k := 0;
    while k < |ColumnOrder|
      invariant 0 <= k <= |ColumnOrder|
      invariant |df.rows| == |rows|
      invariant forall i :: 0 <= i < |rows| ==> df.rows[i].Keys <= df.columns
      invariant forall i, name :: 0 <= i < |rows| && name in ColumnOrder ==>
        Filled(if name in df.columns then CellAt(df.rows[i], name) else None) == Filled(CellAt(rows[i], name))
    {
      var col := ColumnOrder[k];
      if col !in df.columns {
        df := WithColumn(df, col);
      }
      k := k + 1;
    }
    ReindexedIsExport(df, rows);
    table := Reindexed(df, ColumnOrder);
  }

  // ---------------------------------------------------------------------------
  // Properties of the export

  /** The header is exactly the export columns, in order; there is one line per row, each with fourteen cells. */
  lemma ExportShape(rows: seq<Row>)
    ensures ExportTable(rows).header == ColumnOrder && |ColumnOrder| == 14
    ensures |ExportTable(rows).rows| == |rows|
    ensures forall i :: 0 <= i < |rows| ==> |ExportTable(rows).rows[i]| == 14
  {
  }

  /**
   * A cell holds the row's value in that column when the row has one, and "NA" when the
   * column is absent from the row or holds None; no cell is ever empty.
   */
  lemma ExportCell(rows: seq<Row>, i: nat, j: nat)
    requires i < |rows| && j < |ColumnOrder|
    ensures j < |ExportTable(rows).rows[i]|
    ensures ColumnOrder[j] in rows[i] && rows[i][ColumnOrder[j]].Some? && rows[i][ColumnOrder[j]].value != JNull ==>
      ExportTable(rows).rows[i][j] == rows[i][ColumnOrder[j]].value
    ensures ColumnOrder[j] !in rows[i] || rows[i][ColumnOrder[j]] == None || rows[i][ColumnOrder[j]] == Some(JNull) ==>
      ExportTable(rows).rows[i][j] == NA
    ensures ExportTable(rows).rows[i][j] != JNull
  {
  }

  /** Columns outside the export order are dropped: rows that agree on the export columns export alike. */
  lemma ExportIgnoresOtherColumns(rows1: seq<Row>, rows2: seq<Row>)
    requires |rows1| == |rows2|
    requires forall i, j :: 0 <= i < |rows1| && 0 <= j < |ColumnOrder| ==>
      CellAt(rows1[i], ColumnOrder[j]) == CellAt(rows2[i], ColumnOrder[j])
    ensures ExportTable(rows1) == ExportTable(rows2)
  {
    forall i | 0 <= i < |rows1|
      ensures ExportLine(rows1[i]) == ExportLine(rows2[i])
    {
    }
  }

  /** Exporting a batch exports each part in turn: the lines of the parts, in order. */
  lemma ExportConcat(rows1: seq<Row>, rows2: seq<Row>)
    ensures ExportTable(rows1 + rows2).rows == ExportTable(rows1).rows + ExportTable(rows2).rows
  {
    var all := rows1 + rows2;
    assert forall i :: 0 <= i < |rows1| ==> all[i] == rows1[i];
    assert forall i :: 0 <= i < |rows2| ==> all[|rows1| + i] == rows2[i];
  }

  // ---------------------------------------------------------------------------
  // Exported rows of a flattened reply

  /** The flattener column each export column takes its value from. */
  const ExportSources: seq<Column> := [
    BaseCol(Header(InvoiceDate)), BaseCol(Header(InvoiceNo)), BaseCol(Supplier(SupplierName)),
    BaseCol(Supplier(SupplierGstin)), BaseCol(Buyer(BuyerName)), BaseCol(Buyer(BuyerGstin)),
    ItemCol(ItemName), ItemCol(HsnCode), ItemCol(Qty), ItemCol(Rate), ItemCol(BatchNo), ItemCol(ExpDate),
    ItemCol(Amount), BaseCol(Summary(Narration))]

  /** Every export column is a column of the flattener, named exactly as the flattener names it. */
  lemma ExportSourcesNamed()
    ensures |ExportSources| == |ColumnOrder|
    ensures forall j :: 0 <= j < |ColumnOrder| ==> ColumnName(ExportSources[j]) == ColumnOrder[j]
  {
  }

  /** The value a flattened row holds in one of its columns, as read from the reply. */
  function SourceValue(data: Json, i: nat, c: Column): Option<Json>
    requires Flattened(data).Success? && i < |Flattened(data).value|
  {
    FlattenedRow(data, i);
    match c
    case BaseCol(b) => Get(Fields(GroupsIn(data), GroupOf(b)), Key(b))
    case ItemCol(f) => Get(ItemsIn(data)[i], ItemKey(f))
  }

  /**
   * An exported row of a flattened reply holds, in every export column, the reply's value for
   * that column's leaf, and "NA" exactly where the reply has no value (a missing group or key,
   * or a null).
   */
  lemma FlattenedExportCell(data: Json, i: nat, j: nat)
    requires Flattened(data).Success? && i < |Flattened(data).value| && j < |ColumnOrder|
    ensures |ExportTable(Flattened(data).value).rows| == |Flattened(data).value|
    ensures j < |ExportTable(Flattened(data).value).rows[i]|
    ensures ExportTable(Flattened(data).value).rows[i][j] == Filled(SourceValue(data, i, ExportSources[j]))
  {
    ExportSourcesNamed();
    var row := Flattened(data).value[i];
    match ExportSources[j]
    case BaseCol(b) =>
      BaseColumnListed(b);
      FlattenedBaseValue(data, i, b);
    case ItemCol(f) =>
      ItemFieldListed(f);
      FlattenedItemValue(data, i, f);
  }

  // ---------------------------------------------------------------------------
  // The sheet written to

  /** The sheet the table goes to. */
  const SheetName: string := "Sheet1"

  /** A worksheet: its lines, a header line included. */
  datatype Sheet = Sheet(lines: seq<seq<Json>>)

  /** A workbook: its sheets by name. */
  datatype Workbook = Workbook(sheets: map<string, Sheet>)

  /** The header written above a table's lines. */
  function HeaderLine(t: Table): seq<Json> {
    seq(|t.header|, j requires 0 <= j < |t.header| => JString(t.header[j]))
  }

  /**
   * The workbook after the export: a missing file is created with the header and the lines;
   * an existing file has the lines appended below its first sheet's last line, without a
   * header, or gains that sheet with a header; its other sheets are kept.
   */
  function Written(existing: Option<Workbook>, t: Table): (wb: Workbook)
    ensures SheetName in wb.sheets
    ensures existing.None? ==> wb.sheets.Keys == {SheetName}
    ensures existing.Some? ==> wb.sheets.Keys == existing.value.sheets.Keys + {SheetName}
    ensures existing.Some? && SheetName in existing.value.sheets ==>
      wb.sheets[SheetName].lines == existing.value.sheets[SheetName].lines + t.rows
    ensures existing.None? || SheetName !in existing.value.sheets ==>
      wb.sheets[SheetName].lines == [HeaderLine(t)] + t.rows
    ensures existing.Some? ==>
      forall s :: s in existing.value.sheets && s != SheetName ==> wb.sheets[s] == existing.value.sheets[s]
  {
    match existing
    case None => Workbook(map[SheetName := Sheet([HeaderLine(t)] + t.rows)])
    case Some(book) =>
      if SheetName in book.sheets then
        Workbook(book.sheets[SheetName := Sheet(book.sheets[SheetName].lines + t.rows)])
      else
        Workbook(book.sheets[SheetName := Sheet([HeaderLine(t)] + t.rows)])
  }

  /** Two exports in a row leave one header and both tables' lines, in order. */
  lemma WrittenTwice(existing: Option<Workbook>, t1: Table, t2: Table)
    requires existing.None? || SheetName !in existing.value.sheets
    ensures Written(Some(Written(existing, t1)), t2).sheets[SheetName].lines == [HeaderLine(t1)] + t1.rows + t2.rows
  {
  }
}
