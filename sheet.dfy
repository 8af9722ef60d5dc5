/** `dict_to_sheet`: the data a batch write hands to the spreadsheet
    service. Headers go to row 1, the values of every row are flattened row
    by row into a block of cells starting at `startRow`, and each reviewer
    column present gets a dropdown validation and three colouring rules. */
module SheetWriter {
  import opened Wrappers
  import opened Records

  /** A zero-based, half-open block of a sheet. */
  datatype GridRange = GridRange(sheetId: int, startRowIndex: int, endRowIndex: int,
                                 startColumnIndex: int, endColumnIndex: int)

  /** The two kinds of request of a batch update (the background colours
      of the rules are not modelled). */
  datatype Request =
    | SetDataValidation(range: GridRange, oneOf: seq<string>, showCustomUi: bool)
    | AddConditionalFormatRule(ranges: seq<GridRange>, textEquals: string, index: int)

  /** A write of `value` at 1-based `row`, `col`. */
  datatype CellWrite<T> = CellWrite(row: int, col: int, value: T)

  /** All a call hands over: the header writes, the cells of the batch
      write, and one batch of requests per reviewer column. */
  datatype SheetWrite = SheetWrite(headers: seq<CellWrite<string>>, cells: seq<CellWrite<Value>>,
                                   batches: seq<seq<Request>>)

  datatype SheetError =
    | NoRows                  // `data_list[0]` of an empty list
    | RowLacksKey(key: string) // a row without one of the first row's keys

  const Levels: seq<string> := ["SAFE", "HIGH", "LOW"]
  const ReviewColumns: seq<string> := ["Annotation", "Your Review"]

  predicate Covers(g: GridRange, r: int, c: int) {
    g.startRowIndex <= r < g.endRowIndex && g.startColumnIndex <= c < g.endColumnIndex
  }

  /** `keys.index(key)`: the first position of `key`. */
  function IndexOf(keys: seq<string>, key: string): (k: nat)
    requires key in keys
    ensures k < |keys| && keys[k] == key && key !in keys[..k]
  {
    if keys[0] == key then 0
    else
      assert key in keys[1..];
      var k := IndexOf(keys[1..], key);
      assert keys[..k + 1] == [keys[0]] + keys[1..][..k];
      k + 1
  }

  /** Row `i` of the data sits at 1-based sheet row `startRow + i`, that is
      at zero-based row `startRow - 1 + i`. */
  function DataRange(sheetId: int, startRow: int, n: nat, k: nat): GridRange {
    GridRange(sheetId, startRow - 1, startRow + n - 1, k, k + 1)
  }

  /** The requests for the reviewer column at zero-based index `k`. */
  function ReviewBatch(sheetId: int, startRow: int, n: nat, k: nat): seq<Request> {
    var g := DataRange(sheetId, startRow, n, k);
    [SetDataValidation(g, Levels, true)]
      + seq(|Levels|, m requires 0 <= m < |Levels| => AddConditionalFormatRule([g], Levels[m], 0))
  }

  /** The ranges a request applies to. */
  function Targets(req: Request): seq<GridRange> {
    match req
    case SetDataValidation(range, _, _) => [range]
    case AddConditionalFormatRule(ranges, _, _) => ranges
  }

  /** A batch is a dropdown of the three levels, then one rule per level,
      in order, each inserted at the top; every request applies to the one
      data range of its column. */
  lemma ReviewBatchShape(sheetId: int, startRow: int, n: nat, k: nat)
    ensures var b := ReviewBatch(sheetId, startRow, n, k);
      && |b| == 1 + |Levels|
      && b[0].SetDataValidation? && b[0].oneOf == Levels && b[0].showCustomUi
      && (forall m :: 1 <= m < |b| ==>
            b[m].AddConditionalFormatRule? && b[m].textEquals == Levels[m - 1] && b[m].index == 0)
      && forall m :: 0 <= m < |b| ==> Targets(b[m]) == [DataRange(sheetId, startRow, n, k)]
  {
  }

  /** The data range of column `k` covers exactly the zero-based cells of
      that column in the rows the data was written to. */
  lemma DataRangeCovers(sheetId: int, startRow: int, n: nat, k: nat, r: int, c: int)
    ensures DataRange(sheetId, startRow, n, k).sheetId == sheetId
    ensures Covers(DataRange(sheetId, startRow, n, k), r, c) <==>
      c == k && startRow - 1 <= r && r - (startRow - 1) < n
  {
  }

  /** The reviewer columns among `cols`, in order, that are present in
      `keys`, each with its batch. */
  function BatchesFor(cols: seq<string>, keys: seq<string>, sheetId: int, startRow: int, n: nat): seq<seq<Request>>
    decreases |cols|
  {
    if cols == [] then []
    else
      var col := cols[|cols| - 1];
      BatchesFor(cols[..|cols| - 1], keys, sheetId, startRow, n)
        + if col in keys then [ReviewBatch(sheetId, startRow, n, IndexOf(keys, col))] else []
  }

  /** A batch per present reviewer column, for "Annotation" first. */
  lemma BatchesForReviewColumns(keys: seq<string>, sheetId: int, startRow: int, n: nat)
    ensures var bs := BatchesFor(ReviewColumns, keys, sheetId, startRow, n);
      var a, y := "Annotation", "Your Review";
      && (a in keys && y in keys ==>
            bs == [ReviewBatch(sheetId, startRow, n, IndexOf(keys, a)), ReviewBatch(sheetId, startRow, n, IndexOf(keys, y))])
      && (a in keys && y !in keys ==> bs == [ReviewBatch(sheetId, startRow, n, IndexOf(keys, a))])
      && (a !in keys && y in keys ==> bs == [ReviewBatch(sheetId, startRow, n, IndexOf(keys, y))])
      && (a !in keys && y !in keys ==> bs == [])
  {
    assert ReviewColumns[..1] == ["Annotation"];
    assert ReviewColumns[..1][..0] == [];
  }

  /** The values of one row for `keys`, in key order; the first key the
      row lacks is a KeyError. */
  function RowValues(row: Row, keys: seq<string>): (r: Result<seq<Value>, SheetError>)
    ensures r.Ok? <==> forall j :: 0 <= j < |keys| ==> Lookup(row, keys[j]).Some?
    ensures r.Ok? ==> (|r.value| == |keys|
      && forall j :: 0 <= j < |keys| ==> r.value[j] == Lookup(row, keys[j]).value)
    decreases |keys|
  {
    if keys == [] then Ok([])
    else
      var front :- RowValues(row, keys[..|keys| - 1]);
      var v := Lookup(row, keys[|keys| - 1]);
      if v.None? then Err(RowLacksKey(keys[|keys| - 1]))
      else Ok(front + [v.value])
  }

  /** The `flat_list` comprehension: the values of every row, row after
      row. */
  function Flatten(rows: seq<Row>, keys: seq<string>): (r: Result<seq<Value>, SheetError>)
    ensures r.Ok? <==> forall i, j :: 0 <= i < |rows| && 0 <= j < |keys| ==> Lookup(rows[i], keys[j]).Some?
    decreases |rows|
  {
    if rows == [] then Ok([])
    else
      var front :- Flatten(rows[..|rows| - 1], keys);
      var last :- RowValues(rows[|rows| - 1], keys);
      Ok(front + last)
  }

  /** The position of row `i`, key `j` in a row-by-row block of rows of
      `nc` entries. */
  function Pos(i: nat, j: nat, nc: nat): nat {
    i * nc + j
  }

  lemma BlockIndex(i: nat, j: nat, n: nat, nc: nat)
    requires i < n && j < nc
    ensures Pos(i, j, nc) < n * nc
    ensures i < n - 1 ==> Pos(i, j, nc) < (n - 1) * nc
    ensures i == n - 1 ==> Pos(i, j, nc) == (n - 1) * nc + j
  {
    assert Pos(i, j, nc) < (i + 1) * nc;
    if i < n - 1 {
      MulMono(i + 1, n - 1, nc);
    }
    MulMono(i + 1, n, nc);
  }

  lemma MulMono(a: nat, b: nat, c: nat)
    requires a <= b
    ensures a * c <= b * c
  {
  }

  lemma BlockSize(n: nat, nc: nat)
    requires n > 0
    ensures (n - 1) * nc + nc == n * nc
  {
  }

  lemma {:induction false} FlattenLength(rows: seq<Row>, keys: seq<string>)
    requires Flatten(rows, keys).Ok?
    ensures |Flatten(rows, keys).value| == |rows| * |keys|
    decreases |rows|
  {
    if rows != [] {
      FlattenLength(rows[..|rows| - 1], keys);
      BlockSize(|rows|, |keys|);
    }
  }

  /** Entry `Pos(i, j, nc)` of the flat list is row `i`'s value for key
      `j`. */
  lemma {:induction false} FlattenAt(rows: seq<Row>, keys: seq<string>, i: nat, j: nat)
    requires Flatten(rows, keys).Ok? && i < |rows| && j < |keys|
    ensures Pos(i, j, |keys|) < |Flatten(rows, keys).value|
    ensures Flatten(rows, keys).value[Pos(i, j, |keys|)] == Lookup(rows[i], keys[j]).value
    decreases |rows|
  {
    var n, nc := |rows|, |keys|;
    var front := rows[..n - 1];
    FlattenLength(rows, keys);
    FlattenLength(front, keys);
    BlockIndex(i, j, n, nc);
    var flat := Flatten(rows, keys).value;
    var head := Flatten(front, keys).value;
    var last := RowValues(rows[n - 1], keys).value;
    assert flat == head + last;
    if i < n - 1 {
      FlattenAt(front, keys, i, j);
      assert front[i] == rows[i];
    }
  }

  /** The 1-based coordinates of the cells of `worksheet.range` from
      (`startRow`, 1) to (`startRow + n - 1`, `nc`), row by row. */
  function RangeCoords(startRow: int, n: nat, nc: nat): seq<(int, int)>
    decreases n
  {
    if n == 0 then []
    else RangeCoords(startRow, n - 1, nc) + seq(nc, j requires 0 <= j < nc => (startRow + n - 1, j + 1))
  }

  lemma {:induction false} RangeCoordsLength(startRow: int, n: nat, nc: nat)
    ensures |RangeCoords(startRow, n, nc)| == n * nc
    decreases n
  {
    if n > 0 {
      RangeCoordsLength(startRow, n - 1, nc);
      BlockSize(n, nc);
    }
  }

  /** Cell `Pos(i, j, nc)` of the range is at row `startRow + i`, column
      `j + 1`. */
  lemma {:induction false} RangeCoordAt(startRow: int, n: nat, nc: nat, i: nat, j: nat)
    requires i < n && j < nc
    ensures Pos(i, j, nc) < |RangeCoords(startRow, n, nc)|
    ensures RangeCoords(startRow, n, nc)[Pos(i, j, nc)] == (startRow + i, j + 1)
    decreases n
  {
    RangeCoordsLength(startRow, n, nc);
    RangeCoordsLength(startRow, n - 1, nc);
    BlockIndex(i, j, n, nc);
    if i < n - 1 {
      RangeCoordAt(startRow, n - 1, nc, i, j);
    }
  }

  /** `zip(cell_list, flat_list)` with each value assigned to its cell. */
  function Zip<T>(coords: seq<(int, int)>, values: seq<T>): (r: seq<CellWrite<T>>)
    ensures |r| == if |coords| < |values| then |coords| else |values|
    ensures forall k :: 0 <= k < |r| ==> r[k] == CellWrite(coords[k].0, coords[k].1, values[k])
  {
    var len := if |coords| < |values| then |coords| else |values|;
    seq(len, k requires 0 <= k < len => CellWrite(coords[k].0, coords[k].1, values[k]))
  }

  function HeaderWrites(keys: seq<string>): (r: seq<CellWrite<string>>)
    ensures |r| == |keys|
    ensures forall j :: 0 <= j < |keys| ==> r[j] == CellWrite(1, j + 1, keys[j])
  {
    seq(|keys|, j requires 0 <= j < |keys| => CellWrite(1, j + 1, keys[j]))
  }

  /** What `dict_to_sheet` hands to the service for `rows` written from
      `startRow`, with the keys of the first row. */
  function SheetPlan(rows: seq<Row>, startRow: int, sheetId: int): Result<SheetWrite, SheetError> {
    if rows == [] then Err(NoRows)
    else
      var keys := Keys(rows[0]);
      var flat :- Flatten(rows, keys);
      Ok(SheetWrite(HeaderWrites(keys), Zip(RangeCoords(startRow, |rows|, |keys|), flat),
                    BatchesFor(ReviewColumns, keys, sheetId, startRow, |rows|)))
  }

  /** The plan of a non-empty list, part by part. */
  lemma SheetPlanParts(rows: seq<Row>, startRow: int, sheetId: int)
    requires rows != []
    ensures var keys := Keys(rows[0]); var flat := Flatten(rows, keys);
      && (SheetPlan(rows, startRow, sheetId).Ok? <==> flat.Ok?)
      && (flat.Ok? ==>
            && SheetPlan(rows, startRow, sheetId).value.headers == HeaderWrites(keys)
            && SheetPlan(rows, startRow, sheetId).value.cells == Zip(RangeCoords(startRow, |rows|, |keys|), flat.value))
  {
  }

  /** The write fails exactly when the list is empty or some row lacks a
      key of the first. */
  lemma SheetPlanFails(rows: seq<Row>, startRow: int, sheetId: int)
    ensures rows == [] ==> SheetPlan(rows, startRow, sheetId) == Err(NoRows)
    ensures rows != [] ==>
      (SheetPlan(rows, startRow, sheetId).Ok? <==>
       forall i, j :: 0 <= i < |rows| && 0 <= j < |rows[0]| ==> Lookup(rows[i], rows[0][j].0).Some?)
  {
    if rows != [] {
      SheetPlanParts(rows, startRow, sheetId);
    }
  }

  /** Headers are the first row's keys in row 1; the cell at row
      `startRow + i`, column `j + 1` holds row `i`'s value for key `j`, and
      there is one cell per row and key. */
  lemma SheetLayout(rows: seq<Row>, startRow: int, sheetId: int)
    requires SheetPlan(rows, startRow, sheetId).Ok?
    ensures rows != []
    ensures var w, keys := SheetPlan(rows, startRow, sheetId).value, Keys(rows[0]);
      && w.headers == HeaderWrites(keys)
      && |w.cells| == |rows| * |keys|
      && forall i, j :: 0 <= i < |rows| && 0 <= j < |keys| ==>
           Pos(i, j, |keys|) < |w.cells|
           && w.cells[Pos(i, j, |keys|)] == CellWrite(startRow + i, j + 1, Lookup(rows[i], keys[j]).value)
  {
    var keys := Keys(rows[0]);
    SheetPlanParts(rows, startRow, sheetId);
    FlattenLength(rows, keys);
    RangeCoordsLength(startRow, |rows|, |keys|);
    var w := SheetPlan(rows, startRow, sheetId).value;
    forall i, j | 0 <= i < |rows| && 0 <= j < |keys|
      ensures Pos(i, j, |keys|) < |w.cells|
      ensures w.cells[Pos(i, j, |keys|)] == CellWrite(startRow + i, j + 1, Lookup(rows[i], keys[j]).value)
    {
      FlattenAt(rows, keys, i, j);
      RangeCoordAt(startRow, |rows|, |keys|, i, j);
    }
  }

  /** A cell of the batch write, as `worksheet.range` hands it out. */
  class Cell {
    const row: int
    const col: int
    var value: Value

    constructor (row: int, col: int)
      ensures this.row == row && this.col == col && value == Null
    {
      this.row, this.col := row, col;
      value := Null;
    }
  }

  /** The `zip` loop: each cell takes the value at its position; cells
      beyond the values keep theirs. */
  method AssignValues(cells: seq<Cell>, flat: seq<Value>)
    requires forall a, b :: 0 <= a < b < |cells| ==> cells[a] != cells[b]
    modifies set k | 0 <= k < |cells| :: cells[k]
    ensures forall k :: 0 <= k < |cells| && k < |flat| ==> cells[k].value == flat[k]
    ensures forall k :: 0 <= k < |cells| && |flat| <= k ==> cells[k].value == old(cells[k].value)
  {
    var k := 0;
    while k < |cells| && k < |flat|
      invariant 0 <= k <= |cells| && k <= |flat|
      invariant forall m :: 0 <= m < k && m < |flat| ==> cells[m].value == flat[m]
      invariant forall m :: k <= m < |cells| ==> cells[m].value == old(cells[m].value)
    {
      cells[k].value := flat[k];
      k := k + 1;
    }
  }

  /** `dict_to_sheet`, step by step: headers, the cell block, the value
      assignment, then the requests of each reviewer column present. */
  method DictToSheet(rows: seq<Row>, startRow: int, sheetId: int) returns (r: Result<SheetWrite, SheetError>)
    ensures r == SheetPlan(rows, startRow, sheetId)
  {
    if |rows| == 0 {
      return Err(NoRows);
    }
    var keys := Keys(rows[0]);
    var headers := WriteHeaders(keys);
    var coords := RangeCoords(startRow, |rows|, |keys|);
    var cells := NewCells(coords);
    var flat :- Flatten(rows, keys);
    AssignValues(cells, flat);
    var written := CollectWrites(cells, coords, flat);
    var batches := ReviewBatches(keys, sheetId, startRow, |rows|);
    r := Ok(SheetWrite(headers, written, batches));
  }

  /** The header loop: key `j` goes to row 1, column `j + 1`. */
  method WriteHeaders(keys: seq<string>) returns (headers: seq<CellWrite<string>>)
    ensures headers == HeaderWrites(keys)
  {
    headers := [];
    for j := 0 to |keys|
      invariant headers == HeaderWrites(keys[..j])
    {
      headers := headers + [CellWrite(1, j + 1, keys[j])];
    }
    assert keys[..|keys|] == keys;
  }

  /** `worksheet.range`: one new, distinct cell per coordinate. */
  method NewCells(coords: seq<(int, int)>) returns (cells: seq<Cell>)
    ensures |cells| == |coords|
    ensures forall m :: 0 <= m < |cells| ==> cells[m].row == coords[m].0 && cells[m].col == coords[m].1
    ensures forall a, b :: 0 <= a < b < |cells| ==> cells[a] != cells[b]
    ensures forall m :: 0 <= m < |cells| ==> fresh(cells[m])
  {
    cells := [];
    for k := 0 to |coords|
      invariant |cells| == k
      invariant forall m :: 0 <= m < k ==> cells[m].row == coords[m].0 && cells[m].col == coords[m].1
      invariant forall a, b :: 0 <= a < b < k ==> cells[a] != cells[b]
      invariant forall m :: 0 <= m < k ==> fresh(cells[m])
    {
      var cell := new Cell(coords[k].0, coords[k].1);
      cells := cells + [cell];
    }
  }

  /** What the batch write sends: each assigned cell with its coordinates
      and value, up to the shorter of cells and values. */
  method CollectWrites(cells: seq<Cell>, coords: seq<(int, int)>, flat: seq<Value>) returns (written: seq<CellWrite<Value>>)
    requires |cells| == |coords|
    requires forall m :: 0 <= m < |cells| ==> cells[m].row == coords[m].0 && cells[m].col == coords[m].1
    requires forall k :: 0 <= k < |cells| && k < |flat| ==> cells[k].value == flat[k]
    ensures written == Zip(coords, flat)
  {
    written := [];
    var len := if |cells| < |flat| then |cells| else |flat|;
    for k := 0 to len
      invariant written == Zip(coords, flat)[..k]
    {
      written := written + [CellWrite(cells[k].row, cells[k].col, cells[k].value)];
    }
  }

  /** The loop over the reviewer columns: a batch for each one `keys`
      holds, at its first index. */
  method ReviewBatches(keys: seq<string>, sheetId: int, startRow: int, n: nat) returns (batches: seq<seq<Request>>)
    ensures batches == BatchesFor(ReviewColumns, keys, sheetId, startRow, n)
  {
    batches := [];
    for c := 0 to |ReviewColumns|
      invariant batches == BatchesFor(ReviewColumns[..c], keys, sheetId, startRow, n)
    {
      var columnName := ReviewColumns[c];
      assert ReviewColumns[..c + 1][..c] == ReviewColumns[..c];
      if columnName in keys {
        var columnIndex := IndexOf(keys, columnName) + 1;
        batches := batches + [ReviewBatch(sheetId, startRow, n, columnIndex - 1)];
      }
    }
    assert ReviewColumns[..|ReviewColumns|] == ReviewColumns;
  }

  /** Rows that all carry the same distinct keys are written whole: row
      `i`'s entry `j` lands at sheet row `startRow + i`, column `j + 1`. */
  lemma UniformPlan(rows: seq<Row>, keys: seq<string>, startRow: int, sheetId: int)
    requires rows != [] && DistinctKeys(keys)
    requires forall i :: 0 <= i < |rows| ==> Keys(rows[i]) == keys
    ensures var plan := SheetPlan(rows, startRow, sheetId);
      && plan.Ok?
      && plan.value.headers == HeaderWrites(keys)
      && |plan.value.cells| == |rows| * |keys|
      && (forall i, j :: 0 <= i < |rows| && 0 <= j < |keys| ==>
            |rows[i]| == |keys| && Pos(i, j, |keys|) < |plan.value.cells|
            && plan.value.cells[Pos(i, j, |keys|)] == CellWrite(startRow + i, j + 1, rows[i][j].1))
      && plan.value.batches == BatchesFor(ReviewColumns, keys, sheetId, startRow, |rows|)
  {
    forall i, j | 0 <= i < |rows| && 0 <= j < |keys|
      ensures |rows[i]| == |keys| && Lookup(rows[i], keys[j]) == Some(rows[i][j].1)
    {
      assert Keys(rows[i])[j] == rows[i][j].0;
      LookupAt(rows[i], j);
    }
    SheetPlanParts(rows, startRow, sheetId);
    SheetLayout(rows, startRow, sheetId);
  }

  /** The rows of a successful run with at least one record, written from
      row 2: the sheet gets the eight column headers, every record's values
      in its own row, and batches for columns 7 and 8 (zero-based 6 and 7)
      over exactly the data rows. */
  lemma RunFillsSheet(anns: seq<AnnotationFolder>, sheetId: int, check: LinkCheck)
    requires BuildRows(anns, check).Ok? && anns != []
    ensures var rows := BuildRows(anns, check).value;
      var plan := SheetPlan(rows, 2, sheetId);
      && plan.Ok?
      && plan.value.headers == HeaderWrites(Columns)
      && |plan.value.cells| == |rows| * |Columns|
      && (forall i, j :: 0 <= i < |rows| && 0 <= j < |Columns| ==>
            |rows[i]| == |Columns| && Pos(i, j, |Columns|) < |plan.value.cells|
            && plan.value.cells[Pos(i, j, |Columns|)] == CellWrite(2 + i, j + 1, rows[i][j].1))
      && plan.value.batches == [ReviewBatch(sheetId, 2, |rows|, 6), ReviewBatch(sheetId, 2, |rows|, 7)]
  {
    var rows := BuildRows(anns, check).value;
    RowsHaveColumns(anns, check);
    ColumnsDistinct();
    UniformPlan(rows, Columns, 2, sheetId);
    ColumnBatches(sheetId, 2, |rows|);
  }

  /** Every row of the run has the reviewer columns at 6 and 7, so both
      get a batch, Annotation first. */
  lemma ColumnBatches(sheetId: int, startRow: int, n: nat)
    ensures BatchesFor(ReviewColumns, Columns, sheetId, startRow, n)
      == [ReviewBatch(sheetId, startRow, n, 6), ReviewBatch(sheetId, startRow, n, 7)]
  {
    BatchesForReviewColumns(Columns, sheetId, startRow, n);
    AnnotationColumns();
  }

  /** In distinct keys, the first position of a key is its only one. */
  lemma IndexOfDistinct(keys: seq<string>, k: nat)
    requires DistinctKeys(keys) && k < |keys|
    ensures keys[k] in keys && IndexOf(keys, keys[k]) == k
  {
    var r := IndexOf(keys, keys[k]);
    assert keys[r] == keys[k];
  }

  /** Where the reviewer columns sit among the columns of a row. */
  lemma AnnotationColumns()
    ensures "Annotation" in Columns && IndexOf(Columns, "Annotation") == 6
    ensures "Your Review" in Columns && IndexOf(Columns, "Your Review") == 7
  {
    ColumnsDistinct();
    IndexOfDistinct(Columns, 6);
    IndexOfDistinct(Columns, 7);
  }
}
