/**
 * The grid-to-rows decoder (`convertXLSXToJSON`): every sheet, in `SheetNames`
 * order, becomes one row object per row index of its range, each keyed by the
 * text in row 0 of the cell's column.
 */
module Decoder {
  import opened Wrappers
  import opened JsObjects
  import opened Xlsx
  import opened SheetJson

  /** A sheet name with no sheet behind it, or a sheet without `!ref`: both throw. */
  datatype DecodeError = MissingSheet(name: string) | MissingRef(name: string)

  /** JavaScript's `typeof` of a cell value (a `Date` is an object). */
  function TypeOf(v: CellValue): string
  {
    match v
    case Text(_) => "string"
    case Number(_) => "number"
    case Bool(_) => "boolean"
    case Date(_) => "object"
    case NoValue => "undefined"
  }

  /** JavaScript's `typeof` of an emitted `raw_value`. */
  function TypeOfRaw(r: RawValue): string
  {
    match r
    case RawText(_) => "string"
    case RawNumber(_) => "number"
    case RawBool(_) => "boolean"
    case RawUndefined => "undefined"
  }

  /** Whether an emitted `raw_value` is the cell value itself, unconverted. */
  predicate SameValue(r: RawValue, v: CellValue)
  {
    match v
    case Text(s) => r == RawText(s)
    case Number(n) => r == RawNumber(n)
    case Bool(b) => r == RawBool(b)
    case Date(_) => false
    case NoValue => r == RawUndefined
  }

  /**
   * The column name of column `c`: the value of cell (0, c) when it is a
   * non-empty string (`colName && typeof colName === "string"`), else none.
   * Row 0 is used whatever row the sheet's range starts at.
   */
  function HeaderName(sheet: Sheet, c: nat): Option<string>
  {
    if (0, c) in sheet.cells && sheet.cells[(0, c)].v.Text? && sheet.cells[(0, c)].v.s != ""
    then Some(sheet.cells[(0, c)].v.s)
    else None
  }

  /**
   * The `CellData` built for an occupied cell. A date's `raw_value` is its ISO
   * text (`toIso` stands for `Date.prototype.toISOString`), yet its `data_type`
   * is "object": the type tag agrees with the emitted value exactly when the
   * cell is not a date.
   */
  function ToCellData(cell: Cell, toIso: int -> string): (d: CellData)
    ensures cell.v.Date? ==> d.rawValue == RawText(toIso(cell.v.instant)) && d.dataType == "object"
    ensures !cell.v.Date? ==> SameValue(d.rawValue, cell.v)
    ensures d.dataType == TypeOfRaw(d.rawValue) <==> !cell.v.Date?
    ensures d.formula.Some? <==> cell.f.Some? && cell.f.value != ""
    ensures d.formula.Some? ==> d.formula == cell.f
    ensures d.rowStrValue == cell.w
    ensures d.hyperlink.Some? <==> cell.l.Some? && cell.l.value.target.Some?
    ensures d.hyperlink.Some? ==> d.hyperlink == cell.l.value.target
  {
    var raw :=
      match cell.v
      case Text(s) => RawText(s)
      case Number(n) => RawNumber(n)
      case Bool(b) => RawBool(b)
      case Date(t) => RawText(toIso(t))
      case NoValue => RawUndefined;
    CellData(
      rawValue := raw,
      rowStrValue := cell.w,
      formula := if cell.f.Some? && cell.f.value != "" then cell.f else None,
      hyperlink := if cell.l.Some? then cell.l.value.target else None,
      dataType := TypeOf(cell.v))
  }

  /** Column `c` of row `r` writes key `k`: the cell is occupied and its column is named `k`. */
  predicate Contributes(sheet: Sheet, r: nat, c: nat, k: string)
  {
    (r, c) in sheet.cells && HeaderName(sheet, c) == Some(k)
  }

  /** The body of the column loop for column `c` of row `r`. */
  function Step(row: Row, sheet: Sheet, r: nat, c: nat, toIso: int -> string): Row
  {
    if (r, c) in sheet.cells && HeaderName(sheet, c).Some?
    then Put(row, HeaderName(sheet, c).value, ToCellData(sheet.cells[(r, c)], toIso))
    else row
  }

  /** Row `r` after the column loop has visited columns `c0` to `c - 1`. */
  function RowUpTo(sheet: Sheet, r: nat, c0: nat, c: int, toIso: int -> string): Row
    decreases c - c0
  {
    if c <= c0 then Empty()
    else Step(RowUpTo(sheet, r, c0, c - 1, toIso), sheet, r, c - 1, toIso)
  }

  /** Row `r` of a sheet with range `range`: every column of the range visited. */
  function DecodeRow(sheet: Sheet, range: Range, r: nat, toIso: int -> string): Row
  {
    RowUpTo(sheet, r, range.sc, range.ec + 1, toIso)
  }

  /** Rows `lo` to `hi - 1`, one row object per index, empty ones included. */
  function RowsBetween(sheet: Sheet, range: Range, lo: nat, hi: int, toIso: int -> string): (rows: seq<Row>)
    ensures |rows| == if hi <= lo then 0 else hi - lo
    ensures forall j :: 0 <= j < |rows| ==> rows[j] == DecodeRow(sheet, range, lo + j, toIso)
    decreases hi - lo
  {
    if hi <= lo then []
    else RowsBetween(sheet, range, lo, hi - 1, toIso) + [DecodeRow(sheet, range, hi - 1, toIso)]
  }

  /** The number of row indices from `s.r` to `e.r` inclusive. */
  function RowCount(range: Range): nat
  {
    if range.er < range.sr then 0 else range.er - range.sr + 1
  }

  /** Whether sheet `name` can be decoded: it exists and has a `!ref`. */
  predicate Decodable(wb: Workbook, name: string)
  {
    name in wb.sheets && wb.sheets[name].ref.Some?
  }

  /** The `{ [name]: json }` object of one sheet, or the error its lookup throws. */
  function DecodeSheet(wb: Workbook, name: string, toIso: int -> string): (r: Result<SheetData, DecodeError>)
    ensures r.Ok? <==> Decodable(wb, name)
    ensures r.Ok? ==> r.value.name == name && |r.value.rows| == RowCount(wb.sheets[name].ref.value)
  {
    if name !in wb.sheets then Err(MissingSheet(name))
    else
      var sheet := wb.sheets[name];
      if sheet.ref.None? then Err(MissingRef(name))
      else
        var range := sheet.ref.value;
        Ok(SheetData(name, RowsBetween(sheet, range, range.sr, range.er + 1, toIso)))
  }

  /** The first `n` sheets of `SheetNames` decoded, stopping at the first that throws. */
  function DecodeSheets(wb: Workbook, n: nat, toIso: int -> string): Result<seq<SheetData>, DecodeError>
    requires n <= |wb.sheetNames|
  {
    if n == 0 then Ok([])
    else
      match DecodeSheets(wb, n - 1, toIso)
      case Err(e) => Err(e)
      case Ok(prefix) =>
        match DecodeSheet(wb, wb.sheetNames[n - 1], toIso)
        case Err(e) => Err(e)
        case Ok(s) => Ok(prefix + [s])
  }

  /** The result of `convertXLSXToJSON` on a workbook. */
  function Decoded(wb: Workbook, toIso: int -> string): Result<seq<SheetData>, DecodeError>
  {
    DecodeSheets(wb, |wb.sheetNames|, toIso)
  }

  /** Once a sheet has thrown, the later sheets do not matter. */
  lemma {:induction false} ErrorPersists(wb: Workbook, m: nat, n: nat, toIso: int -> string)
    requires m <= n <= |wb.sheetNames|
    requires DecodeSheets(wb, m, toIso).Err?
    ensures DecodeSheets(wb, n, toIso) == DecodeSheets(wb, m, toIso)
    decreases n - m
  {
    if m < n {
      ErrorPersists(wb, m, n - 1, toIso);
    }
  }

  /**
   * Decoding succeeds exactly when every named sheet exists and has a range;
   * it then emits one object per sheet in `SheetNames` order, each with one
   * row per row index of the sheet's range.
   */
  lemma {:induction false} DecodeSheetsShape(wb: Workbook, n: nat, toIso: int -> string)
    requires n <= |wb.sheetNames|
    ensures DecodeSheets(wb, n, toIso).Ok? <==> forall i :: 0 <= i < n ==> Decodable(wb, wb.sheetNames[i])
    ensures DecodeSheets(wb, n, toIso).Ok? ==>
      var out := DecodeSheets(wb, n, toIso).value;
      && |out| == n
      && forall i :: 0 <= i < n ==>
        && out[i].name == wb.sheetNames[i]
        && DecodeSheet(wb, wb.sheetNames[i], toIso) == Ok(out[i])
  {
    if n > 0 {
      DecodeSheetsShape(wb, n - 1, toIso);
      if DecodeSheets(wb, n - 1, toIso).Ok? && DecodeSheet(wb, wb.sheetNames[n - 1], toIso).Ok? {
        var out := DecodeSheets(wb, n, toIso).value;
        var prefix := DecodeSheets(wb, n - 1, toIso).value;
        assert out == prefix + [DecodeSheet(wb, wb.sheetNames[n - 1], toIso).value];
      }
    }
  }

  /**
   * `convertXLSXToJSON` throws exactly when some named sheet is missing or has
   * no `!ref`; otherwise sheet `i` of the output is named `SheetNames[i]` and
   * holds exactly `e.r - s.r + 1` rows, row `j` being the decoded row `s.r + j`
   * (so the header row itself is emitted when the range starts at row 0).
   */
  lemma DecodedShape(wb: Workbook, toIso: int -> string)
    ensures Decoded(wb, toIso).Ok? <==> forall i :: 0 <= i < |wb.sheetNames| ==> Decodable(wb, wb.sheetNames[i])
    ensures Decoded(wb, toIso).Ok? ==>
      var out := Decoded(wb, toIso).value;
      && Names(out) == wb.sheetNames
      && forall i :: 0 <= i < |out| ==>
        var sheet := wb.sheets[wb.sheetNames[i]];
        var range := sheet.ref.value;
        && |out[i].rows| == RowCount(range)
        && forall j :: 0 <= j < |out[i].rows| ==> out[i].rows[j] == DecodeRow(sheet, range, range.sr + j, toIso)
  {
    DecodeSheetsShape(wb, |wb.sheetNames|, toIso);
  }

  /**
   * A key is present in a decoded row exactly when some visited column of that
   * row is occupied and headed by that key.
   */
  lemma {:induction false} RowKeys(sheet: Sheet, r: nat, c0: nat, c: int, toIso: int -> string, k: string)
    ensures k in RowUpTo(sheet, r, c0, c, toIso).entries <==>
      exists col :: c0 <= col < c && Contributes(sheet, r, col, k)
    decreases c - c0
  {
    if c > c0 {
      RowKeys(sheet, r, c0, c - 1, toIso, k);
      if Contributes(sheet, r, c - 1, k) {
        assert k in RowUpTo(sheet, r, c0, c, toIso).entries;
      }
    }
  }

  /**
   * The value under a key is the cell of the LAST visited column headed by that
   * key: a later column with the same header overwrites an earlier one.
   */
  lemma {:induction false} RowValue(sheet: Sheet, r: nat, c0: nat, c: int, toIso: int -> string, col: nat, k: string)
    requires c0 <= col < c && Contributes(sheet, r, col, k)
    requires forall later :: col < later < c ==> !Contributes(sheet, r, later, k)
    ensures k in RowUpTo(sheet, r, c0, c, toIso).entries
    ensures RowUpTo(sheet, r, c0, c, toIso).entries[k] == ToCellData(sheet.cells[(r, col)], toIso)
    decreases c - c0
  {
    if col < c - 1 {
      RowValue(sheet, r, c0, c - 1, toIso, col, k);
      assert !Contributes(sheet, r, c - 1, k);
    }
  }

  /** `col` is the first visited column of row `r` that writes key `k`. */
  predicate FirstContributor(sheet: Sheet, r: nat, c0: nat, col: nat, k: string)
  {
    c0 <= col && Contributes(sheet, r, col, k) && forall earlier :: c0 <= earlier < col ==> !Contributes(sheet, r, earlier, k)
  }

  /** The column loop's body adds key `k` exactly when column `c` writes it. */
  lemma StepKeys(row: Row, sheet: Sheet, r: nat, c: nat, toIso: int -> string, k: string)
    ensures k in Step(row, sheet, r, c, toIso).entries <==> k in row.entries || Contributes(sheet, r, c, k)
  {
  }

  /** A key first present after column `c - 1` was written by that column, and by no earlier one. */
  lemma NewKeyFirstContributor(sheet: Sheet, r: nat, c0: nat, c: int, toIso: int -> string, k: string)
    requires c > c0
    requires k in RowUpTo(sheet, r, c0, c, toIso).entries
    requires k !in RowUpTo(sheet, r, c0, c - 1, toIso).entries
    ensures FirstContributor(sheet, r, c0, c - 1, k)
  {
    NewKeyWrittenByLastColumn(sheet, r, c0, c, toIso, k);
    NoContributorOfAbsentKey(sheet, r, c0, c - 1, toIso, k);
  }

  /** A key first present after column `c - 1` was written by that column. */
  lemma NewKeyWrittenByLastColumn(sheet: Sheet, r: nat, c0: nat, c: int, toIso: int -> string, k: string)
    requires c > c0
    requires k in RowUpTo(sheet, r, c0, c, toIso).entries
    requires k !in RowUpTo(sheet, r, c0, c - 1, toIso).entries
    ensures Contributes(sheet, r, c - 1, k)
  {
    var prev := RowUpTo(sheet, r, c0, c - 1, toIso);
    StepKeys(prev, sheet, r, c - 1, toIso, k);
  }

  /** A key absent from a row is written by none of the visited columns. */
  lemma NoContributorOfAbsentKey(sheet: Sheet, r: nat, c0: nat, c: int, toIso: int -> string, k: string)
    requires k !in RowUpTo(sheet, r, c0, c, toIso).entries
    ensures forall col :: c0 <= col < c ==> !Contributes(sheet, r, col, k)
  {
    RowKeys(sheet, r, c0, c, toIso, k);
  }

  /** Every key of a decoded row has a first contributing column among the visited ones. */
  lemma {:induction false} FirstContributorExists(sheet: Sheet, r: nat, c0: nat, c: int, toIso: int -> string, k: string)
    returns (col: nat)
    requires k in RowUpTo(sheet, r, c0, c, toIso).entries
    ensures col < c && FirstContributor(sheet, r, c0, col, k)
    decreases c - c0
  {
    if k in RowUpTo(sheet, r, c0, c - 1, toIso).entries {
      col := FirstContributorExists(sheet, r, c0, c - 1, toIso, k);
    } else {
      NewKeyFirstContributor(sheet, r, c0, c, toIso, k);
      col := c - 1;
    }
  }

  /**
   * A decoded row is a well-formed object: `Object.keys` lists every key of
   * the row exactly once.
   */
  lemma {:induction false} RowWellFormed(sheet: Sheet, r: nat, c0: nat, c: int, toIso: int -> string)
    ensures RowUpTo(sheet, r, c0, c, toIso).Valid()
    decreases c - c0
  {
    if c > c0 {
      RowWellFormed(sheet, r, c0, c - 1, toIso);
    }
  }

  /** A key has one first contributing column. */
  lemma FirstContributorUnique(sheet: Sheet, r: nat, c0: nat, a: nat, b: nat, k: string)
    requires FirstContributor(sheet, r, c0, a, k) && FirstContributor(sheet, r, c0, b, k)
    ensures a == b
  {
  }

  /** Visiting column `c - 1` keeps the key list of the row so far as a prefix and appends at most one new key. */
  lemma RowGrowth(sheet: Sheet, r: nat, c0: nat, c: int, toIso: int -> string)
    requires c > c0
    ensures var prev := RowUpTo(sheet, r, c0, c - 1, toIso);
            var row := RowUpTo(sheet, r, c0, c, toIso);
            && prev.keys <= row.keys
            && |row.keys| <= |prev.keys| + 1
            && (|row.keys| > |prev.keys| ==> row.keys[|prev.keys|] !in prev.entries)
  {
  }

  /** Keys listed in the order of the first column that writes each of them. */
  ghost predicate InFirstColumnOrder(sheet: Sheet, r: nat, c0: nat, keys: seq<string>)
  {
    forall i, j, ci, cj ::
      0 <= i < j < |keys| && FirstContributor(sheet, r, c0, ci, keys[i]) && FirstContributor(sheet, r, c0, cj, keys[j])
      ==> ci < cj
  }

  /** Every key already in the row was first written before column `c`. */
  lemma KeysFirstWrittenBefore(sheet: Sheet, r: nat, c0: nat, c: int, toIso: int -> string)
    ensures forall k, col: nat :: k in RowUpTo(sheet, r, c0, c, toIso).entries && FirstContributor(sheet, r, c0, col, k) ==> col < c
  {
    forall k, col: nat | k in RowUpTo(sheet, r, c0, c, toIso).entries && FirstContributor(sheet, r, c0, col, k)
      ensures col < c
    {
      var first := FirstContributorExists(sheet, r, c0, c, toIso, k);
      FirstContributorUnique(sheet, r, c0, col, first, k);
    }
  }

  /** Appending a key whose first column comes after every listed key's keeps the order. */
  lemma AppendKeepsOrder(sheet: Sheet, r: nat, c0: nat, keys: seq<string>, k: string, ck: nat)
    requires InFirstColumnOrder(sheet, r, c0, keys)
    requires FirstContributor(sheet, r, c0, ck, k)
    requires forall i, col: nat :: 0 <= i < |keys| && FirstContributor(sheet, r, c0, col, keys[i]) ==> col < ck
    ensures InFirstColumnOrder(sheet, r, c0, keys + [k])
  {
    var ks := keys + [k];
    forall i, j, ci, cj | 0 <= i < j < |ks| && FirstContributor(sheet, r, c0, ci, ks[i]) && FirstContributor(sheet, r, c0, cj, ks[j])
      ensures ci < cj
    {
      assert ks[i] == keys[i];
      if j == |keys| {
        FirstContributorUnique(sheet, r, c0, cj, ck, k);
      } else {
        assert ks[j] == keys[j];
      }
    }
  }

  /** Visiting one more column keeps the row's keys in first-column order. */
  lemma RowKeyOrderStep(sheet: Sheet, r: nat, c0: nat, c: int, toIso: int -> string)
    requires c > c0
    requires InFirstColumnOrder(sheet, r, c0, RowUpTo(sheet, r, c0, c - 1, toIso).keys)
    ensures InFirstColumnOrder(sheet, r, c0, RowUpTo(sheet, r, c0, c, toIso).keys)
  {
    var row := RowUpTo(sheet, r, c0, c, toIso);
    var prev := RowUpTo(sheet, r, c0, c - 1, toIso);
    RowGrowth(sheet, r, c0, c, toIso);
    if |row.keys| > |prev.keys| {
      var k := row.keys[|prev.keys|];
      assert row.keys == prev.keys + [k];
      NewKeyFirstContributor(sheet, r, c0, c, toIso, k);
      KeysFirstWrittenBefore(sheet, r, c0, c - 1, toIso);
      RowWellFormed(sheet, r, c0, c - 1, toIso);
      AppendKeepsOrder(sheet, r, c0, prev.keys, k, c - 1);
    } else {
      assert row.keys == prev.keys;
    }
  }

  /**
   * `Object.keys` of a decoded row lists its column names in the order of the
   * first column each one heads.
   */
  lemma {:induction false} RowKeyOrder(sheet: Sheet, r: nat, c0: nat, c: int, toIso: int -> string)
    ensures InFirstColumnOrder(sheet, r, c0, RowUpTo(sheet, r, c0, c, toIso).keys)
    decreases c - c0
  {
    if c > c0 {
      RowKeyOrder(sheet, r, c0, c - 1, toIso);
      RowKeyOrderStep(sheet, r, c0, c, toIso);
    }
  }

  /**
   * The header row is emitted as data: when a sheet's range starts at row 0,
   * the first emitted row maps a header text to its own header cell (taken
   * from the last column of the range that carries that header).
   */
  lemma HeaderRowEmitted(wb: Workbook, toIso: int -> string, i: nat, c: nat, h: string)
    requires Decoded(wb, toIso).Ok?
    requires i < |wb.sheetNames| && Decodable(wb, wb.sheetNames[i])
    requires var sheet := wb.sheets[wb.sheetNames[i]];
             var range := sheet.ref.value;
             && range.sr == 0 && range.sc <= c <= range.ec
             && HeaderName(sheet, c) == Some(h)
             && forall later :: c < later <= range.ec ==> HeaderName(sheet, later) != Some(h)
    ensures var out := Decoded(wb, toIso).value;
            && i < |out| && |out[i].rows| > 0
            && h in out[i].rows[0].entries
            && out[i].rows[0].entries[h].rawValue == RawText(h)
            && out[i].rows[0].entries[h].dataType == "string"
  {
    DecodedShape(wb, toIso);
    var sheet := wb.sheets[wb.sheetNames[i]];
    var range := sheet.ref.value;
    RowValue(sheet, 0, range.sc, range.ec + 1, toIso, c, h);
  }

  /** The column loop of `convertXLSXToJSON` for row `rowNum`. */
  method ConvertRow(sheet: Sheet, range: Range, rowNum: nat, toIso: int -> string) returns (row: Row)
    ensures row == DecodeRow(sheet, range, rowNum, toIso)
  {
    row := Empty();
    var colNum: int := range.sc;
    while colNum <= range.ec
      invariant range.sc <= colNum <= if range.ec < range.sc then range.sc else range.ec + 1
      invariant row == RowUpTo(sheet, rowNum, range.sc, colNum, toIso)
    {
      if (rowNum, colNum) in sheet.cells {
        var nextCell := sheet.cells[(rowNum, colNum)];
        var colName := HeaderName(sheet, colNum);
        if colName.Some? {
          row := Put(row, colName.value, ToCellData(nextCell, toIso));
        }
      }
      colNum := colNum + 1;
    }
  }

  /** The row loop of `convertXLSXToJSON` for one sheet: one row object per row index of the range. */
  method ConvertRows(sheet: Sheet, range: Range, toIso: int -> string) returns (json: seq<Row>)
    ensures json == RowsBetween(sheet, range, range.sr, range.er + 1, toIso)
  {
    json := [];
    var rowNum: int := range.sr;
    while rowNum <= range.er
      invariant range.sr <= rowNum <= if range.er < range.sr then range.sr else range.er + 1
      invariant json == RowsBetween(sheet, range, range.sr, rowNum, toIso)
    {
      var row := ConvertRow(sheet, range, rowNum, toIso);
      json := json + [row];
      rowNum := rowNum + 1;
    }
  }

  /**
   * `convertXLSXToJSON`: walks every sheet's range row by row and column by
   * column, pushing one row object per row index and one `{ [name]: rows }`
   * object per sheet. `toIso` stands for `Date.prototype.toISOString`.
   */
  method ConvertXlsxToJson(wb: Workbook, toIso: int -> string) returns (res: Result<seq<SheetData>, DecodeError>)
    ensures res == Decoded(wb, toIso)
  {
    var result: seq<SheetData> := [];
    for i := 0 to |wb.sheetNames|
      invariant DecodeSheets(wb, i, toIso) == Ok(result)
    {
      var name := wb.sheetNames[i];
      if name !in wb.sheets {
        ErrorPersists(wb, i + 1, |wb.sheetNames|, toIso);
        return Err(MissingSheet(name));
      }
      var sheet := wb.sheets[name];
      if sheet.ref.None? {
        ErrorPersists(wb, i + 1, |wb.sheetNames|, toIso);
        return Err(MissingRef(name));
      }
      var json := ConvertRows(sheet, sheet.ref.value, toIso);
      result := result + [SheetData(name, json)];
    }
    return Ok(result);
  }
}
