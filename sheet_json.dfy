/** The JSON shape the ingestion job produces: cells, header-keyed rows and one object per sheet. */
module SheetJson {
  import opened Wrappers
  import opened JsObjects

  /** `raw_value`: a string, number or boolean, or `undefined` for a cell without a value. */
  datatype RawValue =
    | RawText(s: string)
    | RawNumber(n: real)
    | RawBool(b: bool)
    | RawUndefined

  /**
   * `CellData`: `row_str_value` and `hyperlink` are `undefined` when absent,
   * `formula` is `null` when absent; `data_type` is the text `typeof` gave.
   */
  datatype CellData = CellData(
    rawValue: RawValue,
    rowStrValue: Option<string>,
    formula: Option<string>,
    hyperlink: Option<string>,
    dataType: string)

  /** `RowData`: column name to cell. */
  type Row = JsObject<CellData>

  /** `{ [sheetName]: rows }`, the single-key object emitted per sheet. */
  datatype SheetData = SheetData(name: string, rows: seq<Row>)

  /** The sheet names of a document, in order. */
  function Names(data: seq<SheetData>): (names: seq<string>)
    ensures |names| == |data|
    ensures forall i :: 0 <= i < |data| ==> names[i] == data[i].name
  {
    seq(|data|, i requires 0 <= i < |data| => data[i].name)
  }
}
