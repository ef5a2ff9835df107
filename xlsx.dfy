/**
 * The parts of a parsed workbook that the ingestion job reads. Parsing the file,
 * `decode_range` and the A1 addressing of `encode_cell` belong to the spreadsheet
 * library and are not modelled: a sheet's range arrives already decoded, and a
 * cell is looked up by its zero-based (row, column) pair.
 */
module Xlsx {
  import opened Wrappers

  /** The cell's value `v`; a date is an instant in milliseconds since the epoch. */
  datatype CellValue =
    | Text(s: string)
    | Number(n: real)
    | Bool(b: bool)
    | Date(instant: int)
    | NoValue

  /** The cell's hyperlink object `l`, whose `Target` may itself be missing. */
  datatype Hyperlink = Hyperlink(target: Option<string>)

  /** A cell object: value `v`, formatted text `w`, formula `f`, hyperlink `l`. */
  datatype Cell = Cell(v: CellValue, w: Option<string>, f: Option<string>, l: Option<Hyperlink>)

  /** A decoded `!ref`: start row/column `s` and end row/column `e`, both inclusive. */
  datatype Range = Range(sr: nat, sc: nat, er: nat, ec: nat)

  /** A worksheet: its `!ref` (absent for a sheet the library left without one) and its cells. */
  datatype Sheet = Sheet(ref: Option<Range>, cells: map<(nat, nat), Cell>)

  /** A workbook: `SheetNames` in tab order and the `Sheets` dictionary. */
  datatype Workbook = Workbook(sheetNames: seq<string>, sheets: map<string, Sheet>)
}
