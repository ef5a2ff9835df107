/**
 * The row-density cleanup (`performSmartCleanup`): per sheet, rows whose key
 * count is below half the densest row's are removed.
 */
module Cleanup {
  import opened JsObjects
  import opened SheetJson

  /** `SMART_CLEANUP.MIN_COLUMN_VALUE_PERC_THRESHOLD` */
  const MinColumnValuePercThreshold: real := 0.5

  /** `Object.keys(row).length` */
  function KeyCount(row: Row): nat
  {
    row.Count()
  }

  /**
   * `maxColumns`: the `reduce` from 0 that keeps the larger of the running
   * value and each row's key count, i.e. the largest key count, or 0 without rows.
   */
  function MaxColumns(rows: seq<Row>): (m: nat)
    ensures forall i :: 0 <= i < |rows| ==> KeyCount(rows[i]) <= m
    ensures |rows| == 0 ==> m == 0
    ensures |rows| > 0 ==> exists i :: 0 <= i < |rows| && KeyCount(rows[i]) == m
  {
    if |rows| == 0 then 0
    else
      var acc := MaxColumns(rows[..|rows| - 1]);
      var rowLength := KeyCount(rows[|rows| - 1]);
      if rowLength > acc then rowLength else acc
  }

  /**
   * The filter test `rowLength / maxColumns >= 0.5` as JavaScript evaluates it
   * on these integers: with `maxColumns == 0` the quotient is NaN (for 0) or
   * Infinity (otherwise), and NaN compares false.
   */
  predicate MeetsThreshold(rowLength: nat, maxColumns: nat)
  {
    if maxColumns == 0 then rowLength > 0
    else (rowLength as real) / (maxColumns as real) >= MinColumnValuePercThreshold
  }

  /**
   * For a row no longer than the densest one, the ratio test is the integer
   * test `maxColumns > 0 && 2 * rowLength >= maxColumns`: exactly half is kept,
   * and when every row is empty (0 / 0) nothing is.
   */
  lemma ThresholdIsHalf(rowLength: nat, maxColumns: nat)
    requires rowLength <= maxColumns
    ensures MeetsThreshold(rowLength, maxColumns) <==> maxColumns > 0 && 2 * rowLength >= maxColumns
  {
    if maxColumns > 0 {
      var q := (rowLength as real) / (maxColumns as real);
      assert q * (maxColumns as real) == rowLength as real;
      if q >= 0.5 {
        assert (rowLength as real) >= 0.5 * (maxColumns as real);
      } else {
        assert (rowLength as real) < 0.5 * (maxColumns as real);
      }
    }
  }

  /** `a` is `b` with some elements removed, the rest in their original order. */
  ghost predicate IsSubsequence<T>(a: seq<T>, b: seq<T>)
    decreases |b|
  {
    if a == [] then true
    else if b == [] then false
    else (a[0] == b[0] && IsSubsequence(a[1..], b[1..])) || IsSubsequence(a, b[1..])
  }

  /**
   * `rows.filter(...)`: the kept rows are a subsequence of the input in the
   * original order, every kept row meets the threshold and every occurrence
   * of an input row that meets it is kept.
   */
  function FilterRows(rows: seq<Row>, maxColumns: nat): (kept: seq<Row>)
    ensures IsSubsequence(kept, rows)
    ensures forall row :: row in kept ==> row in rows && MeetsThreshold(KeyCount(row), maxColumns)
    ensures forall row :: row in rows && MeetsThreshold(KeyCount(row), maxColumns) ==> row in kept
    ensures forall row :: multiset(kept)[row] == if MeetsThreshold(KeyCount(row), maxColumns) then multiset(rows)[row] else 0
  {
    if |rows| == 0 then []
    else
      assert rows == [rows[0]] + rows[1..];
      var rest := FilterRows(rows[1..], maxColumns);
      if MeetsThreshold(KeyCount(rows[0]), maxColumns) then [rows[0]] + rest else rest
  }

  /** The cleaned object of one sheet: its rows filtered against its own densest row. */
  function CleanSheet(sheet: SheetData): SheetData
  {
    SheetData(sheet.name, FilterRows(sheet.rows, MaxColumns(sheet.rows)))
  }

  /**
   * `performSmartCleanup`: one cleaned object per input sheet, same names, same
   * order, each sheet cleaned independently.
   */
  function Cleaned(data: seq<SheetData>): (cleaned: seq<SheetData>)
    ensures |cleaned| == |data|
    ensures forall i :: 0 <= i < |data| ==> cleaned[i] == CleanSheet(data[i])
  {
    if |data| == 0 then []
    else
      var prefix := data[..|data| - 1];
      assert forall i :: 0 <= i < |prefix| ==> prefix[i] == data[i];
      Cleaned(prefix) + [CleanSheet(data[|data| - 1])]
  }

  /** Cleanup keeps the number, order and names of the sheets. */
  lemma CleanedKeepsNames(data: seq<SheetData>)
    ensures Names(Cleaned(data)) == Names(data)
  {
  }

  /** Whenever some row has keys, the densest rows are all kept. */
  lemma DensestRowKept(rows: seq<Row>, row: Row)
    requires row in rows && KeyCount(row) == MaxColumns(rows) > 0
    ensures row in FilterRows(rows, MaxColumns(rows))
  {
    ThresholdIsHalf(KeyCount(row), MaxColumns(rows));
  }

  /** A sheet whose rows all have no keys loses every row (0 / 0 is NaN). */
  lemma AllEmptyRowsDropped(rows: seq<Row>)
    requires forall i :: 0 <= i < |rows| ==> KeyCount(rows[i]) == 0
    ensures FilterRows(rows, MaxColumns(rows)) == []
  {
    assert MaxColumns(rows) == 0 by {
      if |rows| > 0 {
        var i :| 0 <= i < |rows| && KeyCount(rows[i]) == MaxColumns(rows);
      }
    }
    FilterDropsAll(rows, 0);
  }

  /** Filtering rows none of which meets the threshold keeps none. */
  lemma {:induction false} FilterDropsAll(rows: seq<Row>, maxColumns: nat)
    requires forall i :: 0 <= i < |rows| ==> !MeetsThreshold(KeyCount(rows[i]), maxColumns)
    ensures FilterRows(rows, maxColumns) == []
  {
    if |rows| > 0 {
      FilterDropsAll(rows[1..], maxColumns);
    }
  }

  /** Filtering rows that all meet the threshold keeps them all. */
  lemma {:induction false} FilterKeepsAll(rows: seq<Row>, maxColumns: nat)
    requires forall i :: 0 <= i < |rows| ==> MeetsThreshold(KeyCount(rows[i]), maxColumns)
    ensures FilterRows(rows, maxColumns) == rows
  {
    if |rows| > 0 {
      FilterKeepsAll(rows[1..], maxColumns);
      assert [rows[0]] + rows[1..] == rows;
    }
  }

  /** The kept rows have the same densest count as the sheet they came from. */
  lemma KeptMaxColumns(rows: seq<Row>)
    ensures MaxColumns(FilterRows(rows, MaxColumns(rows))) == MaxColumns(rows)
  {
    var m := MaxColumns(rows);
    var kept := FilterRows(rows, m);
    if m == 0 {
      AllEmptyRowsDropped(rows);
    } else {
      var i :| 0 <= i < |rows| && KeyCount(rows[i]) == m;
      DensestRowKept(rows, rows[i]);
      var j :| 0 <= j < |kept| && kept[j] == rows[i];
      var mk := MaxColumns(kept);
      assert m <= mk by {
        assert KeyCount(kept[j]) == m;
      }
      assert mk <= m by {
        var t :| 0 <= t < |kept| && KeyCount(kept[t]) == mk;
        assert kept[t] in kept;
        var u :| 0 <= u < |rows| && rows[u] == kept[t];
      }
    }
  }

  /** Cleaning a sheet twice is cleaning it once. */
  lemma CleanSheetIdempotent(sheet: SheetData)
    ensures CleanSheet(CleanSheet(sheet)) == CleanSheet(sheet)
  {
    var m := MaxColumns(sheet.rows);
    var kept := FilterRows(sheet.rows, m);
    KeptMaxColumns(sheet.rows);
    forall i | 0 <= i < |kept|
      ensures MeetsThreshold(KeyCount(kept[i]), m)
    {
      assert kept[i] in kept;
    }
    FilterKeepsAll(kept, m);
  }

  /** `performSmartCleanup` is idempotent. */
  lemma CleanedIdempotent(data: seq<SheetData>)
    ensures Cleaned(Cleaned(data)) == Cleaned(data)
  {
    var once := Cleaned(data);
    var twice := Cleaned(once);
    forall i | 0 <= i < |data|
      ensures twice[i] == once[i]
    {
      CleanSheetIdempotent(data[i]);
    }
  }

  /**
   * `performSmartCleanup`: a loop over the sheets that pushes each sheet's
   * cleaned object.
   */
  method PerformSmartCleanup(data: seq<SheetData>) returns (cleanedData: seq<SheetData>)
    ensures cleanedData == Cleaned(data)
  {
    cleanedData := [];
    for i := 0 to |data|
      invariant cleanedData == Cleaned(data[..i])
    {
      var sheetData := data[i];
      var rows := sheetData.rows;
      var maxColumns := MaxColumns(rows);
      var cleanedRows := FilterRows(rows, maxColumns);
      assert data[..i + 1][..i] == data[..i];
      cleanedData := cleanedData + [SheetData(sheetData.name, cleanedRows)];
    }
    assert data[..|data|] == data;
  }
}
