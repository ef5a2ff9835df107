/**
 * The column manifest (`allColumns`): for each sheet object, its name mapped
 * to `Object.keys` of its first row, built by a `forEach` that assigns into an
 * initially empty object.
 */
module Manifest {
  import opened Wrappers
  import opened JsObjects
  import opened SheetJson

  /** Sheet name to the column names of that sheet's first row. */
  type ColumnManifest = JsObject<seq<string>>

  /** `Object.keys(sheetData[0])` on a sheet without rows throws a TypeError. */
  datatype ManifestError = EmptySheet(name: string)

  /** The manifest after the first `n` sheets, or the error of the first sheet without rows. */
  function ManifestUpTo(data: seq<SheetData>, n: nat): Result<ColumnManifest, ManifestError>
    requires n <= |data|
  {
    if n == 0 then Ok(Empty())
    else
      match ManifestUpTo(data, n - 1)
      case Err(e) => Err(e)
      case Ok(m) =>
        var sheet := data[n - 1];
        if |sheet.rows| == 0 then Err(EmptySheet(sheet.name))
        else Ok(Put(m, sheet.name, sheet.rows[0].keys))
  }

  /** The `allColumns` object built from a whole document. */
  function ManifestOf(data: seq<SheetData>): Result<ColumnManifest, ManifestError>
  {
    ManifestUpTo(data, |data|)
  }

  /** No sheet before index `n` of `data` carries the name `name` again after index `i`. */
  predicate LastWithName(data: seq<SheetData>, i: nat, n: nat)
    requires i < n <= |data|
  {
    forall j :: i < j < n ==> data[j].name != data[i].name
  }

  /** The manifest of the first `n` sheets fails exactly when one of them has no rows. */
  lemma {:induction false} ManifestUpToOk(data: seq<SheetData>, n: nat)
    requires n <= |data|
    ensures ManifestUpTo(data, n).Ok? <==> forall i :: 0 <= i < n ==> |data[i].rows| > 0
  {
    if n > 0 {
      ManifestUpToOk(data, n - 1);
    }
  }

  /** A failing manifest names the first sheet without rows. */
  lemma {:induction false} ManifestUpToError(data: seq<SheetData>, n: nat)
    requires n <= |data|
    ensures ManifestUpTo(data, n).Err? ==>
      exists i :: 0 <= i < n && |data[i].rows| == 0 && ManifestUpTo(data, n).error == EmptySheet(data[i].name)
                && forall j :: 0 <= j < i ==> |data[j].rows| > 0
  {
    if n > 0 {
      ManifestUpToError(data, n - 1);
      if ManifestUpTo(data, n - 1).Ok? {
        ManifestUpToOk(data, n - 1);
      }
    }
  }

  /** A built manifest is a well-formed object: `Object.keys` lists each of its keys once. */
  lemma {:induction false} ManifestWellFormed(data: seq<SheetData>, n: nat)
    requires n <= |data|
    ensures ManifestUpTo(data, n).Ok? ==> ManifestUpTo(data, n).value.Valid()
  {
    if n > 0 {
      ManifestWellFormed(data, n - 1);
    }
  }

  /** The names of the first `n` sheets. */
  function NamesUpTo(data: seq<SheetData>, n: nat): set<string>
    requires n <= |data|
  {
    set i | 0 <= i < n :: data[i].name
  }

  /** A manifest of the first `n` sheets has exactly their names as keys. */
  lemma {:induction false} ManifestUpToKeys(data: seq<SheetData>, n: nat)
    requires n <= |data|
    ensures ManifestUpTo(data, n).Ok? ==> ManifestUpTo(data, n).value.entries.Keys == NamesUpTo(data, n)
  {
    if n > 0 && ManifestUpTo(data, n).Ok? {
      ManifestUpToKeys(data, n - 1);
      assert NamesUpTo(data, n) == NamesUpTo(data, n - 1) + {data[n - 1].name};
    }
  }

  /** In a manifest of the first `n` sheets, a name maps to the first-row keys of the last sheet with that name. */
  lemma {:induction false} ManifestUpToValue(data: seq<SheetData>, n: nat, i: nat)
    requires i < n <= |data| && LastWithName(data, i, n)
    ensures ManifestUpTo(data, n).Ok? ==>
      && |data[i].rows| > 0
      && data[i].name in ManifestUpTo(data, n).value.entries
      && ManifestUpTo(data, n).value.entries[data[i].name] == data[i].rows[0].keys
  {
    if ManifestUpTo(data, n).Ok? && i < n - 1 {
      assert LastWithName(data, i, n - 1);
      ManifestUpToValue(data, n - 1, i);
    }
  }

  /**
   * The manifest fails exactly when some sheet has no rows (the first such
   * sheet is reported); otherwise it maps each sheet name to the keys of the
   * first row of the last sheet with that name.
   */
  lemma ManifestSpec(data: seq<SheetData>)
    ensures ManifestOf(data).Ok? <==> forall i :: 0 <= i < |data| ==> |data[i].rows| > 0
    ensures ManifestOf(data).Err? ==>
      exists i :: 0 <= i < |data| && |data[i].rows| == 0 && ManifestOf(data).error == EmptySheet(data[i].name)
                && forall j :: 0 <= j < i ==> |data[j].rows| > 0
    ensures ManifestOf(data).Ok? ==>
      var m := ManifestOf(data).value;
      && (forall k :: k in m.entries <==> k in Names(data))
      && (forall i :: 0 <= i < |data| && LastWithName(data, i, |data|) ==> m.entries[data[i].name] == data[i].rows[0].keys)
  {
    ManifestUpToOk(data, |data|);
    ManifestUpToError(data, |data|);
    ManifestUpToKeys(data, |data|);
    if ManifestOf(data).Ok? {
      var m := ManifestOf(data).value;
      forall k ensures k in m.entries <==> k in Names(data) {
        if k in Names(data) {
          var i :| 0 <= i < |data| && Names(data)[i] == k;
          assert k in NamesUpTo(data, |data|);
        }
      }
      forall i | 0 <= i < |data| && LastWithName(data, i, |data|)
        ensures m.entries[data[i].name] == data[i].rows[0].keys
      {
        ManifestUpToValue(data, |data|, i);
      }
    }
  }

  /** The sheet names are pairwise distinct (as a workbook's tab names are). */
  predicate UniqueNames(data: seq<SheetData>)
  {
    forall i, j :: 0 <= i < j < |data| ==> data[i].name != data[j].name
  }

  /** The names of the first `n` sheets are those of the first `n - 1` and one more. */
  lemma NamesOfPrefix(data: seq<SheetData>, n: nat)
    requires 0 < n <= |data|
    ensures Names(data[..n]) == Names(data[..n - 1]) + [data[n - 1].name]
  {
    var a := Names(data[..n]);
    var b := Names(data[..n - 1]) + [data[n - 1].name];
    assert |a| == |b|;
    forall i | 0 <= i < |a|
      ensures a[i] == b[i]
    {
      if i < n - 1 {
        assert b[i] == Names(data[..n - 1])[i];
      }
    }
  }

  /** With distinct sheet names the manifest lists the sheets in document order. */
  lemma {:induction false} ManifestOrder(data: seq<SheetData>, n: nat)
    requires n <= |data| && UniqueNames(data)
    ensures ManifestUpTo(data, n).Ok? ==> ManifestUpTo(data, n).value.keys == Names(data[..n])
  {
    if n > 0 {
      ManifestOrder(data, n - 1);
      if ManifestUpTo(data, n).Ok? {
        var prev := ManifestUpTo(data, n - 1).value;
        var name := data[n - 1].name;
        ManifestUpToKeys(data, n - 1);
        assert name !in NamesUpTo(data, n - 1);
        assert ManifestUpTo(data, n).value.keys == prev.keys + [name];
        NamesOfPrefix(data, n);
      }
    }
  }

  /**
   * The `forEach` over the document that assigns each sheet's first-row keys
   * under its name (`Object.keys(sheet)[0]`), throwing on a sheet without rows.
   */
  method BuildManifest(data: seq<SheetData>) returns (r: Result<ColumnManifest, ManifestError>)
    ensures r == ManifestOf(data)
  {
    var allColumns: ColumnManifest := Empty();
    for sheetIdx := 0 to |data|
      invariant ManifestUpTo(data, sheetIdx) == Ok(allColumns)
    {
      var sheetName := data[sheetIdx].name;
      var sheetData := data[sheetIdx].rows;
      if |sheetData| == 0 {
        ManifestErrorPersists(data, sheetIdx + 1, |data|);
        return Err(EmptySheet(sheetName));
      }
      allColumns := Put(allColumns, sheetName, sheetData[0].keys);
    }
    return Ok(allColumns);
  }

  /** Once a sheet has thrown, the later sheets do not matter. */
  lemma {:induction false} ManifestErrorPersists(data: seq<SheetData>, m: nat, n: nat)
    requires m <= n <= |data|
    requires ManifestUpTo(data, m).Err?
    ensures ManifestUpTo(data, n) == ManifestUpTo(data, m)
    decreases n - m
  {
    if m < n {
      ManifestErrorPersists(data, m, n - 1);
    }
  }
}
