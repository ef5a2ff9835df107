/**
 * The `spreadsheets` record and the job's single write to it. Reading and
 * writing the database are I/O: the rows the `select` returned arrive as a
 * parameter, and the `update ... set` is modelled as the field assignment it
 * performs on the matched record.
 */
module Persistence {
  import opened Wrappers

  /** A row of the `spreadsheets` table; every column but the primary key is nullable. */
  datatype SpreadsheetRecord = SpreadsheetRecord(
    id: string,
    userId: Option<string>,
    fileName: Option<string>,
    friendlyName: Option<string>,
    sizeInBytes: Option<int>,
    state: Option<string>,
    allowDownload: Option<bool>,
    allColumns: Option<string>,
    allowedColumns: Option<string>,
    infoPanelTitle: Option<string>,
    infoPanelDescription: Option<string>,
    data: Option<string>,
    createdAt: Option<int>,
    updatedAt: Option<int>)

  const Processing: string := "processing"
  const Active: string := "active"

  /**
   * The object passed to `.set(...)`: `data` and `allColumns` always,
   * `state` and `allowedColumns` only on first activation.
   */
  datatype UpdateSet = UpdateSet(
    data: string,
    allColumns: string,
    state: Option<string>,
    allowedColumns: Option<string>)

  /** `existingSpreadsheet[0]` on an empty result reads a field of `undefined` and throws. */
  datatype WriteError = RecordNotFound

  /** The record after the update: the columns named in the set object change, nothing else. */
  function Apply(rec: SpreadsheetRecord, u: UpdateSet): SpreadsheetRecord
  {
    rec.(
      data := Some(u.data),
      allColumns := Some(u.allColumns),
      state := if u.state.Some? then u.state else rec.state,
      allowedColumns := if u.allowedColumns.Some? then u.allowedColumns else rec.allowedColumns)
  }

  /** The refresh branch applies: the first row has the job's id and is not `processing` (a null state counts). */
  predicate IsRefresh(rec: SpreadsheetRecord, spreadsheetId: string)
  {
    rec.id == spreadsheetId && rec.state != Some(Processing)
  }

  /**
   * The write decision: the one update the job issues, chosen from the first
   * row the `select` returned; no row at all fails before any update.
   */
  function DecideUpdate(existing: seq<SpreadsheetRecord>, spreadsheetId: string, compressedData: string, allColumns: string)
    : (r: Result<UpdateSet, WriteError>)
    ensures r.Err? <==> |existing| == 0
    ensures r.Ok? ==> r.value.data == compressedData && r.value.allColumns == allColumns
    ensures r.Ok? ==> (r.value.state.None? <==> IsRefresh(existing[0], spreadsheetId))
    ensures r.Ok? && IsRefresh(existing[0], spreadsheetId) ==> r.value.allowedColumns.None?
    ensures r.Ok? && !IsRefresh(existing[0], spreadsheetId) ==>
      r.value.state == Some(Active) && r.value.allowedColumns == Some(allColumns)
  {
    if |existing| == 0 then Err(RecordNotFound)
    else if IsRefresh(existing[0], spreadsheetId) then
      Ok(UpdateSet(compressedData, allColumns, None, None))
    else
      Ok(UpdateSet(compressedData, allColumns, Some(Active), Some(allColumns)))
  }

  /** The columns this job never writes agree between two records. */
  predicate DescriptiveFieldsAgree(a: SpreadsheetRecord, b: SpreadsheetRecord)
  {
    && a.id == b.id
    && a.userId == b.userId
    && a.fileName == b.fileName
    && a.friendlyName == b.friendlyName
    && a.sizeInBytes == b.sizeInBytes
    && a.allowDownload == b.allowDownload
    && a.infoPanelTitle == b.infoPanelTitle
    && a.infoPanelDescription == b.infoPanelDescription
    && a.createdAt == b.createdAt
    && a.updatedAt == b.updatedAt
  }

  /** The record after the job's write, or the error that prevented it. */
  function Written(existing: seq<SpreadsheetRecord>, spreadsheetId: string, compressedData: string, allColumns: string)
    : Result<SpreadsheetRecord, WriteError>
  {
    match DecideUpdate(existing, spreadsheetId, compressedData, allColumns)
    case Ok(u) => Ok(Apply(existing[0], u))
    case Err(e) => Err(e)
  }

  /**
   * Refresh: a record with the job's id that is not `processing` (including a
   * null state) gets new `data` and `allColumns`; its `state`,
   * `allowedColumns` and every other column are unchanged.
   */
  lemma RefreshWritesDataOnly(existing: seq<SpreadsheetRecord>, spreadsheetId: string, compressedData: string, allColumns: string)
    requires |existing| > 0 && IsRefresh(existing[0], spreadsheetId)
    ensures var r := Written(existing, spreadsheetId, compressedData, allColumns);
            && r.Ok?
            && r.value == existing[0].(data := Some(compressedData), allColumns := Some(allColumns))
  {
  }

  /**
   * Activate: a `processing` record (or one whose id differs from the job's)
   * becomes `active` with new `data`, and `allowedColumns` equal to the new
   * `allColumns`; no other column changes.
   */
  lemma ActivateGrantsAllColumns(existing: seq<SpreadsheetRecord>, spreadsheetId: string, compressedData: string, allColumns: string)
    requires |existing| > 0 && !IsRefresh(existing[0], spreadsheetId)
    ensures var r := Written(existing, spreadsheetId, compressedData, allColumns);
            && r.Ok?
            && r.value.state == Some(Active)
            && r.value.data == Some(compressedData)
            && r.value.allowedColumns == r.value.allColumns == Some(allColumns)
            && DescriptiveFieldsAgree(r.value, existing[0])
  {
  }

  /**
   * Whatever the branch: the write lands `data` and `allColumns`, never leaves
   * the record `processing`, keeps the descriptive columns, and either keeps
   * `state` and `allowedColumns` or sets them to `active` and `allColumns`.
   */
  lemma WriteInvariants(existing: seq<SpreadsheetRecord>, spreadsheetId: string, compressedData: string, allColumns: string)
    requires |existing| > 0
    ensures var r := Written(existing, spreadsheetId, compressedData, allColumns);
            var before := existing[0];
            && r.Ok?
            && r.value.data == Some(compressedData) && r.value.allColumns == Some(allColumns)
            && r.value.state != Some(Processing)
            && DescriptiveFieldsAgree(r.value, before)
            && ((r.value.state == before.state && r.value.allowedColumns == before.allowedColumns)
                || (r.value.state == Some(Active) && r.value.allowedColumns == Some(allColumns)))
  {
    if IsRefresh(existing[0], spreadsheetId) {
      RefreshWritesDataOnly(existing, spreadsheetId, compressedData, allColumns);
    } else {
      ActivateGrantsAllColumns(existing, spreadsheetId, compressedData, allColumns);
    }
  }

  /** Running the same write again on its own result changes nothing. */
  lemma WriteIdempotent(existing: seq<SpreadsheetRecord>, spreadsheetId: string, compressedData: string, allColumns: string)
    requires |existing| > 0
    ensures var once := Written(existing, spreadsheetId, compressedData, allColumns);
            once.Ok? && Written([once.value], spreadsheetId, compressedData, allColumns) == once
  {
    WriteInvariants(existing, spreadsheetId, compressedData, allColumns);
    var once := Written(existing, spreadsheetId, compressedData, allColumns).value;
    if !IsRefresh(existing[0], spreadsheetId) {
      ActivateGrantsAllColumns(existing, spreadsheetId, compressedData, allColumns);
    }
  }
}
