/**
 * The job processor (`processSpreadsheet`) and `getJSON`: validate the
 * payload's buffer, decode the workbook, optionally clean it, compress it,
 * build the column manifest and issue the one update of the stored record.
 *
 * The calls into libraries are parameters: `read` is the spreadsheet parser
 * (`None` where it throws), `toIso` is `Date.prototype.toISOString`, `base64`
 * Node's base64 decoder, `textToByte` the number conversion of a string stored
 * into a Buffer, `compress` the superjson + gzip + base64 codec and `stringify`
 * `JSON.stringify` of the manifest.
 */
module Pipeline {
  import opened Wrappers
  import opened JsObjects
  import opened Xlsx
  import opened SheetJson
  import opened Decoder
  import opened Cleanup
  import opened BufferInput
  import opened Manifest
  import opened Persistence

  datatype Foreign = Foreign(
    read: Bytes -> Option<Workbook>,
    toIso: int -> string,
    base64: string -> Bytes,
    textToByte: string -> byte,
    compress: seq<SheetData> -> string,
    stringify: ColumnManifest -> string)

  /** The job's data; `smartCleanup` is `None` when the field was left out. */
  datatype Payload = Payload(
    spreadsheetId: string,
    userId: string,
    fileName: string,
    sizeInBytes: real,
    smartCleanup: Option<bool>,
    buffer: Input)

  /** Why a job fails; every one of them is raised before the update is issued. */
  datatype JobError =
    | Invalid(validation: ValidationError)
    | Unreadable
    | Undecodable(decode: DecodeError)
    | SheetWithoutRows(manifest: ManifestError)
    | NoRecord(write: WriteError)

  /** The update the job issued and the stored record it leaves behind. */
  datatype JobResult = JobResult(update: UpdateSet, after: SpreadsheetRecord)

  /** `smartCleanup` after the schema's `.default(true)`. */
  function SmartCleanupFlag(p: Payload): bool
  {
    if p.smartCleanup.Some? then p.smartCleanup.value else true
  }

  /** `getJSON`: decode the bytes, then clean the result when asked to. */
  function JsonOf(buffer: Bytes, f: Foreign, smartCleanup: bool): Result<seq<SheetData>, JobError>
  {
    match f.read(buffer)
    case None => Err(Unreadable)
    case Some(wb) =>
      match Decoded(wb, f.toIso)
      case Err(e) => Err(Undecodable(e))
      case Ok(data) => Ok(if smartCleanup then Cleaned(data) else data)
  }

  /**
   * `getJSON` succeeds exactly when the file parses and every sheet decodes;
   * it keeps the workbook's sheet names in order, and without cleanup it
   * returns the decoded data unchanged.
   */
  lemma JsonOfSpec(buffer: Bytes, f: Foreign, smartCleanup: bool)
    ensures var r := JsonOf(buffer, f, smartCleanup);
            && (r.Ok? <==> f.read(buffer).Some? && Decoded(f.read(buffer).value, f.toIso).Ok?)
            && (r.Ok? ==> Names(r.value) == f.read(buffer).value.sheetNames)
            && (r.Ok? && !smartCleanup ==> r.value == Decoded(f.read(buffer).value, f.toIso).value)
            && (r.Ok? && smartCleanup ==> r.value == Cleaned(Decoded(f.read(buffer).value, f.toIso).value))
  {
    if f.read(buffer).Some? {
      var wb := f.read(buffer).value;
      DecodedShape(wb, f.toIso);
      if Decoded(wb, f.toIso).Ok? {
        CleanedKeepsNames(Decoded(wb, f.toIso).value);
      }
    }
  }

  /** `getJSON` (its first, unused parse of the buffer has no effect and is left out). */
  method GetJson(buffer: Bytes, f: Foreign, smartCleanup: bool) returns (r: Result<seq<SheetData>, JobError>)
    ensures r == JsonOf(buffer, f, smartCleanup)
  {
    var workbook := f.read(buffer);
    if workbook.None? {
      return Err(Unreadable);
    }
    var data := ConvertXlsxToJson(workbook.value, f.toIso);
    if data.Err? {
      return Err(Undecodable(data.error));
    }
    if smartCleanup {
      var cleaned := PerformSmartCleanup(data.value);
      return Ok(cleaned);
    }
    return Ok(data.value);
  }

  /** The outcome of one job against the rows its `select` returned. */
  function Outcome(job: Payload, f: Foreign, existing: seq<SpreadsheetRecord>): Result<JobResult, JobError>
  {
    match Normalise(job.buffer, f.base64, f.textToByte)
    case Err(e) => Err(Invalid(e))
    case Ok(buffer) =>
      match JsonOf(buffer, f, SmartCleanupFlag(job))
      case Err(e) => Err(e)
      case Ok(jsonData) =>
        var compressedData := f.compress(jsonData);
        match ManifestOf(jsonData)
        case Err(e) => Err(SheetWithoutRows(e))
        case Ok(allColumns) =>
          match DecideUpdate(existing, job.spreadsheetId, compressedData, f.stringify(allColumns))
          case Err(e) => Err(NoRecord(e))
          case Ok(u) => Ok(JobResult(u, Apply(existing[0], u)))
  }

  /**
   * `processSpreadsheet`: parse the payload, resolve the buffer, get the JSON,
   * compress it, build the manifest from the select's rows and issue exactly
   * one update.
   */
  method ProcessSpreadsheet(job: Payload, f: Foreign, existing: seq<SpreadsheetRecord>)
    returns (r: Result<JobResult, JobError>)
    ensures r == Outcome(job, f, existing)
  {
    var reqBuffer := ParseBuffer(job.buffer, f.base64, f.textToByte);
    if reqBuffer.Err? {
      return Err(Invalid(reqBuffer.error));
    }
    var buffer := Resolve(reqBuffer.value);
    var jsonData := GetJson(buffer, f, SmartCleanupFlag(job));
    if jsonData.Err? {
      return Err(jsonData.error);
    }
    var compressedData := f.compress(jsonData.value);
    var allColumns := BuildManifest(jsonData.value);
    if allColumns.Err? {
      return Err(SheetWithoutRows(allColumns.error));
    }
    if |existing| == 0 {
      return Err(NoRecord(RecordNotFound));
    }
    var columnsText := f.stringify(allColumns.value);
    var update: UpdateSet;
    if existing[0].id == job.spreadsheetId && existing[0].state != Some(Processing) {
      update := UpdateSet(compressedData, columnsText, None, None);
    } else {
      update := UpdateSet(compressedData, columnsText, Some(Active), Some(columnsText));
    }
    return Ok(JobResult(update, Apply(existing[0], update)));
  }

  /**
   * A job succeeds exactly when the buffer validates, the file parses, every
   * sheet decodes, every sheet still has a row after the optional cleanup and
   * the select returned a record; its update then stores the compressed JSON
   * and the manifest text, and the record is left as the write decision says.
   */
  lemma OutcomeSpec(job: Payload, f: Foreign, existing: seq<SpreadsheetRecord>)
    ensures var r := Outcome(job, f, existing);
            var buffer := Normalise(job.buffer, f.base64, f.textToByte);
            var json := if buffer.Ok? then JsonOf(buffer.value, f, SmartCleanupFlag(job)) else Err(Unreadable);
            && (r.Ok? <==>
                  && buffer.Ok? && json.Ok?
                  && (forall i :: 0 <= i < |json.value| ==> |json.value[i].rows| > 0)
                  && |existing| > 0)
            && (r.Ok? ==>
                  && ManifestOf(json.value).Ok?
                  && var text := f.stringify(ManifestOf(json.value).value);
                  && r.value.update.data == f.compress(json.value)
                  && r.value.update.allColumns == text
                  && Written(existing, job.spreadsheetId, f.compress(json.value), text) == Ok(r.value.after))
  {
    var buffer := Normalise(job.buffer, f.base64, f.textToByte);
    if buffer.Ok? && JsonOf(buffer.value, f, SmartCleanupFlag(job)).Ok? {
      ManifestSpec(JsonOf(buffer.value, f, SmartCleanupFlag(job)).value);
    }
  }

  /**
   * A record still `processing` becomes `active` with `allowedColumns` equal
   * to `allColumns`, the manifest of the new data.
   */
  lemma FirstRunActivates(job: Payload, f: Foreign, existing: seq<SpreadsheetRecord>)
    requires Outcome(job, f, existing).Ok?
    requires existing[0].state == Some(Processing)
    ensures var after := Outcome(job, f, existing).value.after;
            && after.state == Some(Active)
            && after.allowedColumns == after.allColumns
            && after.allColumns.Some?
  {
  }

  /**
   * A record with the job's id that is not `processing` (a null state
   * included) keeps its `state` and `allowedColumns`: only `data` and
   * `allColumns` are refreshed.
   */
  lemma LaterRunRefreshes(job: Payload, f: Foreign, existing: seq<SpreadsheetRecord>)
    requires Outcome(job, f, existing).Ok?
    requires existing[0].id == job.spreadsheetId && existing[0].state != Some(Processing)
    ensures var after := Outcome(job, f, existing).value.after;
            && after.state == existing[0].state
            && after.allowedColumns == existing[0].allowedColumns
            && DescriptiveFieldsAgree(after, existing[0])
  {
  }

  /**
   * With cleanup on, a sheet none of whose rows has a key (for instance one
   * whose columns all lack a text header) loses every row, and the manifest
   * step then fails the job before any update.
   */
  lemma KeylessSheetFailsJob(job: Payload, f: Foreign, existing: seq<SpreadsheetRecord>, bytes: Bytes, i: nat)
    requires Normalise(job.buffer, f.base64, f.textToByte) == Ok(bytes)
    requires SmartCleanupFlag(job)
    requires f.read(bytes).Some? && Decoded(f.read(bytes).value, f.toIso).Ok?
    requires var data := Decoded(f.read(bytes).value, f.toIso).value;
             i < |data| && forall j :: 0 <= j < |data[i].rows| ==> KeyCount(data[i].rows[j]) == 0
    ensures Outcome(job, f, existing).Err? && Outcome(job, f, existing).error.SheetWithoutRows?
  {
    var data := Decoded(f.read(bytes).value, f.toIso).value;
    var json := Cleaned(data);
    AllEmptyRowsDropped(data[i].rows);
    assert |json[i].rows| == 0;
    ManifestSpec(json);
  }

  /** No record for the id: the job fails and nothing is written. */
  lemma MissingRecordFailsJob(job: Payload, f: Foreign)
    ensures Outcome(job, f, []).Err?
  {
  }

  /**
   * The job sees the `buffer` field only through the bytes it resolves to:
   * two payloads whose buffers resolve alike (to the same bytes, or to the
   * same rejection) have the same outcome.
   */
  lemma SameBytesSameOutcome(job: Payload, f: Foreign, existing: seq<SpreadsheetRecord>, a: Input, c: Input)
    requires Normalise(a, f.base64, f.textToByte) == Normalise(c, f.base64, f.textToByte)
    ensures Outcome(job.(buffer := a), f, existing) == Outcome(job.(buffer := c), f, existing)
  {
  }

  /**
   * A `data` array of several base64 fragments gives the same outcome as the
   * string of the fragments joined.
   */
  lemma FragmentsGiveSameOutcome(job: Payload, f: Foreign, existing: seq<SpreadsheetRecord>, fragments: seq<string>)
    requires |fragments| > 0
    ensures var data := seq(|fragments|, i requires 0 <= i < |fragments| => Element.Text(fragments[i]));
            Outcome(job.(buffer := BufferObject("Buffer", data)), f, existing)
              == Outcome(job.(buffer := Base64String(Join(data))), f, existing)
  {
    var data := seq(|fragments|, i requires 0 <= i < |fragments| => Element.Text(fragments[i]));
    FragmentsAsString(fragments, f.base64, f.textToByte);
    SameBytesSameOutcome(job, f, existing, BufferObject("Buffer", data), Base64String(Join(data)));
  }

  /**
   * The accepted encodings of the same bytes (a Buffer, a base64 string, a
   * one-fragment object of that string, the object of byte numbers) give the
   * same job outcome.
   */
  lemma EncodingsGiveSameOutcome(job: Payload, f: Foreign, existing: seq<SpreadsheetRecord>, b: Bytes, s: string)
    requires f.base64(s) == b
    ensures var o := Outcome(job.(buffer := BufferValue(b)), f, existing);
            && Outcome(job.(buffer := Base64String(s)), f, existing) == o
            && Outcome(job.(buffer := BufferObject("Buffer", [Element.Text(s)])), f, existing) == o
            && Outcome(job.(buffer := BufferObject("Buffer", AsNumbers(b))), f, existing) == o
  {
    EncodingsAgree(b, s, f.base64, f.textToByte);
  }
}
