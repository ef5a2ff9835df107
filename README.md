# process-spreadsheets-worker: the spreadsheet job, modelled in Dafny

The worker takes one job per uploaded spreadsheet. The job carries the file's
bytes in one of three encodings. The worker turns the workbook into one JSON
object per sheet. Each row becomes an object from header text to cell data.
The worker can drop sparse rows, then compresses the result. It builds a
manifest of each sheet's columns and writes both into the `spreadsheets`
record, which it activates on the first run and refreshes on later runs.

The model follows `src/jobs/process-spreadsheet.ts` step by step:

- `Decoder` covers `convertXLSXToJSON`: the sheet, row and column loops as
  methods, proved equal to recursive specification functions.
- `Cleanup` covers `performSmartCleanup` and its density filter.
- `BufferInput` covers the `zod` union of the `buffer` field and the step that
  resolves the parsed value into one Buffer.
- `Manifest` covers the `allColumns` object.
- `Persistence` covers the record and the job's choice between its two updates.
- `Pipeline` covers `getJSON` and the job processor as a whole.

Two support modules hold shared values. `JsObjects` models an
insertion-ordered JavaScript object. `Xlsx` models the workbook as the
spreadsheet library delivers it, with cell addresses already decoded.

Library calls are parameters of the model. These are the workbook parser,
`Date.prototype.toISOString`, Node's base64 decoder, the number conversion
a Buffer applies to a string element, the compression codec and
`JSON.stringify`. The rows returned by the database `select` are also a
parameter.

Where the code does something other than its own type declarations and
comments state, the model follows the code:

- The comment at `src/jobs/process-spreadsheet.ts:49` takes row 0 as the
  header row, yet the row loop starts at the range's first row, so the header
  row is also emitted as a data row. When a sheet's range starts at row 0,
  its first JSON row maps every header to itself as a string.
  `Decoder.HeaderRowEmitted` proves this.
- `CellData` declares `data_type` as `"string" | "number" | "boolean"`
  (`src/jobs/process-spreadsheet.ts:12`), but a Date cell gets `"object"`,
  the `typeof` of the original value. `Decoder.ToCellData` states this.
- The comment at `src/jobs/process-spreadsheet.ts:76-78` says only rows that
  miss more than half of the columns are removed. When every row of a sheet
  is empty, `maxColumns` is 0, every ratio is `0 / 0`, which is NaN, and NaN
  compares false. So cleanup removes every row of such a sheet although none
  of them misses a column. `Cleanup.AllEmptyRowsDropped` states this.

Two further behaviours follow from the code as written:

- A sheet that ends with no rows, whether empty from the start or emptied by
  cleanup, makes `Object.keys(sheetData[0])` throw. The job then fails before
  any update. `Pipeline.KeylessSheetFailsJob` shows this.
- The refresh test compares the stored id with `===`. Any record whose id
  differs from the job's goes down the activation path, so only a `processing`
  state selects activation when the ids are equal.

## Model

| member | source | states |
|---|---|---|
| JsObjects.Put | src/jobs/process-spreadsheet.ts:53-62 | assigning a property keeps the object well formed; an existing key keeps its position and takes the new value; a new key is appended at the end |
| Decoder.ToCellData | src/jobs/process-spreadsheet.ts:47-62 | a Date becomes its ISO text with `data_type` "object"; any other value is kept and `data_type` is its `typeof`; `formula` is null exactly when absent or empty; `row_str_value` is the formatted text; `hyperlink` is the link's target when there is one |
| Decoder.RowsBetween | src/jobs/process-spreadsheet.ts:36-67 | one row per row number of the range, in order, each the decoded row of that number |
| Decoder.DecodeSheet | src/jobs/process-spreadsheet.ts:29-69 | a sheet decodes exactly when it exists and has a range; the result carries the sheet's name and one row per row of the range |
| Decoder.ErrorPersists | src/jobs/process-spreadsheet.ts:29-32 | once a sheet fails to decode, every longer prefix of the workbook fails with that same error |
| Decoder.DecodeSheetsShape | src/jobs/process-spreadsheet.ts:29-70 | decoding the first n sheet names succeeds exactly when each is decodable; the output keeps their names and order, and its rows are the decoded rows of each range |
| Decoder.DecodedShape | src/jobs/process-spreadsheet.ts:24-73 | the whole workbook decodes exactly when every sheet is decodable; the output lists `SheetNames` in order; each sheet has one row per row of its range, each row decoded from that row number |
| Decoder.RowKeys | src/jobs/process-spreadsheet.ts:39-63 | a key is in a row exactly when some column in range has a cell in that row and a non-empty text header equal to the key |
| Decoder.RowValue | src/jobs/process-spreadsheet.ts:50-62 | when several columns share a header, the value under that key is the cell data of the last such column |
| Decoder.FirstContributorExists | src/jobs/process-spreadsheet.ts:39-63 | every key of a row has a first column that wrote it |
| Decoder.RowWellFormed | src/jobs/process-spreadsheet.ts:37-64 | a decoded row is a well-formed object: its key list holds each of its keys exactly once |
| Decoder.FirstContributorUnique | src/jobs/process-spreadsheet.ts:39-63 | the first column that wrote a key is unique |
| Decoder.RowKeyOrder | src/jobs/process-spreadsheet.ts:39-63 | a row's keys are ordered by the first column that wrote each of them, as JavaScript's insertion order makes them |
| Decoder.HeaderRowEmitted | src/jobs/process-spreadsheet.ts:36-62 | when a range starts at row 0, the first output row maps each text header to itself as a string value |
| Decoder.ConvertRow | src/jobs/process-spreadsheet.ts:37-64 | the column loop builds exactly the decoded row |
| Decoder.ConvertRows | src/jobs/process-spreadsheet.ts:34-67 | the row loop builds exactly the rows of the range in order |
| Decoder.ConvertXlsxToJson | src/jobs/process-spreadsheet.ts:24-73 | the sheet loop returns the decoded workbook, or the error of the first sheet that cannot be decoded |
| Cleanup.MaxColumns | src/jobs/process-spreadsheet.ts:92-98 | the reduce gives the largest key count of the rows: no row exceeds it, some row reaches it, and it is 0 without rows |
| Cleanup.ThresholdIsHalf | src/jobs/process-spreadsheet.ts:100-104 | for a row no longer than the densest, the ratio test against 0.5 holds exactly when `maxColumns > 0` and the row has at least half as many keys |
| Cleanup.FilterRows | src/jobs/process-spreadsheet.ts:100-104 | the kept rows are a subsequence of the rows in their order; a row is kept exactly when it meets the threshold, and each row that meets it is kept as many times as it occurs |
| Cleanup.Cleaned | src/jobs/process-spreadsheet.ts:82-114 | one cleaned sheet per input sheet, in order, each filtered against its own densest row |
| Cleanup.CleanedKeepsNames | src/jobs/process-spreadsheet.ts:85-111 | cleanup keeps the sheet names and their order |
| Cleanup.DensestRowKept | src/jobs/process-spreadsheet.ts:92-104 | when some row has keys, every densest row survives cleanup |
| Cleanup.AllEmptyRowsDropped | src/jobs/process-spreadsheet.ts:92-104 | a sheet whose rows all have no keys loses every row |
| Cleanup.FilterDropsAll | src/jobs/process-spreadsheet.ts:100-104 | filtering rows none of which meets the threshold keeps none |
| Cleanup.FilterKeepsAll | src/jobs/process-spreadsheet.ts:100-104 | filtering rows that all meet the threshold keeps them all |
| Cleanup.KeptMaxColumns | src/jobs/process-spreadsheet.ts:92-104 | the rows that survive have the same densest count as the sheet they came from |
| Cleanup.CleanSheetIdempotent | src/jobs/process-spreadsheet.ts:88-107 | cleaning a sheet twice gives the same result as cleaning it once |
| Cleanup.CleanedIdempotent | src/jobs/process-spreadsheet.ts:82-114 | `performSmartCleanup` applied twice gives the same result as applying it once |
| Cleanup.PerformSmartCleanup | src/jobs/process-spreadsheet.ts:82-114 | the loop over sheets returns exactly the cleaned document |
| BufferInput.FromArray | src/jobs/process-spreadsheet.ts:151-151 | one byte per element; a number element becomes its value modulo 256 and a string element goes through the number conversion |
| BufferInput.ParseBuffer | src/jobs/process-spreadsheet.ts:140-154 | the union rejects exactly values that are not a Buffer, a string or a `type: "Buffer"` object whose elements are all strings or numbers |
| BufferInput.NumbersRoundTrip | src/jobs/process-spreadsheet.ts:147-170 | a serialised Buffer's array of byte numbers resolves back to the same bytes |
| BufferInput.EmptyDataIsEmpty | src/jobs/process-spreadsheet.ts:147-152 | an empty `data` array takes the numeric path and resolves to an empty Buffer |
| BufferInput.FragmentsAsString | src/jobs/process-spreadsheet.ts:142-150 | an object whose data are base64 fragments resolves like the string of the fragments joined |
| BufferInput.NumericPathFromArray | src/jobs/process-spreadsheet.ts:147-151 | a `data` array that is empty or does not start with a string goes through `Buffer.from(val)`: one byte per element, each number stored modulo 256 and each later string through the number conversion |
| BufferInput.WrapAroundExample | src/jobs/process-spreadsheet.ts:151-151 | the array `[256, -1]` resolves to the bytes `[0, 255]` |
| BufferInput.TextFirstJoins | src/jobs/process-spreadsheet.ts:147-150 | whenever the first element is a string, every element, numbers included, is joined into one text and base64-decoded |
| BufferInput.EncodingsAgree | src/jobs/process-spreadsheet.ts:140-170 | a Buffer, its base64 string, a one-fragment object of that string and its array of byte numbers all resolve to the same bytes |
| Manifest.ManifestUpToOk | src/jobs/process-spreadsheet.ts:193-198 | the manifest of the first n sheets is built exactly when each of them has a first row |
| Manifest.ManifestUpToError | src/jobs/process-spreadsheet.ts:193-198 | a failing manifest names the first sheet without rows |
| Manifest.ManifestWellFormed | src/jobs/process-spreadsheet.ts:192-198 | the manifest is a well-formed object: its key list holds each of its keys exactly once |
| Manifest.ManifestUpToKeys | src/jobs/process-spreadsheet.ts:192-198 | the keys of the manifest of the first n sheets are exactly their names |
| Manifest.ManifestUpToValue | src/jobs/process-spreadsheet.ts:192-198 | under a sheet's name the manifest holds the first-row keys of the last sheet with that name |
| Manifest.ManifestSpec | src/jobs/process-spreadsheet.ts:188-198 | the manifest is built exactly when every sheet has a row; otherwise the error names the first sheet without one; its keys are the sheet names, each mapped to `Object.keys` of the first row of the last sheet with that name |
| Manifest.ManifestOrder | src/jobs/process-spreadsheet.ts:188-198 | with distinct sheet names the manifest lists them in sheet order |
| Manifest.ManifestErrorPersists | src/jobs/process-spreadsheet.ts:193-198 | once a prefix fails, every longer prefix fails with the same error |
| Manifest.BuildManifest | src/jobs/process-spreadsheet.ts:188-198 | the `forEach` returns exactly the manifest of the document, or the error of its first sheet without rows |
| Persistence.DecideUpdate | src/jobs/process-spreadsheet.ts:200-223 | the decision fails exactly when the select returned nothing; both updates store the new data and column text; only the refresh branch leaves `state` unset, and it is taken exactly when the first row has the job's id and is not `processing`; the refresh leaves `allowedColumns` unset, and the activation sets `state` to `active` and `allowedColumns` to the column text |
| Persistence.RefreshWritesDataOnly | src/jobs/process-spreadsheet.ts:200-211 | a refreshed record differs from the stored one only in `data` and `allColumns` |
| Persistence.ActivateGrantsAllColumns | src/jobs/process-spreadsheet.ts:212-223 | an activated record is `active`, with `allowedColumns` equal to the new `allColumns`, and keeps every descriptive column |
| Persistence.WriteInvariants | src/jobs/process-spreadsheet.ts:200-223 | after either update the record holds the new data, is not `processing`, keeps its descriptive columns, and either keeps `state` and `allowedColumns` or is `active` with all columns allowed |
| Persistence.WriteIdempotent | src/jobs/process-spreadsheet.ts:200-223 | running the same write again on its own result changes nothing |
| Pipeline.JsonOfSpec | src/jobs/process-spreadsheet.ts:116-125 | `getJSON` succeeds exactly when the file parses and every sheet decodes; it keeps the sheet names in order; it returns the decoded data, cleaned exactly when asked |
| Pipeline.GetJson | src/jobs/process-spreadsheet.ts:116-125 | the method returns exactly the specified JSON or error |
| Pipeline.ProcessSpreadsheet | src/jobs/process-spreadsheet.ts:157-224 | the job returns exactly the specified outcome: the error that stopped it, or the one update it issued and the record after it |
| Pipeline.OutcomeSpec | src/jobs/process-spreadsheet.ts:161-223 | a job succeeds exactly when the buffer validates, every sheet decodes, every sheet keeps a row after the optional cleanup, and a record exists; its update stores the compressed JSON and the manifest text |
| Pipeline.FirstRunActivates | src/jobs/process-spreadsheet.ts:212-223 | a `processing` record becomes `active` with every column allowed |
| Pipeline.LaterRunRefreshes | src/jobs/process-spreadsheet.ts:200-211 | a non-`processing` record with the job's id keeps its `state`, `allowedColumns` and descriptive columns |
| Pipeline.KeylessSheetFailsJob | src/jobs/process-spreadsheet.ts:173-198 | with cleanup on, a sheet whose rows all lack keys makes the job fail at the manifest, before any update |
| Pipeline.MissingRecordFailsJob | src/jobs/process-spreadsheet.ts:200-202 | without a stored record the job fails |
| Pipeline.EncodingsGiveSameOutcome | src/jobs/process-spreadsheet.ts:140-173 | a Buffer, a base64 string of it, a one-fragment object of that string and the object of its byte numbers give the same job outcome |
| Pipeline.FragmentsGiveSameOutcome | src/jobs/process-spreadsheet.ts:145-173 | an object whose `data` holds several base64 fragments gives the same job outcome as the string of the fragments joined |
| Pipeline.SameBytesSameOutcome | src/jobs/process-spreadsheet.ts:140-173 | any two `buffer` values that resolve alike, to the same bytes or to the same rejection, give the same job outcome; with the buffer lemmas this covers multi-fragment, mixed text-first and wrapping number arrays |

## Left out

- The workbook parser (`XLSX.read`) is a parameter that returns a workbook or fails. `decode_range` and `encode_cell` are modelled by ranges and addresses that are already decoded, so a malformed `!ref` string is not modelled.
- The first `XLSX.read` in `getJSON` has an unused result. It can only throw where the second call throws too, so it is left out.
- `Date.prototype.toISOString`, Node's base64 decoder and the string-to-number conversion of a Buffer element are parameters.
- The compression (superjson, gzip, base64) and `JSON.stringify` are parameters. A compression that rejects is not modelled, and neither is `decompress`, which the job never calls.
- The database is I/O. The select's rows are a parameter, and the update is applied to the first of them.
- Collation-based id matching in the database is not modelled, nor is an update whose `where` matches other rows. The database's own change of `updatedAt` is not modelled either.
- The queue, the worker bootstrap, retries, timeouts and concurrent jobs are left out. This includes the race between the select and the update.
- JavaScript orders integer-like property names before the others, and a `__proto__` key is special. The model keeps every key in plain insertion order.
- Spreadsheet numbers are exact reals. The cleanup ratio is computed in reals, which agrees with the double comparison for key counts below 2^52.
- BufferInput.ParseBuffer: the number elements of `data` are integers. Fractional, NaN and infinite elements are not modelled.
- BufferInput.ElementText: a number joined into base64 text is written in plain decimal. JavaScript's `String(n)` switches to exponent form (`"1e+21"`) at magnitudes of 10^21 and above, which is not modelled; for an array holding such a number after a leading string, the joined text, and so the decoded bytes, then differ from the source's.
- Only the `buffer` field is validated. The other payload fields are typed by construction, and the `.default(true)` of `smartCleanup` is modelled.
- The cleanup iterates over each sheet object's own keys. Every sheet object the decoder produces has exactly one key, so the model keeps one name per sheet.

