# Experian credit-report ingestion, modelled in Dafny

This project models the backend path that takes an uploaded Experian credit
report in XML and stores it as a normalised record. It has three layers:

- **Field extractor** (`XmlParser`, lemmas in `XmlParserProperties`). The XML
  library's output is a tree, `Node = Text | Obj | Arr`. `ExtractReport`
  pulls the fixed set of fields out of that tree. It follows the JavaScript
  operators the extractor uses: optional chaining (`Prop`, `Path`, `Index0`),
  `||` with JavaScript truthiness (`Truthy`, `Or`, where only `undefined` and
  `""` are falsy), `String()` of a node (`JsString`),
  `String.prototype.trim` (`Trim`) and `Number(x || 0)` (`NumberOf`).
  `ParseExperianXML` adds the parse error that the XML library may throw.
- **Service** (`XmlService`). A `ReportStore` holds the reports in insertion
  order, plus a clock that issues identifiers and creation times. A
  `FileSystem` holds the set of files on disk and a ghost log of every
  `unlinkSync`. `UploadSpec` is the pure specification of one
  `processXMLUpload`. It returns the terminal state the upload reaches: read
  failed, extraction failed, lookup failed, duplicate, save failed or saved.
  The method `ProcessXMLUpload` is proved against it. `GetAllReports` and
  `GetReportByIdService` are the two read queries.
- **Controller** (`XmlController`). The class `XmlController` holds the store
  and the file system. `UploadXML` calls the service, deletes the uploaded
  file in its error path if the file still exists, and either answers
  (`Json`) or passes the error on (`Next`). `ErrorStatus` and `ErrorMessage`
  turn a passed-on error into a status and a message.

The main results:

- The PAN is resolved from the first account's holder, then the applicant,
  then `""`. A single account that arrives as an object rather than an array
  never supplies the PAN, even though it yields the same account list
  (`SingleAccountShapeChangesOnlyPan`).
- A stored PAN, including `""`, is rejected with 409 and the store is left
  alone. A new PAN appends exactly one report when `save` succeeds. Distinct PANs stay distinct
  across uploads.
- The uploaded file is absent when `UploadXML` returns, on every path. It is
  deleted at most once.

Behaviour of the code that is easy to misread, and that the model keeps:

- A score or amount that is not a plain digit string is not computed. It is
  kept as `Unmodelled(x)`, which stands for JavaScript's `Number(x)`. That
  value may be NaN (`"abc"`) or 0 (`" "`, `"0.0"`); the model assumes neither.
- A tree without an `INProfileResponse` root is not an error. It yields a
  record in which every field has its default value.
- A parse error carries no status code, so it is reported as 500, not as a
  400-class error.
- After an extraction failure the service does not delete the file, but the
  controller's error path does. So the file is gone on that path too.

## Model

| member | source | states |
|---|---|---|
| `XmlParser.TextOr` | backend/utils/xmlParser.js:18 | a text field that is absent or `""` becomes `""`; a string is kept as it is |
| `XmlParser.TrimStartSpec` | backend/utils/xmlParser.js:16 | `trim` drops the longest all-whitespace prefix (ECMAScript WhiteSpace and LineTerminator) and nothing else |
| `XmlParser.TrimEndSpec` | backend/utils/xmlParser.js:16 | `trim` drops the longest all-whitespace suffix and nothing else |
| `XmlParser.Trim` | backend/utils/xmlParser.js:16 | the result has no whitespace at either end; it is empty exactly when the input is all whitespace; an already-trimmed string is unchanged |
| `XmlParser.NumberOf` | backend/utils/xmlParser.js:24 | `Number(x \|\| 0)` is 0 when `x` is absent or `""`; only a digit string gives an exact value |
| `XmlParser.Index0` | backend/utils/xmlParser.js:20 | `?.[0]` gives the first item of an array, the property "0" of an object and the first character of a string; used by `HolderPan`, whose behaviour the PAN lemmas below state |
| `XmlParser.HolderPan` | backend/utils/xmlParser.js:19-21 | the holder PAN is read from the first account entry only; stated by `HolderPanFromFirstEntryOnly`, `PanFromFirstAccountHolder` and `ScalarAccountNeverSuppliesPan` |
| `XmlParserProperties.HolderPanFromFirstEntryOnly` | backend/utils/xmlParser.js:20-21 | for an account array, the holder PAN is the first entry's holder PAN; later entries are never consulted |
| `XmlParser.ResolvePan` | backend/utils/xmlParser.js:19-23 | holder PAN, else applicant PAN, else `""`; stated by `PanFromFirstAccountHolder`, `PanFromApplicant` and `PanEmptyWhenNeither` |
| `XmlParser.FullName` | backend/utils/xmlParser.js:15-17 | the name is never empty and has no surrounding whitespace |
| `XmlParser.Summary` | backend/utils/xmlParser.js:27-49 | the seven summary numbers; when neither the CAIS summary nor the enquiry count is there, all of them are 0 |
| `XmlParser.AccountList` | backend/utils/xmlParser.js:52-55 | an absent or empty account node gives no accounts, an array gives its items in order, and any other node gives a list of that one account |
| `XmlParser.Segments` | backend/utils/xmlParser.js:60-70 | `.filter(Boolean)` never yields more segments than components; `SegmentsSpec` and `SegmentsOnePerTruthyComponent` state what it keeps |
| `XmlParser.SegmentsSpec` | backend/utils/xmlParser.js:60-70 | the result is empty exactly when no component is truthy; no segment is empty when every component is absent or a string |
| `XmlParserProperties.SegmentsOnePerTruthyComponent` | backend/utils/xmlParser.js:60-70 | `filter(Boolean)` keeps one segment per truthy component: as many segments as truthy components, segment j the string of a truthy component, at strictly increasing positions |
| `XmlParser.Address` | backend/utils/xmlParser.js:58-70 | the holder address; stated by `AddressOfTexts` (the `", "` join of the non-empty string components in field order) and `AddressEmptyWhenAllAbsent` (`""` when all seven are absent or empty) |
| `XmlParser.ExtractAccount` | backend/utils/xmlParser.js:57-79 | one account from its node; stated by `AccountFieldDefaults` (each absent or empty field's default), `AccountDefaults` (a field-less node) and `AddressOfTexts` |
| `XmlParser.ExtractReport` | backend/utils/xmlParser.js:8-86 | the record built from a parsed tree; stated by the name, PAN, account, summary and address lemmas below and by `ExtractionDependsOnlyOnRoot` |
| `XmlParser.ParseExperianXML` | backend/utils/xmlParser.js:4-87 | a parse error is thrown unchanged and without a status code; a parse result always yields a record; a tree without a (non-empty) `INProfileResponse` root yields name "Unknown", mobile and PAN `""`, score 0, an all-zero summary and no accounts |
| `XmlParserProperties.TrimDropsPadding` | backend/utils/xmlParser.js:16 | `trim` removes exactly the whitespace around a non-empty trimmed word |
| `XmlParserProperties.NameFallsBackToUnknown` | backend/utils/xmlParser.js:15-17 | first and last name absent, empty or blank give exactly "Unknown" |
| `XmlParserProperties.NameJoinsBothParts` | backend/utils/xmlParser.js:15-17 | two trimmed non-empty parts give "first last" |
| `XmlParserProperties.NameFromFirstOnly` | backend/utils/xmlParser.js:15-17 | a missing last name gives the first name alone, without a trailing space |
| `XmlParserProperties.NameFromLastOnly` | backend/utils/xmlParser.js:15-17 | a missing first name gives the last name alone, without a leading space |
| `XmlParserProperties.PanFromFirstAccountHolder` | backend/utils/xmlParser.js:19-21 | when the account node is an array whose first entry has a non-empty holder PAN, that PAN is used, whatever the applicant PAN is |
| `XmlParserProperties.PanFromApplicant` | backend/utils/xmlParser.js:19-22 | without a usable holder PAN, the applicant's non-empty PAN is used |
| `XmlParserProperties.PanEmptyWhenNeither` | backend/utils/xmlParser.js:19-23 | with neither PAN present and non-empty, the PAN is `""` |
| `XmlParserProperties.ScalarAccountNeverSuppliesPan` | backend/utils/xmlParser.js:19-23 | an account node that is a single object never supplies the PAN; the applicant's PAN (or `""`) is used |
| `XmlParserProperties.AccountsWhenAbsent` | backend/utils/xmlParser.js:52-55 | an absent or empty account node gives no accounts |
| `XmlParserProperties.AccountsFromArray` | backend/utils/xmlParser.js:52-57 | an array of n account nodes gives n accounts in the same order |
| `XmlParserProperties.AccountsFromScalar` | backend/utils/xmlParser.js:52-57 | a single non-array account node gives exactly one account |
| `XmlParserProperties.ScalarAndSingletonGiveSameAccounts` | backend/utils/xmlParser.js:52-57 | a scalar node and a one-element array holding it give the same account list |
| `XmlParserProperties.SingleAccountShapeChangesOnlyPan` | backend/utils/xmlParser.js:19-57 | one account sent as an object or as a one-element array gives the same accounts; only the array form supplies its holder PAN |
| `XmlParserProperties.SegmentsAppend` | backend/utils/xmlParser.js:60-69 | filtering keeps the components' order: filtering a concatenation is concatenating the filtered parts |
| `XmlParserProperties.AddressEmptyWhenAllAbsent` | backend/utils/xmlParser.js:58-70 | with all seven components absent or empty, the address is `""` |
| `XmlParserProperties.AddressHasNoEmptySegment` | backend/utils/xmlParser.js:60-70 | with string components, the address joins segments none of which is empty |
| `XmlParserProperties.AddressOfTexts` | backend/utils/xmlParser.js:60-70 | with string components, the address is the `", "` join of the non-empty ones, in their fixed order |
| `XmlParserProperties.AddressExample` | backend/utils/xmlParser.js:60-70 | components "a", "", "b", "", "", "c", "" give "a, b, c" |
| `XmlParserProperties.DecimalRoundTrip` | backend/utils/xmlParser.js:24 | the decimal rendering of n is a digit string whose value is n |
| `XmlParserProperties.NumberOfDecimal` | backend/utils/xmlParser.js:24 | `Number` of the decimal rendering of a safe integer is that integer |
| `XmlParserProperties.NumberOfNonDigits` | backend/utils/xmlParser.js:24 | a non-empty string that is not all digits stays `Unmodelled`: `Number` of it, NaN or a number such as 0, is not computed |
| `XmlParserProperties.AccountFieldDefaults` | backend/utils/xmlParser.js:58-77 | each account field that is absent or `""` takes its default (`""` text, 0 amount, `""` address), whatever the other fields hold |
| `XmlParserProperties.AccountDefaults` | backend/utils/xmlParser.js:72-79 | an account without fields has `""` texts, zero amounts and an empty address |
| `XmlParserProperties.ExtractionDependsOnlyOnRoot` | backend/utils/xmlParser.js:8-86 | the record is a function of the `INProfileResponse` subtree alone, so the same tree always gives the same record |
| `XmlService.FindByPan` | backend/services/xmlService.js:10-14 | `findOne` on the PAN finds a stored report with exactly that PAN, and finds one exactly when one exists |
| `XmlService.FindById` | backend/services/xmlService.js:40-41 | `findById` finds a stored report with that identifier, and none only when no report has it |
| `XmlService.ReportStore.Save` | backend/services/xmlService.js:22-28 | `save` appends exactly one report, with a fresh identifier and the latest creation time, and keeps the store's order invariant |
| `XmlService.FileSystem.UnlinkSync` | backend/services/xmlService.js:15 | `unlinkSync` of a file that is there removes exactly that file and records one deletion |
| `XmlService.UploadSpec` | backend/services/xmlService.js:5-31 | where one upload ends, step by step; stated by `UploadKeepsPansDistinct`, `DuplicatePanIsRejected`, `NewPanIsSaved`, `ExtractionFailureTouchesNothing` and `RepeatedUploadIsRejected` |
| `XmlService.ProcessXMLUpload` | backend/services/xmlService.js:5-32 | the result, the new store and the new file set are those `UploadSpec` gives for the old state; the service deletes only a file that was there; distinct PANs stay distinct |
| `XmlService.StoreExtracted` | backend/services/xmlService.js:10-31 | after a successful extraction: a failed lookup changes nothing; a stored PAN deletes the file and throws 409; a rejected save changes nothing and passes its error on; otherwise one report is appended and the file is deleted |
| `XmlService.UploadKeepsPansDistinct` | backend/services/xmlService.js:10-28 | if stored PANs are pairwise distinct before an upload, they are after it, whatever the outcome |
| `XmlService.DuplicatePanIsRejected` | backend/services/xmlService.js:10-20 | a PAN already stored (`""` included) gives 409 with the duplicate message; the store is unchanged and the file is deleted |
| `XmlService.NewPanIsSaved` | backend/services/xmlService.js:22-31 | with both store calls succeeding, a new PAN appends exactly one report carrying the extracted details, summary and accounts, with a fresh identifier and the latest creation time; the file is deleted |
| `XmlService.ExtractionFailureTouchesNothing` | backend/services/xmlService.js:5-7 | an extraction error is thrown unchanged before any lookup; nothing is saved and the service deletes nothing |
| `XmlService.RepeatedUploadIsRejected` | backend/services/xmlService.js:10-31 | uploading a new PAN twice in a row saves the first and rejects the second as a duplicate |
| `XmlService.GetAllReports` | backend/services/xmlService.js:35-37 | the list holds every stored report (as a multiset) sorted by creation time, newest first |
| `XmlService.ReverseChronologicalIsNewestFirst` | backend/services/xmlService.js:36 | reports kept in creation order, read backwards, are every report sorted newest first |
| `XmlService.GetReportByIdService` | backend/services/xmlService.js:39-43 | returns a stored report with the identifier; fails with 404 "Report not found!" exactly when no report has it |
| `XmlController.ErrorStatus` | backend/tests/xmlController.test.js:13-14 | an error with a non-zero status code is reported with it; a missing or zero code gives 500; the status is never 0 |
| `XmlController.ErrorMessage` | backend/tests/xmlController.test.js:15 | the error's own message is sent; an empty one is replaced by "Internal Server Error" |
| `XmlController.UploadReply` | backend/controller/xmlController.js:10-18 | a saved report gets the success message with the report; every other outcome passes the service's error on unchanged |
| `XmlController.ErrorStatuses` | backend/tests/xmlController.test.js:13-16 | no file gives 400, a duplicate 409, a missing report 404, a library error 500 |
| `XmlController.UploadRemovesFile` | backend/controller/xmlController.js:16-18 | whether the service deleted the upload or the error path does, the file is gone afterwards and was deleted at most once |
| `XmlController.XmlController.UploadXML` | backend/controller/xmlController.js:6-20 | no file gives 400 and touches nothing; otherwise the reply and the store follow the service's outcome, and the uploaded file is gone afterwards, deleted at most once |
| `XmlController.XmlController.UploadFile` | backend/controller/xmlController.js:10-19 | with a file: the reply mirrors the service's outcome and the file is removed |
| `XmlController.XmlController.Respond` | backend/controller/xmlController.js:12-19 | a returned report is answered and nothing is deleted; on a thrown error the upload is deleted if still there and the error is passed on |
| `XmlController.XmlController.DiscardUpload` | backend/controller/xmlController.js:17 | the file is removed if present, with one `unlinkSync` exactly when it was there |
| `XmlController.XmlController.GetXML` | backend/controller/xmlController.js:24-31 | answers "Reports fetched successfully!" with every stored report, newest first |
| `XmlController.XmlController.GetReportById` | backend/controller/xmlController.js:33-40 | answers "Report fetched successfully!" with the report that has the identifier, or passes on the 404 unchanged |

The read handlers and read services have no `modifies` clause, so they leave
the store and the file system unchanged.

## Left out

- Reading the file and parsing the XML (backend/utils/xmlParser.js:5-7) use `fs.readFileSync` and the xml2js library. The model takes their outcome as a parameter of type `XmlInput`: a parse error, or the parsed tree. A missing file gives the `ENOENT` error that `readFileSync` throws.
- TextOr: a string field whose node is an object or an array is stored by the source as the raw node, and the database's string cast may then reject it. The model stores the node's `String()` rendering instead. For the name, which goes through a template literal, this rendering is exactly what JavaScript does.
- NumberOf: JavaScript's `Number` is followed only for digit strings up to 2^53 - 1. Decimals, whitespace, signs, hexadecimal, longer digit strings, objects and arrays give `Unmodelled(x)`, which stands for `Number(x)`, NaN or a number such as 0, and is not computed. NaN arithmetic and the database's rejection of NaN are not modelled.
- Index0: `?.[0]` on a string indexes UTF-16 code units, and the model indexes characters. This cannot change the extracted record, because the next lookup on a one-character string is `undefined` either way.
- Property lookups that would reach JavaScript built-ins (`length`, prototype members) are not modelled, because none of the element names the extractor reads is one.
- Identifiers and creation times come from one counter in the store, which only increases. MongoDB ObjectIds, `Date.now` (and two uploads in the same millisecond), and `findById` rejecting an ill-formed identifier with a cast error are not modelled.
- GetAllReports: the model answers by reversing the insertion order. Under the store's invariant this equals MongoDB's sort on `createdAt`, and the contract states the sorted-permutation property itself.
- Database failures: `findOne` and `save` rejecting are the parameter `DbFault`. `find` and `findById` rejecting in the read handlers are not modelled. The source passes those errors to `next` unchanged.
- The race between `findOne` and `save` across concurrent uploads is not modelled. PAN uniqueness is proved only for uploads that run one after another.
- The server's own error middleware (backend/middleware/errorHandler.js) is not part of this model. Statuses and messages follow the error handler in backend/tests/xmlController.test.js:13-16.
- Express wiring, multer, environment and port setup, the database connection (backend/server.js, backend/routes/xmlRoutes.js, backend/config/dbConnection.js) and the React frontend are HTTP, I/O and UI plumbing, and are left out.
