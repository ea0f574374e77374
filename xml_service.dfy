/** The report service: `processXMLUpload` (extract, reject a duplicate PAN,
    save, delete the uploaded file), `getAllReports` and
    `getReportByIdService`, over a record store and a file system. */
module XmlService {
  import opened Common
  import opened XmlParser

  type Path = string

  const DuplicateError: Failure :=
    Failure(Some(409), "Duplicate entry detected. Report already exists for this PAN.")

  const NotFoundError: Failure := Failure(Some(404), "Report not found!")

  /** What `fs.readFileSync` throws when the file is not there. */
  function ReadError(path: Path): Failure {
    Failure(None, "ENOENT: no such file or directory, open '" + path + "'")
  }

  /** A stored report: the extracted record plus the identifier and creation
      time the store assigns. */
  datatype CreditReport = CreditReport(
    id: nat,
    createdAt: nat,
    basicDetails: BasicDetails,
    reportSummary: ReportSummary,
    creditAccounts: seq<CreditAccount>)

  /** The store's answer to the two calls an upload makes, which are not
      modelled: `findOne` or `save` may reject with an error of their own. */
  datatype DbFault = NoFault | FindFails(findError: Failure) | SaveFails(saveError: Failure)

  /** Where one call of `processXMLUpload` ends, in the order the steps run. */
  datatype UploadOutcome =
    | ReadFailed(error: Failure)
    | ExtractFailed(error: Failure)
    | LookupFailed(error: Failure)
    | Duplicate
    | SaveFailed(error: Failure)
    | Saved(report: CreditReport)
  {
    /** The value returned, or the error thrown. */
    function Thrown(): (r: Result<CreditReport>)
      ensures r.Ok? <==> Saved?
      ensures Duplicate? ==> r == Err(DuplicateError)
    {
      match this
      case Saved(report) => Ok(report)
      case Duplicate => Err(DuplicateError)
      case ReadFailed(e) => Err(e)
      case ExtractFailed(e) => Err(e)
      case LookupFailed(e) => Err(e)
      case SaveFailed(e) => Err(e)
    }

    /** The paths on which the service itself calls `fs.unlinkSync`. */
    predicate DeletesFile() {
      Duplicate? || Saved?
    }
  }

  // ---------------------------------------------------------------------------
  // The store's queries
  // ---------------------------------------------------------------------------

  /** `findOne({ "basicDetails.pan": pan })` */
  function FindByPan(reports: seq<CreditReport>, pan: string): (r: Option<CreditReport>)
    ensures r.Some? ==> r.value in reports && r.value.basicDetails.pan == pan
    ensures r.None? ==> forall i :: 0 <= i < |reports| ==> reports[i].basicDetails.pan != pan
    ensures r.Some? <==> HasPan(reports, pan)
  {
    if reports == [] then None
    else if reports[0].basicDetails.pan == pan then Some(reports[0])
    else FindByPan(reports[1..], pan)
  }

  /** `findById(id)` */
  function FindById(reports: seq<CreditReport>, id: nat): (r: Option<CreditReport>)
    ensures r.Some? ==> r.value in reports && r.value.id == id
    ensures r.None? ==> forall i :: 0 <= i < |reports| ==> reports[i].id != id
  {
    if reports == [] then None
    else if reports[0].id == id then Some(reports[0])
    else FindById(reports[1..], id)
  }

  predicate HasPan(reports: seq<CreditReport>, pan: string) {
    exists i :: 0 <= i < |reports| && reports[i].basicDetails.pan == pan
  }

  /** At most one stored report per PAN. */
  predicate PansDistinct(reports: seq<CreditReport>) {
    forall i, j :: 0 <= i < j < |reports| ==> reports[i].basicDetails.pan != reports[j].basicDetails.pan
  }

  /** Reports are kept in creation order, identifiers and creation times
      strictly increase with it, and the clock is past all of them. */
  predicate Chronological(reports: seq<CreditReport>, clock: nat) {
    && (forall i :: 0 <= i < |reports| ==> reports[i].id < clock && reports[i].createdAt < clock)
    && (forall i, j :: 0 <= i < j < |reports| ==>
          reports[i].id < reports[j].id && reports[i].createdAt < reports[j].createdAt)
  }

  /** Sorted by `createdAt` descending. */
  predicate NewestFirst(reports: seq<CreditReport>) {
    forall i, j :: 0 <= i < j < |reports| ==> reports[i].createdAt > reports[j].createdAt
  }

  /** The report `new CreditReport(...)` plus `save()` stores. */
  function NewReport(x: ExtractedReport, stamp: nat): CreditReport {
    CreditReport(stamp, stamp, x.basicDetails, x.reportSummary, x.creditAccounts)
  }

  /** `find().sort({ createdAt: -1 })` over reports kept in creation order. */
  function ReverseChronological(reports: seq<CreditReport>): seq<CreditReport> {
    seq(|reports|, i requires 0 <= i < |reports| => reports[|reports| - 1 - i])
  }

  // ---------------------------------------------------------------------------
  // processXMLUpload, as a function of the state it starts from
  // ---------------------------------------------------------------------------

  /** Read the file, extract, look the PAN up, then save: the first step that
      fails ends the upload. `parsed` is what `parseExperianXML` makes of the
      file when it is there. */
  function UploadSpec(reports: seq<CreditReport>, clock: nat, filePath: Path, fileExists: bool,
                      parsed: Result<ExtractedReport>, fault: DbFault): UploadOutcome
  {
    if !fileExists then ReadFailed(ReadError(filePath))
    else match parsed
      case Err(e) => ExtractFailed(e)
      case Ok(x) =>
        if fault.FindFails? then LookupFailed(fault.findError)
        else if FindByPan(reports, x.basicDetails.pan).Some? then Duplicate
        else if fault.SaveFails? then SaveFailed(fault.saveError)
        else Saved(NewReport(x, clock))
  }

  /** The stored reports after an upload that ended in `o`. */
  function ReportsAfter(reports: seq<CreditReport>, o: UploadOutcome): seq<CreditReport> {
    if o.Saved? then reports + [o.report] else reports
  }

  // ---------------------------------------------------------------------------
  // State: the uploads directory and the report collection
  // ---------------------------------------------------------------------------

  /** The files on disk, and every `unlinkSync` made, in order. */
  class FileSystem {
    var files: set<Path>
    ghost var unlinked: seq<Path>

    constructor (files: set<Path>)
      ensures this.files == files && unlinked == []
    {
      this.files := files;
      unlinked := [];
    }

    /** `fs.existsSync(path)` */
    method ExistsSync(path: Path) returns (present: bool)
      ensures present <==> path in files
    {
      present := path in files;
    }

    /** `fs.unlinkSync(path)` of a file that is there. */
    method UnlinkSync(path: Path)
      requires path in files
      modifies this
      ensures files == old(files) - {path}
      ensures unlinked == old(unlinked) + [path]
    {
      files := files - {path};
      unlinked := unlinked + [path];
    }
  }

  /** The CreditReport collection: reports in insertion order, and the clock
      that gives each new report a fresh identifier and a later creation time. */
  class ReportStore {
    var reports: seq<CreditReport>
    var clock: nat

    ghost predicate Valid()
      reads this
    {
      Chronological(reports, clock)
    }

    constructor ()
      ensures Valid() && reports == [] && clock == 0
    {
      reports := [];
      clock := 0;
    }

    /** `newReport.save()`: assigns identifier and creation time and appends. */
    method Save(x: ExtractedReport) returns (report: CreditReport)
      requires Valid()
      modifies this
      ensures Valid()
      ensures report == NewReport(x, old(clock))
      ensures reports == old(reports) + [report] && clock == old(clock) + 1
    {
      report := NewReport(x, clock);
      reports := reports + [report];
      clock := clock + 1;
    }
  }

  // ---------------------------------------------------------------------------
  // The service
  // ---------------------------------------------------------------------------

  /** `processXMLUpload(filePath)`: `xml` is what the XML library makes of the
      file's text, `fault` what the database does with the two calls. */
  method ProcessXMLUpload(store: ReportStore, fs: FileSystem, filePath: Path, xml: XmlInput, fault: DbFault)
    returns (r: Result<CreditReport>, ghost o: UploadOutcome)
    requires store.Valid()
    modifies store, fs
    ensures o == UploadSpec(old(store.reports), old(store.clock), filePath, filePath in old(fs.files),
                            ParseExperianXML(xml), fault)
    ensures store.Valid()
    ensures r == o.Thrown()
    ensures store.reports == ReportsAfter(old(store.reports), o)
    ensures fs.files == (if o.DeletesFile() then old(fs.files) - {filePath} else old(fs.files))
    ensures fs.unlinked == old(fs.unlinked) + (if o.DeletesFile() then [filePath] else [])
    ensures o.DeletesFile() ==> filePath in old(fs.files)
    ensures PansDistinct(old(store.reports)) ==> PansDistinct(store.reports)
  {
    o := UploadSpec(store.reports, store.clock, filePath, filePath in fs.files, ParseExperianXML(xml), fault);
    if filePath !in fs.files {
      // readFileSync throws
      r := Err(ReadError(filePath));
      return;
    }
    var parsed := ParseExperianXML(xml);
    if parsed.Err? {
      r := Err(parsed.error);
      return;
    }
    r := StoreExtracted(store, fs, filePath, parsed.value, fault);
  }

  /** The part of `processXMLUpload` after extraction: look the PAN up, then
      delete the file and reject, or save and delete the file. */
  method StoreExtracted(store: ReportStore, fs: FileSystem, filePath: Path, x: ExtractedReport, fault: DbFault)
    returns (r: Result<CreditReport>)
    requires store.Valid() && filePath in fs.files
    modifies store, fs
    ensures store.Valid()
    ensures var o := UploadSpec(old(store.reports), old(store.clock), filePath, true, Ok(x), fault);
      && r == o.Thrown()
      && store.reports == ReportsAfter(old(store.reports), o)
      && fs.files == (if o.DeletesFile() then old(fs.files) - {filePath} else old(fs.files))
      && fs.unlinked == old(fs.unlinked) + (if o.DeletesFile() then [filePath] else [])
    ensures PansDistinct(old(store.reports)) ==> PansDistinct(store.reports)
  {
    ghost var o := UploadSpec(store.reports, store.clock, filePath, true, Ok(x), fault);
    if fault.FindFails? {
      return Err(fault.findError);
    }
    var existing := FindByPan(store.reports, x.basicDetails.pan);
    if existing.Some? {
      assert o == Duplicate;
      fs.UnlinkSync(filePath);
      return Err(DuplicateError);
    }
    if fault.SaveFails? {
      return Err(fault.saveError);
    }
    assert o == Saved(NewReport(x, store.clock));
    if PansDistinct(store.reports) {
      UploadKeepsPansDistinct(store.reports, store.clock, filePath, true, Ok(x), fault);
    }
    var report := store.Save(x);
    fs.UnlinkSync(filePath);
    return Ok(report);
  }

  /** `getAllReports()`: every stored report, newest first. */
  method GetAllReports(store: ReportStore) returns (all: seq<CreditReport>)
    requires store.Valid()
    ensures NewestFirst(all)
    ensures multiset(all) == multiset(store.reports)
  {
    all := ReverseChronological(store.reports);
    ReverseChronologicalIsNewestFirst(store.reports, store.clock);
  }

  /** `getReportByIdService(id)`: the report with that identifier, or 404. */
  method GetReportByIdService(store: ReportStore, id: nat) returns (r: Result<CreditReport>)
    ensures r.Ok? ==> r.value in store.reports && r.value.id == id
    ensures r.Err? <==> forall i :: 0 <= i < |store.reports| ==> store.reports[i].id != id
    ensures r.Err? ==> r.error == NotFoundError
  {
    var found := FindById(store.reports, id);
    if found.None? {
      return Err(NotFoundError);
    }
    return Ok(found.value);
  }

  // ---------------------------------------------------------------------------
  // Properties of an upload
  // ---------------------------------------------------------------------------

  /** An upload never stores a second report for a stored PAN. */
  lemma UploadKeepsPansDistinct(reports: seq<CreditReport>, clock: nat, filePath: Path, fileExists: bool,
                                 parsed: Result<ExtractedReport>, fault: DbFault)
    requires PansDistinct(reports)
    ensures PansDistinct(ReportsAfter(reports, UploadSpec(reports, clock, filePath, fileExists, parsed, fault)))
  {
    var o := UploadSpec(reports, clock, filePath, fileExists, parsed, fault);
    if o.Saved? {
      var after := reports + [o.report];
      assert FindByPan(reports, o.report.basicDetails.pan).None?;
      forall i, j | 0 <= i < j < |after|
        ensures after[i].basicDetails.pan != after[j].basicDetails.pan
      {
        if j == |reports| { assert after[i] == reports[i]; }
      }
    }
  }

  /** A stored PAN, the empty one included, is rejected with 409; the store
      is untouched and the service deletes the file. */
  lemma DuplicatePanIsRejected(reports: seq<CreditReport>, clock: nat, filePath: Path, x: ExtractedReport, k: nat)
    requires k < |reports| && reports[k].basicDetails.pan == x.basicDetails.pan
    ensures var o := UploadSpec(reports, clock, filePath, true, Ok(x), NoFault);
      && o == Duplicate
      && o.Thrown() == Err(Failure(Some(409), "Duplicate entry detected. Report already exists for this PAN."))
      && o.DeletesFile()
      && ReportsAfter(reports, o) == reports
  {
  }

  /** A new PAN is saved as exactly one report carrying the extracted record,
      with an identifier no stored report has and the latest creation time. */
  lemma NewPanIsSaved(reports: seq<CreditReport>, clock: nat, filePath: Path, x: ExtractedReport)
    requires Chronological(reports, clock)
    requires !HasPan(reports, x.basicDetails.pan)
    ensures var o := UploadSpec(reports, clock, filePath, true, Ok(x), NoFault);
      && o.Saved? && o.DeletesFile()
      && o.report.basicDetails == x.basicDetails
      && o.report.reportSummary == x.reportSummary
      && o.report.creditAccounts == x.creditAccounts
      && (forall i :: 0 <= i < |reports| ==> reports[i].id != o.report.id && reports[i].createdAt < o.report.createdAt)
      && ReportsAfter(reports, o) == reports + [o.report]
      && Chronological(ReportsAfter(reports, o), clock + 1)
  {
  }

  /** An extraction error is thrown on unchanged: nothing is looked up,
      saved or deleted. */
  lemma ExtractionFailureTouchesNothing(reports: seq<CreditReport>, clock: nat, filePath: Path, e: Failure, fault: DbFault)
    ensures var o := UploadSpec(reports, clock, filePath, true, Err(e), fault);
      && o == ExtractFailed(e)
      && o.Thrown() == Err(e)
      && !o.DeletesFile()
      && ReportsAfter(reports, o) == reports
  {
  }

  /** Two uploads in a row with the same PAN: the first is saved and the
      second is rejected, leaving one report for that PAN. */
  lemma RepeatedUploadIsRejected(reports: seq<CreditReport>, clock: nat, filePath: Path, x1: ExtractedReport, x2: ExtractedReport)
    requires x1.basicDetails.pan == x2.basicDetails.pan
    requires !HasPan(reports, x1.basicDetails.pan)
    ensures var first := UploadSpec(reports, clock, filePath, true, Ok(x1), NoFault);
      && first.Saved?
      && UploadSpec(ReportsAfter(reports, first), clock + 1, filePath, true, Ok(x2), NoFault) == Duplicate
  {
    var first := UploadSpec(reports, clock, filePath, true, Ok(x1), NoFault);
    DuplicatePanIsRejected(ReportsAfter(reports, first), clock + 1, filePath, x2, |reports|);
  }

  // ---------------------------------------------------------------------------
  // Properties of the listing
  // ---------------------------------------------------------------------------

  lemma {:induction false} ReverseChronologicalMultiset(reports: seq<CreditReport>)
    ensures multiset(ReverseChronological(reports)) == multiset(reports)
    decreases |reports|
  {
    if reports != [] {
      var n := |reports|;
      var init := reports[..n - 1];
      ReverseChronologicalMultiset(init);
      assert ReverseChronological(reports) == [reports[n - 1]] + ReverseChronological(init);
      assert reports == init + [reports[n - 1]];
    }
  }

  /** Reversing the creation order lists every report, newest first. */
  lemma ReverseChronologicalIsNewestFirst(reports: seq<CreditReport>, clock: nat)
    requires Chronological(reports, clock)
    ensures NewestFirst(ReverseChronological(reports))
    ensures multiset(ReverseChronological(reports)) == multiset(reports)
  {
    ReverseChronologicalMultiset(reports);
  }
}
