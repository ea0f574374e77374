/** The HTTP handlers: `uploadXML`, `getXML` and `getReportById`. A handler
    either answers with `res.json({ message, data })` or passes an error to
    `next`, and the error handler turns it into a status and a message. */
module XmlController {
  import opened Common
  import opened XmlParser
  import opened XmlService

  const UploadedMessage: string := "XML uploaded and data saved successfully!"
  const ReportsFetchedMessage: string := "Reports fetched successfully!"
  const ReportFetchedMessage: string := "Report fetched successfully!"

  const NoFileError: Failure := Failure(Some(400), "No file uploaded!")

  datatype Payload = OneReport(report: CreditReport) | ReportList(reports: seq<CreditReport>)

  /** What a handler does with a request: `res.json(...)` or `next(error)`. */
  datatype Reply = Json(message: string, data: Payload) | Next(error: Failure)

  /** The error handler's status: `err.statusCode || 500`. */
  function ErrorStatus(e: Failure): (status: nat)
    ensures status != 0
    ensures e.statusCode.Some? && e.statusCode.value != 0 ==> status == e.statusCode.value
    ensures !(e.statusCode.Some? && e.statusCode.value != 0) ==> status == 500
  {
    if e.statusCode.Some? && e.statusCode.value != 0 then e.statusCode.value else 500
  }

  /** The error handler's message: `err.message || "Internal Server Error"`. */
  function ErrorMessage(e: Failure): (message: string)
    ensures message != ""
    ensures e.message != "" ==> message == e.message
    ensures e.message == "" ==> message == "Internal Server Error"
  {
    if e.message != "" then e.message else "Internal Server Error"
  }

  /** The HTTP status a reply ends with. */
  function HttpStatus(reply: Reply): nat {
    match reply
    case Json(_, _) => 200
    case Next(e) => ErrorStatus(e)
  }

  /** What `uploadXML` answers once the service has returned or thrown. */
  function ReplyOf(r: Result<CreditReport>): (reply: Reply)
    ensures reply.Json? <==> r.Ok?
    ensures r.Ok? ==> reply == Json(UploadedMessage, OneReport(r.value))
    ensures r.Err? ==> reply == Next(r.error)
  {
    match r
    case Ok(report) => Json(UploadedMessage, OneReport(report))
    case Err(e) => Next(e)
  }

  /** What `uploadXML` does with the service's outcome. */
  function UploadReply(o: UploadOutcome): (reply: Reply)
    ensures reply.Json? <==> o.Saved?
    ensures o.Saved? ==> reply == Json(UploadedMessage, OneReport(o.report))
    ensures !o.Saved? ==> reply == Next(o.Thrown().error)
  {
    ReplyOf(o.Thrown())
  }

  /** Each error the core throws reaches the client with its own status;
      library errors, which carry none, become 500. */
  lemma ErrorStatuses(path: Path, reason: string)
    ensures HttpStatus(Next(NoFileError)) == 400 && ErrorMessage(NoFileError) == "No file uploaded!"
    ensures HttpStatus(Next(DuplicateError)) == 409
    ensures ErrorMessage(DuplicateError) == "Duplicate entry detected. Report already exists for this PAN."
    ensures HttpStatus(Next(NotFoundError)) == 404 && ErrorMessage(NotFoundError) == "Report not found!"
    ensures HttpStatus(Next(ReadError(path))) == 500
    ensures HttpStatus(Next(Failure(None, reason))) == 500
  {
  }

  /** The service deletes the upload on some paths and the handler's clean-up
      on the others: either way it is gone afterwards, deleted at most once. */
  lemma UploadRemovesFile(path: Path, o: UploadOutcome, r: Result<CreditReport>,
                          files0: set<Path>, unlinked0: seq<Path>,
                          files1: set<Path>, unlinked1: seq<Path>,
                          files2: set<Path>, unlinked2: seq<Path>)
    requires r == o.Thrown()
    requires o.DeletesFile() ==> path in files0
    requires files1 == (if o.DeletesFile() then files0 - {path} else files0)
    requires unlinked1 == unlinked0 + (if o.DeletesFile() then [path] else [])
    requires r.Ok? ==> files2 == files1 && unlinked2 == unlinked1
    requires r.Err? ==> files2 == files1 - {path} && unlinked2 == unlinked1 + (if path in files1 then [path] else [])
    ensures files2 == files0 - {path}
    ensures unlinked2 == unlinked0 + (if path in files0 then [path] else [])
  {
  }

  class XmlController {
    const store: ReportStore
    const fs: FileSystem

    constructor (store: ReportStore, fs: FileSystem)
      ensures this.store == store && this.fs == fs
    {
      this.store := store;
      this.fs := fs;
    }

    /** `uploadXML`: `file` is the path of `req.file`, if any. Whichever layer
        deletes it, the uploaded file is gone when the handler returns, and it
        is deleted at most once. */
    method UploadXML(file: Option<Path>, xml: XmlInput, fault: DbFault) returns (reply: Reply)
      requires store.Valid()
      modifies store, fs
      ensures store.Valid()
      ensures file.None? ==>
        && reply == Next(NoFileError)
        && store.reports == old(store.reports) && store.clock == old(store.clock)
        && fs.files == old(fs.files) && fs.unlinked == old(fs.unlinked)
      ensures file.Some? ==>
        var o := UploadSpec(old(store.reports), old(store.clock), file.value, file.value in old(fs.files),
                            ParseExperianXML(xml), fault);
        && reply == UploadReply(o)
        && store.reports == ReportsAfter(old(store.reports), o)
        && fs.files == old(fs.files) - {file.value}
        && fs.unlinked == old(fs.unlinked) + (if file.value in old(fs.files) then [file.value] else [])
      ensures PansDistinct(old(store.reports)) ==> PansDistinct(store.reports)
    {
      if file.None? {
        return Next(NoFileError);
      }
      ghost var o;
      reply, o := UploadFile(file.value, xml, fault);
    }

    /** `uploadXML` once multer has stored the upload at `path`; `o` is where
        the service's run ended. */
    method UploadFile(path: Path, xml: XmlInput, fault: DbFault) returns (reply: Reply, ghost o: UploadOutcome)
      requires store.Valid()
      modifies store, fs
      ensures o == UploadSpec(old(store.reports), old(store.clock), path, path in old(fs.files),
                              ParseExperianXML(xml), fault)
      ensures store.Valid()
      ensures reply == UploadReply(o)
      ensures store.reports == ReportsAfter(old(store.reports), o)
      ensures fs.files == old(fs.files) - {path}
      ensures fs.unlinked == old(fs.unlinked) + (if path in old(fs.files) then [path] else [])
      ensures PansDistinct(old(store.reports)) ==> PansDistinct(store.reports)
    {
      ghost var files0, unlinked0 := fs.files, fs.unlinked;
      var r;
      r, o := ProcessXMLUpload(store, fs, path, xml, fault);
      ghost var files1, unlinked1 := fs.files, fs.unlinked;
      reply := Respond(path, r);
      UploadRemovesFile(path, o, r, files0, unlinked0, files1, unlinked1, fs.files, fs.unlinked);
    }

    /** The rest of `uploadXML` once the service has returned `r` or thrown:
        answer with the saved report, or delete the upload if it is still
        there and pass the error on. */
    method Respond(path: Path, r: Result<CreditReport>) returns (reply: Reply)
      modifies fs
      ensures reply == ReplyOf(r)
      ensures r.Ok? ==> fs.files == old(fs.files) && fs.unlinked == old(fs.unlinked)
      ensures r.Err? ==> fs.files == old(fs.files) - {path}
      ensures r.Err? ==> fs.unlinked == old(fs.unlinked) + (if path in old(fs.files) then [path] else [])
    {
      match r
      case Ok(report) =>
        reply := Json(UploadedMessage, OneReport(report));
      case Err(e) =>
        DiscardUpload(path);
        reply := Next(e);
    }

    /** The handler's clean-up: `if (req.file && fs.existsSync(path)) fs.unlinkSync(path)`. */
    method DiscardUpload(path: Path)
      modifies fs
      ensures fs.files == old(fs.files) - {path}
      ensures fs.unlinked == old(fs.unlinked) + (if path in old(fs.files) then [path] else [])
    {
      var present := fs.ExistsSync(path);
      if present {
        fs.UnlinkSync(path);
      }
    }

    /** `getXML` */
    method GetXML() returns (reply: Reply)
      requires store.Valid()
      ensures reply.Json? && reply.message == ReportsFetchedMessage && reply.data.ReportList?
      ensures NewestFirst(reply.data.reports)
      ensures multiset(reply.data.reports) == multiset(store.reports)
    {
      var reports := GetAllReports(store);
      reply := Json(ReportsFetchedMessage, ReportList(reports));
    }

    /** `getReportById`: the report, or the service's 404 passed on unchanged. */
    method GetReportById(id: nat) returns (reply: Reply)
      ensures reply.Json? <==> exists i :: 0 <= i < |store.reports| && store.reports[i].id == id
      ensures reply.Json? ==>
        && reply.message == ReportFetchedMessage && reply.data.OneReport?
        && reply.data.report in store.reports && reply.data.report.id == id
      ensures reply.Next? ==> reply.error == NotFoundError && HttpStatus(reply) == 404
    {
      var r := GetReportByIdService(store, id);
      match r
      case Ok(report) =>
        reply := Json(ReportFetchedMessage, OneReport(report));
      case Err(e) =>
        reply := Next(e);
    }
  }
}
