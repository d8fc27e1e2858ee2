/** The HTTP layer's own logic: how the full-pipeline endpoint chooses its
    input and runs the stages, how a report id names both the stored PDF and
    its download URL, and the `temp/` directory of reports that the report
    endpoints add to and the download endpoint reads. The stages themselves
    (transcription, entity extraction, summarisation, report generation and
    the PDF build) are parameters. */
module Api {
  import opened Strings
  import opened Results
  import opened MedicalNer

  /** An uploaded audio file. */
  datatype AudioFile = AudioFile(content: seq<bv8>)

  /** The pipeline stages as functions; a `Failure(e)` is a stage that raises
      with `str(e) == e`. `savePdf(report, filename)` is whether the PDF was
      written, which is never an exception. */
  datatype Stages = Stages(
    transcribe: AudioFile -> Result<string>,
    extractEntities: string -> Result<seq<MedicalEntity>>,
    summarize: string -> Result<string>,
    generateReport: (seq<MedicalEntity>, string) -> Result<string>,
    savePdf: (string, string) -> bool)

  /** The steps of the full pipeline, in the order they are taken. */
  datatype Stage = Transcribe | ExtractEntities | Summarize | GenerateReport | SavePdf | ScheduleIndex

  /** A JSON body, or an `HTTPException(status, detail)`. */
  datatype HttpResponse<+T> = Ok(body: T) | HttpError(status: int, detail: string)

  datatype FullProcessResponse = FullProcessResponse(
    transcription: string,
    entities: seq<MedicalEntity>,
    summary: string,
    report: string,
    reportUrl: string)

  datatype ReportResponse = ReportResponse(report: string, reportUrl: string)

  /** A `FileResponse`: the file sent, the name offered to the client, its type. */
  datatype FileDownload = FileDownload(path: string, filename: string, mediaType: string)

  /** What one request to the full pipeline does: the answer, the stages it
      entered (the last one is the one that raised, on an error), whether the
      PDF was written, and the text handed to the background indexing task. */
  datatype ProcessRun = ProcessRun(
    response: HttpResponse<FullProcessResponse>,
    trace: seq<Stage>,
    savedPdf: bool,
    indexText: Option<string>)

  const NoInputDetail: string := "Either audio file or text must be provided"
  const ProcessingErrorPrefix: string := "Processing error: "
  const ReportErrorPrefix: string := "Report generation error: "
  const ReportNotFound: string := "Report not found"
  const DownloadPrefix: string := "/download_report/"
  const ReportFilePrefix: string := "temp/report_"
  const ReportFileSuffix: string := ".pdf"

  /** Every stage, for an uploaded file; typed text skips the first. */
  const FileStages: seq<Stage> := [Transcribe, ExtractEntities, Summarize, GenerateReport, SavePdf, ScheduleIndex]
  const TextStages: seq<Stage> := [ExtractEntities, Summarize, GenerateReport, SavePdf, ScheduleIndex]

  // ---------------------------------------------------------------------------
  // Report ids
  // ---------------------------------------------------------------------------

  /** Where the PDF of a report is written. */
  function ReportFilename(reportId: string): string {
    ReportFilePrefix + reportId + ReportFileSuffix
  }

  /** The download URL handed back for a report. */
  function ReportUrl(reportId: string): string {
    DownloadPrefix + reportId
  }

  /** The id the route `/download_report/{report_id}` reads off a path: a
      path parameter is one non-empty path segment. */
  function RouteReportId(path: string): Option<string> {
    if StartsWith(path, DownloadPrefix) && |path| > |DownloadPrefix| && '/' !in path[|DownloadPrefix|..]
    then Some(path[|DownloadPrefix|..])
    else None
  }

  /** Different ids never share a PDF file, so the file the download endpoint
      looks for is the one written for that id and no other. */
  lemma ReportFilenameInjective(a: string, b: string)
    ensures ReportFilename(a) == ReportFilename(b) <==> a == b
  {
    if ReportFilename(a) == ReportFilename(b) {
      var n := |ReportFilePrefix|;
      assert a == ReportFilename(a)[n..|ReportFilename(a)| - |ReportFileSuffix|];
      assert b == ReportFilename(b)[n..|ReportFilename(b)| - |ReportFileSuffix|];
    }
  }

  /** The URL of a report leads back to its id (a generated id is one
      non-empty segment), and the paths the download route accepts are
      exactly such URLs. */
  lemma ReportUrlRoundTrip(reportId: string, path: string)
    ensures reportId != "" && '/' !in reportId ==> RouteReportId(ReportUrl(reportId)) == Some(reportId)
    ensures RouteReportId(path) == Some(reportId) ==> path == ReportUrl(reportId)
  {
    if reportId != "" && '/' !in reportId {
      assert ReportUrl(reportId)[|DownloadPrefix|..] == reportId;
    }
    if RouteReportId(path) == Some(reportId) {
      assert path == path[..|DownloadPrefix|] + path[|DownloadPrefix|..];
    }
  }

  // ---------------------------------------------------------------------------
  // The full pipeline
  // ---------------------------------------------------------------------------

  function Raised(trace: seq<Stage>, error: string): ProcessRun {
    ProcessRun(HttpError(500, ProcessingErrorPrefix + error), trace, false, None)
  }

  /** Steps 2 to 6 on a transcription, after the stages in `trace`. */
  function RunStages(transcription: string, trace: seq<Stage>, reportId: string, stages: Stages): ProcessRun {
    match stages.extractEntities(transcription)
    case Failure(e) => Raised(trace + [ExtractEntities], e)
    case Success(entities) =>
      match stages.summarize(transcription)
      case Failure(e) => Raised(trace + [ExtractEntities, Summarize], e)
      case Success(summary) =>
        match stages.generateReport(entities, summary)
        case Failure(e) => Raised(trace + [ExtractEntities, Summarize, GenerateReport], e)
        case Success(report) =>
          var saved := stages.savePdf(report, ReportFilename(reportId));
          ProcessRun(
            Ok(FullProcessResponse(transcription, entities, summary, report, ReportUrl(reportId))),
            trace + [ExtractEntities, Summarize, GenerateReport, SavePdf, ScheduleIndex],
            saved,
            Some(transcription))
  }

  /** The transcription `process_full` works on: an uploaded file wins over
      the text field and is transcribed; otherwise non-empty text is used as
      it is; with neither, the handler raises its 400, whose `str` is
      "400: {detail}". */
  function Transcription(file: Option<AudioFile>, text: Option<string>, stages: Stages): Result<string> {
    if file.Some? then stages.transcribe(file.value)
    else if text.Some? && text.value != "" then Success(text.value)
    else Failure("400: " + NoInputDetail)
  }

  /** `process_full` with `reportId` as the fresh id. Stages run one after
      another, each on the results of the ones before, and the first that
      raises ends the request with a 500 whose detail is
      "Processing error: " followed by its message; the trace then ends with
      that stage. With no input, the 400 raised inside the handler is caught
      by its own catch-all and comes out as a 500. */
  function ProcessPipeline(file: Option<AudioFile>, text: Option<string>, reportId: string, stages: Stages): (run: ProcessRun)
    ensures run.trace <= (if file.Some? then FileStages else TextStages)
    ensures run.response.Ok? <==> run.trace == (if file.Some? then FileStages else TextStages)
    ensures file.None? && (text.None? || text.value == "") ==>
      run.response == HttpError(500, ProcessingErrorPrefix + "400: " + NoInputDetail) && run.trace == []
    ensures run.response.HttpError? ==>
      && run.response.status == 500
      && StartsWith(run.response.detail, ProcessingErrorPrefix)
      && !run.savedPdf
      && run.indexText == None
    ensures var source := Transcription(file, text, stages);
      var start: seq<Stage> := if file.Some? then [Transcribe] else [];
      && (source.Failure? ==>
            run.response == HttpError(500, ProcessingErrorPrefix + source.error) && run.trace == start)
      && (source.Success? && stages.extractEntities(source.value).Failure? ==>
            && run.response == HttpError(500, ProcessingErrorPrefix + stages.extractEntities(source.value).error)
            && run.trace == start + [ExtractEntities])
      && (source.Success? && stages.extractEntities(source.value).Success? && stages.summarize(source.value).Failure? ==>
            && run.response == HttpError(500, ProcessingErrorPrefix + stages.summarize(source.value).error)
            && run.trace == start + [ExtractEntities, Summarize])
      && (source.Success? && stages.extractEntities(source.value).Success? && stages.summarize(source.value).Success? &&
          stages.generateReport(stages.extractEntities(source.value).value, stages.summarize(source.value).value).Failure? ==>
            && run.response == HttpError(500, ProcessingErrorPrefix +
                 stages.generateReport(stages.extractEntities(source.value).value, stages.summarize(source.value).value).error)
            && run.trace == start + [ExtractEntities, Summarize, GenerateReport])
    ensures run.response.Ok? ==>
      var body := run.response.body;
      && (file.Some? ==> stages.transcribe(file.value) == Success(body.transcription))
      && (file.None? ==> text == Some(body.transcription) && body.transcription != "")
      && stages.extractEntities(body.transcription) == Success(body.entities)
      && stages.summarize(body.transcription) == Success(body.summary)
      && stages.generateReport(body.entities, body.summary) == Success(body.report)
      && body.reportUrl == ReportUrl(reportId)
      && run.savedPdf == stages.savePdf(body.report, ReportFilename(reportId))
      && run.indexText == Some(body.transcription)
  {
    var start: seq<Stage> := if file.Some? then [Transcribe] else [];
    match Transcription(file, text, stages)
    case Failure(e) => Raised(start, e)
    case Success(transcription) => RunStages(transcription, start, reportId, stages)
  }

  /** With a file uploaded the text field is never read. */
  lemma FileOverridesText(file: AudioFile, text1: Option<string>, text2: Option<string>, reportId: string, stages: Stages)
    ensures ProcessPipeline(Some(file), text1, reportId, stages) == ProcessPipeline(Some(file), text2, reportId, stages)
  {
  }

  /** The pipeline answers normally exactly when there is an input and every
      stage on the way succeeds; the PDF being written or not does not
      matter to the answer. */
  lemma ProcessSucceedsIff(file: Option<AudioFile>, text: Option<string>, reportId: string, stages: Stages)
    ensures ProcessPipeline(file, text, reportId, stages).response.Ok? <==>
      var source := Transcription(file, text, stages);
      && source.Success?
      && stages.extractEntities(source.value).Success?
      && stages.summarize(source.value).Success?
      && stages.generateReport(stages.extractEntities(source.value).value, stages.summarize(source.value).value).Success?
  {
  }

  // ---------------------------------------------------------------------------
  // The report directory
  // ---------------------------------------------------------------------------

  /** `download_report`'s answer given the files present. */
  function DownloadResponse(files: set<string>, reportId: string): HttpResponse<FileDownload> {
    var filename := ReportFilename(reportId);
    if filename !in files then HttpError(404, ReportNotFound)
    else Ok(FileDownload(filename, "clinical_report.pdf", "application/pdf"))
  }

  /** Writing the PDF for one id makes that id downloadable and changes the
      answer for no other id; when the write failed nothing changes, so a
      URL already handed out for a new id answers 404. */
  lemma DownloadAfterSave(files: set<string>, reportId: string, saved: bool, other: string)
    ensures var after := files + (if saved then {ReportFilename(reportId)} else {});
      && (DownloadResponse(after, reportId).Ok? <==> saved || ReportFilename(reportId) in files)
      && (other != reportId ==> DownloadResponse(after, other) == DownloadResponse(files, other))
  {
    ReportFilenameInjective(reportId, other);
  }

  /** The `temp/` directory: the report files that exist. */
  class ReportDirectory {
    var files: set<string>

    constructor (files: set<string>)
      ensures this.files == files
    {
      this.files := files;
    }

    /** The `generate_report` endpoint with `reportId` as the fresh id: a
        raising generator gives a 500 and writes nothing; otherwise the
        report and its URL come back whether or not the PDF was written. */
    method GenerateReport(entities: seq<MedicalEntity>, summary: string, reportId: string,
                          generate: (seq<MedicalEntity>, string) -> Result<string>,
                          savePdf: (string, string) -> bool)
      returns (response: HttpResponse<ReportResponse>)
      modifies this`files
      ensures generate(entities, summary).Failure? ==>
        response == HttpError(500, ReportErrorPrefix + generate(entities, summary).error) && files == old(files)
      ensures generate(entities, summary).Success? ==>
        var report := generate(entities, summary).value;
        && response == Ok(ReportResponse(report, ReportUrl(reportId)))
        && files == old(files) + (if savePdf(report, ReportFilename(reportId)) then {ReportFilename(reportId)} else {})
    {
      var generated := generate(entities, summary);
      if generated.Failure? {
        return HttpError(500, ReportErrorPrefix + generated.error);
      }
      var report := generated.value;
      var filename := ReportFilename(reportId);
      if savePdf(report, filename) {
        files := files + {filename};
      }
      response := Ok(ReportResponse(report, ReportUrl(reportId)));
    }

    /** The `process` endpoint: the pipeline's answer, with the report file
        added when it was written, and the text for background indexing. */
    method ProcessFull(file: Option<AudioFile>, text: Option<string>, reportId: string, stages: Stages)
      returns (response: HttpResponse<FullProcessResponse>, indexText: Option<string>)
      modifies this`files
      ensures var run := ProcessPipeline(file, text, reportId, stages);
        && response == run.response
        && indexText == run.indexText
        && files == old(files) + (if run.savedPdf then {ReportFilename(reportId)} else {})
    {
      var run := ProcessPipeline(file, text, reportId, stages);
      if run.savedPdf {
        files := files + {ReportFilename(reportId)};
      }
      response, indexText := run.response, run.indexText;
    }

    /** `download_report`: 404 exactly when the id's file does not exist. */
    method DownloadReport(reportId: string) returns (response: HttpResponse<FileDownload>)
      ensures response.HttpError? <==> ReportFilename(reportId) !in files
      ensures response.HttpError? ==> response == HttpError(404, ReportNotFound)
      ensures response.Ok? ==> response.body.path == ReportFilename(reportId)
      ensures response == DownloadResponse(files, reportId)
    {
      var filename := ReportFilename(reportId);
      if filename !in files {
        return HttpError(404, ReportNotFound);
      }
      return Ok(FileDownload(filename, "clinical_report.pdf", "application/pdf"));
    }
  }
}
