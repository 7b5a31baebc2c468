/** The download handlers of the projects controller: their gates, the file they serve, and their error mapping. */
module CompanyProjectsController {
  import opened Wrappers
  import opened Text
  import opened Http
  import opened Schemas
  import opened Store
  import opened CompanyProjectsService

  // Reply texts.
  const NoCertificateMessage: string := "Certificate document not found"
  const NoCertificateFileMessage: string := "Certificate file not found on server"
  const NoFeedbackMessage: string := "Feedback document not found"
  const NoFeedbackFileMessage: string := "Feedback file not found on server"
  const ScoreBandFailedMessage: string := "Failed to download score band PDF"

  /** A file the handler sends: its path, the filename it is offered under, and whether it is shown inline or downloaded. */
  datatype FileReply = FileReply(path: string, filename: string, inline: bool)

  /** A stored filename if it is non-empty, else the default. */
  function FilenameOr(stored: Option<string>, default: string): (name: string)
    ensures stored.Some? && stored.value != "" ==> name == stored.value
    ensures stored.None? || stored.value == "" ==> name == default
  {
    if stored.Some? && Text.Truthy(stored.value) then stored.value else default
  }

  /**
   * The gate both document downloads share: a stored URL is required, and
   * the file at that path under the working directory must exist.
   */
  function DocumentGate(env: Env, url: Option<string>, filename: Option<string>,
                        missing: string, noFile: string, defaultName: string): (r: Result<FileReply, HttpException>)
    ensures url.None? || url.value == "" ==> r == Failure(ErrorException(NotFound, missing))
    ensures url.Some? && url.value != "" && !env.fileExists(env.join(env.cwd, url.value)) ==> r == Failure(ErrorException(NotFound, noFile))
    ensures r.Success? ==>
      && url.Some? && r.value.path == env.join(env.cwd, url.value) && env.fileExists(r.value.path)
      && r.value.filename == FilenameOr(filename, defaultName) && r.value.inline
  {
    if url.None? || !Text.Truthy(url.value) then Failure(ErrorException(NotFound, missing))
    else
      var filePath := env.join(env.cwd, url.value);
      if !env.fileExists(filePath) then Failure(ErrorException(NotFound, noFile))
      else Success(FileReply(filePath, FilenameOr(filename, defaultName), true))
  }

  /** `getCertificateDocument` for the authenticated company. */
  function GetCertificateDocument(s: Snapshot, env: Env, userId: Id, projectId: Id): (r: Result<FileReply, HttpException>)
    ensures GetProject(s, userId, projectId).Failure? ==> r == Failure(ProjectNotFound())
    ensures GetProject(s, userId, projectId).Success? ==>
      var p := GetProject(s, userId, projectId).value;
      r == DocumentGate(env, p.certificate_document_url, p.certificate_document_filename,
                        NoCertificateMessage, NoCertificateFileMessage, "certificate.pdf")
    ensures r.Failure? ==> r.error.kind == NotFound
  {
    match GetProject(s, userId, projectId)
    case Failure(e) => Failure(e)
    case Success(p) =>
      DocumentGate(env, p.certificate_document_url, p.certificate_document_filename,
                   NoCertificateMessage, NoCertificateFileMessage, "certificate.pdf")
  }

  /** `getFeedbackDocument` for the authenticated company. */
  function GetFeedbackDocument(s: Snapshot, env: Env, userId: Id, projectId: Id): (r: Result<FileReply, HttpException>)
    ensures GetProject(s, userId, projectId).Failure? ==> r == Failure(ProjectNotFound())
    ensures GetProject(s, userId, projectId).Success? ==>
      var p := GetProject(s, userId, projectId).value;
      r == DocumentGate(env, p.feedback_document_url, p.feedback_document_filename,
                        NoFeedbackMessage, NoFeedbackFileMessage, "feedback.pdf")
    ensures r.Failure? ==> r.error.kind == NotFound
  {
    match GetProject(s, userId, projectId)
    case Failure(e) => Failure(e)
    case Success(p) =>
      DocumentGate(env, p.feedback_document_url, p.feedback_document_filename,
                   NoFeedbackMessage, NoFeedbackFileMessage, "feedback.pdf")
  }

  /**
   * A certificate the summary links to as a download route can be fetched
   * from that route unless the file is missing: the summary and the download
   * read the same stored URL.
   */
  lemma LinkedCertificateIsServed(s: Snapshot, env: Env, userId: Id, projectId: Id)
    requires GetCertificateSummary(s, env, userId, projectId).Success?
    requires GetCertificateSummary(s, env, userId, projectId).value.profile.certificate_document.Some?
    ensures var p := GetProject(s, userId, projectId).value;
      && p.certificate_document_url.Some?
      && (env.fileExists(env.join(env.cwd, p.certificate_document_url.value)) <==> GetCertificateDocument(s, env, userId, projectId).Success?)
  {
  }

  /** A project with no certificate on record is refused before any file is looked for. */
  lemma NoCertificateOnRecord(s: Snapshot, env: Env, userId: Id, projectId: Id)
    requires GetProject(s, userId, projectId).Success?
    requires GetProject(s, userId, projectId).value.certificate_document_url.None?
    ensures GetCertificateDocument(s, env, userId, projectId) == Failure(ErrorException(NotFound, NoCertificateMessage))
    ensures GetCertificateSummary(s, env, userId, projectId).value.profile.certificate_document.None?
  {
  }

  // ------------------------------------------------------ score band download

  /** What the service call may raise: an HTTP exception, or any other error. */
  datatype Raised = Raised(e: HttpException) | OtherError

  /** The handler's reply: the file, or a 500 JSON body written directly. */
  datatype ScoreBandReply = SendFile(file: FileReply) | JsonReply(status: int, body: Json)

  /**
   * `downloadScoreBand`, given the outcome of looking up the path: a
   * not-found exception is re-thrown as it is, any other error becomes a
   * 500 with a fixed body, and a path is sent as "Score_Band.pdf".
   */
  function DownloadScoreBand(outcome: Result<string, Raised>): (r: Result<ScoreBandReply, HttpException>)
    ensures outcome.Success? ==> r == Success(SendFile(FileReply(outcome.value, "Score_Band.pdf", false)))
    ensures outcome.Failure? && outcome.error.Raised? && outcome.error.e.kind == NotFound ==> r == Failure(outcome.error.e)
    ensures r.Failure? ==> outcome.Failure? && outcome.error.Raised? && r.error == outcome.error.e && r.error.kind == NotFound
    ensures r.Success? && r.value.JsonReply? ==>
      && outcome.Failure? && !(outcome.error.Raised? && outcome.error.e.kind == NotFound)
      && r.value.status == 500
      && r.value.body == JObj(map["status" := JStr("error"), "message" := JStr(ScoreBandFailedMessage)])
  {
    match outcome
    case Success(path) => Success(SendFile(FileReply(path, "Score_Band.pdf", false)))
    case Failure(Raised(e)) =>
      if e.kind == NotFound then Failure(e)
      else Success(JsonReply(500, JObj(map["status" := JStr("error"), "message" := JStr(ScoreBandFailedMessage)])))
    case Failure(OtherError) =>
      Success(JsonReply(500, JObj(map["status" := JStr("error"), "message" := JStr(ScoreBandFailedMessage)])))
  }

  /** The service's outcome as the handler receives it. */
  function ScoreBandOutcome(s: Snapshot, env: Env, userId: Id, projectId: Id): (r: Result<string, Raised>)
    ensures r.Success? <==> GetScoreBandPdfPath(s, env, userId, projectId).Success?
    ensures r.Success? ==> r.value == GetScoreBandPdfPath(s, env, userId, projectId).value
    ensures r.Failure? ==> r.error == Raised(GetScoreBandPdfPath(s, env, userId, projectId).error)
  {
    match GetScoreBandPdfPath(s, env, userId, projectId)
    case Success(path) => Success(path)
    case Failure(e) => Failure(Raised(e))
  }

  /**
   * For an id that casts to an ObjectId and a database that answers, the
   * service raises only not-found exceptions, so the 500 branch is not taken:
   * the client sees either the file or the service's error.
   */
  lemma ScoreBandNeverReports500(s: Snapshot, env: Env, userId: Id, projectId: Id)
    ensures var r := DownloadScoreBand(ScoreBandOutcome(s, env, userId, projectId));
      && !(r.Success? && r.value.JsonReply?)
      && (r.Success? <==> GetScoreBandPdfPath(s, env, userId, projectId).Success?)
      && (r.Failure? ==> r.error == GetScoreBandPdfPath(s, env, userId, projectId).error)
  {
  }
}
