/**
 * A company's certification project: the certificate summary, the score-band
 * file, the quickview with its milestone derivation, milestone admission and
 * the registration form data.
 */
module CompanyProjectsService {
  import opened Wrappers
  import opened Text
  import opened Http
  import opened Schemas
  import opened Store
  import opened CompleteMilestoneDtos
  import opened Milestones

  // Reply texts.
  const QuickviewNotFoundMessage: string := "Project not found or quickview not available."
  const ProjectNotFoundMessage: string := "Project not found"
  const QuickviewNoCompanyMessage: string := "Company not found."
  const NoScoreBandMessage: string := "Score band not available"
  const NoScoreBandFileMessage: string := "Score band PDF file not found on server"
  const MilestoneRecordedMessage: string := "Milestone recorded successfully"
  const InfoSavedMessage: string := "Registration info saved successfully"

  /**
   * What a request sees of the process environment: the configured base URL,
   * the working directory, path joining and the file-existence test.
   */
  datatype Env = Env(
    apiBaseUrl: Option<string>,
    cwd: string,
    join: (string, string) -> string,
    fileExists: string -> bool)

  const DefaultBaseUrl: string := "http://localhost:3001"

  /** `API_BASE_URL`, or the local default when it is unset or empty. */
  function BaseUrl(env: Env): (url: string)
    ensures env.apiBaseUrl.Some? && env.apiBaseUrl.value != "" ==> url == env.apiBaseUrl.value
    ensures env.apiBaseUrl.None? || env.apiBaseUrl.value == "" ==> url == DefaultBaseUrl
    ensures url != ""
  {
    if env.apiBaseUrl.Some? && Text.Truthy(env.apiBaseUrl.value) then env.apiBaseUrl.value else DefaultBaseUrl
  }

  /** The download routes the summary links to. */
  const CertificateRoute: string := "certificate-document"
  const FeedbackRoute: string := "feedback-document"

  /** The link to a project's download route. */
  function RouteUrl(baseUrl: string, projectId: Id, route: string): string
  {
    baseUrl + "/api/company/projects/" + projectId + "/" + route
  }

  /**
   * A stored document URL as the client sees it: none when absent or empty,
   * an absolute `http…` URL as it is, anything else replaced by the project's
   * download route.
   */
  function ResolveDocumentUrl(url: Option<string>, baseUrl: string, projectId: Id, route: string): (r: Option<string>)
    ensures r.Some? <==> url.Some? && url.value != ""
    ensures r.Some? ==> r.value == url.value || r.value == RouteUrl(baseUrl, projectId, route)
    ensures r.Some? && StartsWith(url.value, "http") ==> r == url
    ensures r.Some? && StartsWith(baseUrl, "http") ==> StartsWith(r.value, "http")
  {
    if url.None? || !Text.Truthy(url.value) then None
    else if StartsWith(url.value, "http") then url
    else Some(RouteUrl(baseUrl, projectId, route))
  }

  /** Resolving an already resolved link changes nothing, when the base URL is absolute. */
  lemma ResolveIsIdempotent(url: Option<string>, baseUrl: string, projectId: Id, route: string)
    requires StartsWith(baseUrl, "http")
    ensures ResolveDocumentUrl(ResolveDocumentUrl(url, baseUrl, projectId, route), baseUrl, projectId, route)
         == ResolveDocumentUrl(url, baseUrl, projectId, route)
  {
  }

  /** A relative path resolves to the route, so the stored path itself never reaches the client. */
  lemma RelativePathIsHidden(path: string, baseUrl: string, projectId: Id, route: string)
    requires path != "" && !StartsWith(path, "http")
    ensures ResolveDocumentUrl(Some(path), baseUrl, projectId, route) == Some(RouteUrl(baseUrl, projectId, route))
  {
  }

  // ------------------------------------------------------------ the project

  function ProjectNotFound(): HttpException
  {
    ErrorException(NotFound, ProjectNotFoundMessage)
  }

  /** `getProject`: the project with that id, only when it belongs to the company. */
  function GetProject(s: Snapshot, companyId: Id, projectId: Id): (r: Result<CompanyProject, HttpException>)
    ensures r.Success? <==> exists i :: 0 <= i < |s.projects| && s.projects[i].id == projectId && s.projects[i].company_id == companyId
    ensures r.Success? ==> r.value in s.projects && r.value.id == projectId && r.value.company_id == companyId
    ensures r.Failure? ==> r.error == ProjectNotFound()
  {
    match ProjectOf(s.projects, companyId, projectId)
    case None => Failure(ProjectNotFound())
    case Some(k) => Success(s.projects[k])
  }

  /** A project can only be read through its own company: another company gets "Project not found". */
  lemma ProjectsAreScopedToTheirCompany(s: Snapshot, companyId: Id, other: Id, projectId: Id)
    requires ProjectsConsistent(s.projects)
    requires GetProject(s, companyId, projectId).Success? && other != companyId
    ensures GetProject(s, other, projectId) == Failure(ProjectNotFound())
  {
    var k := ProjectOf(s.projects, companyId, projectId).value;
    forall i | 0 <= i < |s.projects| && s.projects[i].id == projectId
      ensures s.projects[i].company_id == companyId
    {
    }
  }

  // ---------------------------------------------------- certificate summary

  /** The profile part of the certificate summary. */
  datatype CertificateProfile = CertificateProfile(
    id: Id,
    name: Option<string>,
    certificate_document: Option<string>,
    feedback_document: Option<string>,
    score_band_status: int)

  datatype CertificateSummary = CertificateSummary(profile: CertificateProfile, percentage_score: real)

  /**
   * `getCertificateSummary`: the company's name (when the company exists),
   * both document links resolved, the score band status, and the percentage
   * score or 0 when there is none.
   */
  function GetCertificateSummary(s: Snapshot, env: Env, companyId: Id, projectId: Id): (r: Result<CertificateSummary, HttpException>)
    ensures r.Failure? <==> GetProject(s, companyId, projectId).Failure?
    ensures r.Failure? ==> r.error == ProjectNotFound()
    ensures r.Success? ==>
      var p := GetProject(s, companyId, projectId).value;
      && r.value.profile.id == projectId
      && (r.value.profile.name.Some? <==> exists i :: 0 <= i < |s.companies| && s.companies[i].id == companyId)
      && r.value.profile.certificate_document == ResolveDocumentUrl(p.certificate_document_url, BaseUrl(env), projectId, CertificateRoute)
      && r.value.profile.feedback_document == ResolveDocumentUrl(p.feedback_document_url, BaseUrl(env), projectId, FeedbackRoute)
      && r.value.profile.score_band_status == p.score_band_status
      && (p.percentage_score.None? ==> r.value.percentage_score == 0.0)
      && (p.percentage_score.Some? ==> r.value.percentage_score == p.percentage_score.value)
  {
    match GetProject(s, companyId, projectId)
    case Failure(e) => Failure(e)
    case Success(p) =>
      var name :=
        match CompanyById(s.companies, p.company_id)
        case None => None
        case Some(j) => Some(s.companies[j].name);
      var baseUrl := BaseUrl(env);
      Success(CertificateSummary(
        CertificateProfile(
          p.id,
          name,
          ResolveDocumentUrl(p.certificate_document_url, baseUrl, projectId, CertificateRoute),
          ResolveDocumentUrl(p.feedback_document_url, baseUrl, projectId, FeedbackRoute),
          p.score_band_status),
        p.percentage_score.GetOr(0.0)))
  }

  /** A new project's summary: no documents, score band 0 and percentage 0. */
  lemma NewProjectSummary(s: Snapshot, env: Env, companyId: Id, projectId: Id)
    requires GetProject(s, companyId, projectId) == Success(NewProject(projectId, companyId))
    ensures var r := GetCertificateSummary(s, env, companyId, projectId);
      && r.Success?
      && r.value.profile.certificate_document.None? && r.value.profile.feedback_document.None?
      && r.value.profile.score_band_status == 0 && r.value.percentage_score == 0.0
  {
  }

  // ------------------------------------------------------ score band file

  /**
   * `getScoreBandPdfPath`: the project must exist, must have a score band
   * path, and the file at that path under the working directory must exist.
   */
  function GetScoreBandPdfPath(s: Snapshot, env: Env, companyId: Id, projectId: Id): (r: Result<string, HttpException>)
    ensures GetProject(s, companyId, projectId).Failure? ==> r == Failure(ProjectNotFound())
    ensures GetProject(s, companyId, projectId).Success? ==>
      var path := GetProject(s, companyId, projectId).value.score_band_pdf_path;
      && (path.None? || path.value == "" ==> r == Failure(ErrorException(NotFound, NoScoreBandMessage)))
      && (path.Some? && path.value != "" && !env.fileExists(env.join(env.cwd, path.value)) ==>
            r == Failure(ErrorException(NotFound, NoScoreBandFileMessage)))
      && (r.Success? ==> path.Some? && r.value == env.join(env.cwd, path.value))
    ensures r.Success? ==> env.fileExists(r.value)
    ensures r.Failure? ==> r.error.kind == NotFound
  {
    match GetProject(s, companyId, projectId)
    case Failure(e) => Failure(e)
    case Success(p) =>
      if p.score_band_pdf_path.None? || !Text.Truthy(p.score_band_pdf_path.value) then
        Failure(ErrorException(NotFound, NoScoreBandMessage))
      else
        var absolutePath := env.join(env.cwd, p.score_band_pdf_path.value);
        if !env.fileExists(absolutePath) then Failure(ErrorException(NotFound, NoScoreBandFileMessage))
        else Success(absolutePath)
  }

  // ------------------------------------------------------------- quickview

  /** The profile part of the quickview (timestamps and the proposal document are not modelled). */
  datatype QuickviewProfile = QuickviewProfile(
    id: Id,
    name: string,
    reg_id: string,
    project_id: Id,
    email: string,
    mobile: string,
    turnover: string,
    mst_sector_id: string,
    account_status: string,
    process_type: string,
    feedback_document: Option<string>,
    next_activity: Option<string>,
    next_activity_status: string,
    next_responsibility: string)

  /** The quickview (sector, work order, facilitator, coordinator and assessor panels are not modelled). */
  datatype Quickview = Quickview(
    profile: QuickviewProfile,
    current_activity_data: CurrentActivity,
    companies_activity: seq<string>,
    milestone_steps: seq<string>,
    last_activity: LastActivity)

  /** The step catalog as the quickview lists it, stage 1 first. */
  function Catalog(): (steps: seq<string>)
    ensures |steps| == LastStage
    ensures forall i :: 0 <= i < |steps| ==> Some(steps[i]) == StepName(i + 1)
  {
    seq(LastStage, i requires 0 <= i < LastStage => StepName(i + 1).value)
  }

  /** The project's log as the quickview reads it. */
  function QuickviewLog(s: Snapshot, companyId: Id, projectId: Id): seq<CompanyActivity>
  {
    ProjectLog(s.activities, companyId, projectId)
  }

  /**
   * `getQuickviewData`: the project (only through its company), then the
   * company, must exist; the milestone panels are derived from the project's
   * log and its cached pointer.
   */
  function GetQuickviewData(s: Snapshot, env: Env, companyId: Id, projectId: Id): (r: Result<Quickview, HttpException>)
    ensures GetProject(s, companyId, projectId).Failure? ==>
      r == Failure(ErrorException(NotFound, QuickviewNotFoundMessage))
    ensures GetProject(s, companyId, projectId).Success? && CompanyById(s.companies, companyId).None? ==>
      r == Failure(ErrorException(NotFound, QuickviewNoCompanyMessage))
    ensures r.Success? ==>
      var p := GetProject(s, companyId, projectId).value;
      var log := QuickviewLog(s, companyId, projectId);
      var next := NextActivityInfo(log, p.next_activities_id);
      && CompanyById(s.companies, companyId).Some?
      && r.value.profile.id == projectId && r.value.profile.project_id == projectId
      && r.value.profile.feedback_document == ResolveDocumentUrl(p.feedback_document_url, BaseUrl(env), projectId, FeedbackRoute)
      && r.value.profile.next_activity == next.name
      && r.value.profile.next_activity_status == next.status.Label()
      && r.value.profile.next_responsibility == next.responsibility
      && r.value.current_activity_data == CurrentActivityData(log)
      && r.value.companies_activity == NewestFirst(log)
      && r.value.milestone_steps == Catalog()
      && r.value.last_activity == LastActivityData(log, p.next_activities_id)
  {
    match ProjectOf(s.projects, companyId, projectId)
    case None => Failure(ErrorException(NotFound, QuickviewNotFoundMessage))
    case Some(k) =>
      match CompanyById(s.companies, companyId)
      case None => Failure(ErrorException(NotFound, QuickviewNoCompanyMessage))
      case Some(j) =>
        var p := s.projects[k];
        var c := s.companies[j];
        var log := QuickviewLog(s, companyId, projectId);
        var next := NextActivityInfo(log, p.next_activities_id);
        var profile := QuickviewProfile(
          p.id, c.name, c.reg_id.GetOr(""), p.id, c.email, c.mobile, c.turnover.GetOr(""), c.mst_sector_id.GetOr(""),
          c.account_status, p.process_type,
          ResolveDocumentUrl(p.feedback_document_url, BaseUrl(env), projectId, FeedbackRoute),
          next.name, next.status.Label(), next.responsibility);
        Success(Quickview(profile, CurrentActivityData(log), NewestFirst(log), Catalog(), LastActivityData(log, p.next_activities_id)))
  }

  /**
   * In a store whose pointers agree with their logs, the quickview's next
   * activity is the stage the project's pointer names.
   */
  lemma QuickviewFollowsPointer(s: Snapshot, env: Env, companyId: Id, projectId: Id)
    requires PointersAgree(s)
    requires GetQuickviewData(s, env, companyId, projectId).Success?
    ensures var pointer := GetProject(s, companyId, projectId).value.next_activities_id;
      var r := GetQuickviewData(s, env, companyId, projectId).value;
      && (FirstStage <= pointer <= LastStage ==> r.profile.next_activity == StepName(pointer))
      && (pointer > LastStage ==> r.profile.next_activity == Some("Project Completed"))
  {
    var k := ProjectOf(s.projects, companyId, projectId).value;
    assert Milestones.PointerAgrees(LogOf(s, k), s.projects[k].next_activities_id);
    assert LogOf(s, k) == QuickviewLog(s, companyId, projectId);
  }

  // ---------------------------------------------------- milestone admission

  /** The collections after `completeMilestone` accepted `dto` for the project at position `k`. */
  function MilestoneRecorded(s: Snapshot, k: nat, dto: CompleteMilestoneDto): (r: Snapshot)
    requires k < |s.projects|
    ensures r.companies == s.companies && r.facilitators == s.facilitators && r.assignments == s.assignments
    ensures |r.projects| == |s.projects|
    ensures forall i :: 0 <= i < |s.projects| ==>
      r.projects[i].id == s.projects[i].id && r.projects[i].company_id == s.projects[i].company_id
    ensures forall i :: 0 <= i < |s.projects| && i != k ==> r.projects[i] == s.projects[i]
  {
    var p := s.projects[k];
    s.(activities := s.activities + [AdmittedActivity(p.company_id, p.id, dto)],
       projects := if IsCompleted(dto) then s.projects[k := p.(next_activities_id := AdmittedPointer(p.next_activities_id, dto))]
                   else s.projects)
  }

  /**
   * `completeMilestone`: for a project of the company, append one CII
   * activity for the dto's stage (completed unless `completed` is false or null) and,
   * only when completed, point the project one past that stage.
   */
  method CompleteMilestone(db: Database, companyId: Id, projectId: Id, dto: CompleteMilestoneDto)
      returns (r: Result<string, HttpException>)
    requires db.Valid()
    modifies db
    ensures db.Valid()
    ensures ProjectOf(old(db.projects), companyId, projectId).None? ==>
      r == Failure(ProjectNotFound()) && db.State() == old(db.State())
    ensures ProjectOf(old(db.projects), companyId, projectId).Some? ==>
      && r == Success(MilestoneRecordedMessage)
      && db.State() == MilestoneRecorded(old(db.State()), ProjectOf(old(db.projects), companyId, projectId).value, dto)
    ensures IsValid(dto) && old(PointersAgree(db.State())) ==> PointersAgree(db.State())
  {
    var found := ProjectOf(db.projects, companyId, projectId);
    if found.None? {
      return Failure(ProjectNotFound());
    }
    var k := found.value;
    ghost var before := db.State();
    var project := db.projects[k];
    var isCompleted := match dto.completed case Absent => true case Null => false case Given(b) => b;
    db.activities := db.activities + [NewActivity(project.company_id, Some(project.id), dto.description).(
      activity_type := Some(CiiActivityType),
      milestone_flow := Some(dto.milestone_flow),
      milestone_completed := isCompleted)];
    if isCompleted {
      db.projects := db.projects[k := project.(next_activities_id := dto.milestone_flow + 1)];
    }
    r := Success(MilestoneRecordedMessage);
    assert db.State() == MilestoneRecorded(before, k, dto);
    MilestoneKeepsConsistent(before, k, dto);
    if IsValid(dto) && PointersAgree(before) {
      MilestoneKeepsPointersAgreeing(before, k, dto);
    }
  }

  /** Recording a milestone keeps the unique indexes. */
  lemma MilestoneKeepsConsistent(s: Snapshot, k: nat, dto: CompleteMilestoneDto)
    requires k < |s.projects| && Consistent(s)
    ensures Consistent(MilestoneRecorded(s, k, dto))
  {
    var after := MilestoneRecorded(s, k, dto);
    assert forall i :: 0 <= i < |after.projects| ==> after.projects[i].id == s.projects[i].id;
  }

  /**
   * A valid milestone keeps every project's pointer in agreement with its log:
   * the recorded project by admission, every other one because its log is
   * untouched.
   */
  lemma MilestoneKeepsPointersAgreeing(s: Snapshot, k: nat, dto: CompleteMilestoneDto)
    requires k < |s.projects| && ProjectsConsistent(s.projects) && PointersAgree(s) && IsValid(dto)
    ensures PointersAgree(MilestoneRecorded(s, k, dto))
  {
    var p := s.projects[k];
    var a := AdmittedActivity(p.company_id, p.id, dto);
    var after := MilestoneRecorded(s, k, dto);
    forall i | 0 <= i < |after.projects|
      ensures Milestones.PointerAgrees(LogOf(after, i), after.projects[i].next_activities_id)
    {
      if i == k {
        ProjectLogAppend(s.activities, a, p.company_id, p.id);
        AdmissionKeepsPointerAgreement(LogOf(s, k), p.next_activities_id, p.company_id, p.id, dto);
      } else {
        assert after.projects[i] == s.projects[i];
        assert s.projects[i].id != p.id by {
          if i < k { assert s.projects[i].id != s.projects[k].id; }
          else { assert s.projects[k].id != s.projects[i].id; }
        }
        OtherLogsUnchanged(s.activities, a, s.projects[i].company_id, s.projects[i].id);
      }
    }
  }

  /** Recording a milestone keeps the project where the lookup finds it, extends its log by the activity and leaves the companies alone. */
  lemma MilestoneRecordedLookups(s: Snapshot, companyId: Id, projectId: Id, dto: CompleteMilestoneDto)
    requires ProjectOf(s.projects, companyId, projectId).Some?
    ensures var k := ProjectOf(s.projects, companyId, projectId).value;
      var after := MilestoneRecorded(s, k, dto);
      && ProjectOf(after.projects, companyId, projectId) == Some(k)
      && after.companies == s.companies
      && QuickviewLog(after, companyId, projectId)
         == QuickviewLog(s, companyId, projectId) + [AdmittedActivity(companyId, projectId, dto)]
  {
    ProjectLogAppend(s.activities, AdmittedActivity(companyId, projectId, dto), companyId, projectId);
  }

  /** The quickview after a milestone is recorded derives its panels from the old log extended by the new activity. */
  lemma QuickviewOfRecorded(s: Snapshot, env: Env, companyId: Id, projectId: Id, dto: CompleteMilestoneDto)
    requires ProjectOf(s.projects, companyId, projectId).Some? && CompanyById(s.companies, companyId).Some?
    ensures var k := ProjectOf(s.projects, companyId, projectId).value;
      var after := MilestoneRecorded(s, k, dto);
      var log' := QuickviewLog(s, companyId, projectId) + [AdmittedActivity(companyId, projectId, dto)];
      var r := GetQuickviewData(after, env, companyId, projectId);
      && r.Success?
      && r.value.current_activity_data == CurrentActivityData(log')
      && r.value.profile.next_activity == NextActivityInfo(log', after.projects[k].next_activities_id).name
  {
    var k := ProjectOf(s.projects, companyId, projectId).value;
    var after := MilestoneRecorded(s, k, dto);
    MilestoneRecordedLookups(s, companyId, projectId, dto);
    assert GetProject(after, companyId, projectId) == Success(after.projects[k]);
  }

  /** Recording a body with `completed: null` leaves every project, and so every pointer, as it was. */
  lemma NullCompletionLeavesProjects(s: Snapshot, k: nat, flow: int, description: string)
    requires k < |s.projects|
    ensures var r := MilestoneRecorded(s, k, CompleteMilestoneDto(flow, description, Null));
      && r.projects == s.projects
      && r.activities == s.activities + [AdmittedActivity(s.projects[k].company_id, s.projects[k].id, CompleteMilestoneDto(flow, description, Null))]
      && !r.activities[|s.activities|].milestone_completed
  {
  }

  /** After a completed milestone is recorded, the quickview reports that stage as the latest step. */
  lemma CompletedMilestoneIsLatestStep(s: Snapshot, env: Env, companyId: Id, projectId: Id, dto: CompleteMilestoneDto)
    requires IsValid(dto) && IsCompleted(dto)
    requires ProjectOf(s.projects, companyId, projectId).Some? && CompanyById(s.companies, companyId).Some?
    ensures var r := GetQuickviewData(MilestoneRecorded(s, ProjectOf(s.projects, companyId, projectId).value, dto), env, companyId, projectId);
      r.Success? && r.value.current_activity_data == CurrentActivity(StepName(dto.milestone_flow).value, CompletedStatus, ResponsibleParty(dto.milestone_flow).value)
  {
    var k := ProjectOf(s.projects, companyId, projectId).value;
    var pointer := MilestoneRecorded(s, k, dto).projects[k].next_activities_id;
    QuickviewOfRecorded(s, env, companyId, projectId, dto);
    CompletedAdmissionAdvances(QuickviewLog(s, companyId, projectId), pointer, companyId, projectId, dto);
  }

  /** After a completed milestone is recorded, the quickview names the following stage as next, or the workflow as complete. */
  lemma CompletedMilestoneAdvancesNext(s: Snapshot, env: Env, companyId: Id, projectId: Id, dto: CompleteMilestoneDto)
    requires IsValid(dto) && IsCompleted(dto)
    requires ProjectOf(s.projects, companyId, projectId).Some? && CompanyById(s.companies, companyId).Some?
    ensures var r := GetQuickviewData(MilestoneRecorded(s, ProjectOf(s.projects, companyId, projectId).value, dto), env, companyId, projectId);
      r.Success? && r.value.profile.next_activity == (if dto.milestone_flow < LastStage then StepName(dto.milestone_flow + 1) else Some("Project Completed"))
  {
    var k := ProjectOf(s.projects, companyId, projectId).value;
    QuickviewOfRecorded(s, env, companyId, projectId, dto);
    CompletedAdmissionNamesNext(QuickviewLog(s, companyId, projectId), MilestoneRecorded(s, k, dto).projects[k].next_activities_id, companyId, projectId, dto);
  }

  // ------------------------------------------------------ registration info

  /** The form data after a save: the new keys over the stored ones, every other stored key kept. */
  function MergedRegistrationInfo(stored: Option<map<string, Json>>, dto: map<string, Json>): (m: map<string, Json>)
    ensures forall key :: key in m <==> key in dto || (stored.Some? && key in stored.value)
    ensures forall key :: key in dto ==> m[key] == dto[key]
    ensures stored.Some? ==> forall key :: key in stored.value && key !in dto ==> m[key] == stored.value[key]
  {
    stored.GetOr(map[]) + dto
  }

  /** Saving the same data twice stores what saving it once does. */
  lemma MergeIsIdempotent(stored: Option<map<string, Json>>, dto: map<string, Json>)
    ensures MergedRegistrationInfo(Some(MergedRegistrationInfo(stored, dto)), dto) == MergedRegistrationInfo(stored, dto)
  {
  }

  /**
   * A form field that validation allows through: `@IsOptional() @IsString()`
   * admits an absent field, a null one, or a string.
   */
  predicate IsTextField(dto: map<string, Json>, key: string)
  {
    key in dto ==> dto[key].JStr? || dto[key] == JNull
  }

  /** The value a truthy form field mirrors onto the company, or the company's own. */
  function Mirrored(current: Option<string>, dto: map<string, Json>, key: string): (r: Option<string>)
    requires IsTextField(dto, key)
    ensures key in dto && Http.Truthy(dto[key]) ==> dto[key].JStr? && r == Some(dto[key].s)
    ensures !(key in dto && Http.Truthy(dto[key])) ==> r == current
  {
    if key in dto && Http.Truthy(dto[key]) then Some(dto[key].s) else current
  }

  /** The company after the form's sector and turnover are mirrored onto it; nothing else changes. */
  function MirrorOntoCompany(c: Company, dto: map<string, Json>): (c': Company)
    requires IsTextField(dto, "sector_id") && IsTextField(dto, "turnover")
    ensures c'.mst_sector_id == Mirrored(c.mst_sector_id, dto, "sector_id")
    ensures c'.turnover == Mirrored(c.turnover, dto, "turnover")
    ensures c'.(mst_sector_id := c.mst_sector_id, turnover := c.turnover) == c
  {
    c.(mst_sector_id := Mirrored(c.mst_sector_id, dto, "sector_id"), turnover := Mirrored(c.turnover, dto, "turnover"))
  }

  /**
   * The store after a save: the form merged over the project's stored form
   * data, and a non-empty sector and turnover mirrored onto the company when
   * it exists. Nothing else changes.
   */
  function RegistrationInfoSaved(s: Snapshot, companyId: Id, projectId: Id, dto: map<string, Json>): (s': Snapshot)
    requires ProjectOf(s.projects, companyId, projectId).Some?
    requires IsTextField(dto, "sector_id") && IsTextField(dto, "turnover")
    ensures s'.activities == s.activities && s'.facilitators == s.facilitators && s'.assignments == s.assignments
    ensures |s'.projects| == |s.projects| && |s'.companies| == |s.companies|
  {
    var k := ProjectOf(s.projects, companyId, projectId).value;
    var p := s.projects[k];
    var projects := s.projects[k := p.(registration_info := Some(MergedRegistrationInfo(p.registration_info, dto)))];
    var companies :=
      match CompanyById(s.companies, companyId)
      case None => s.companies
      case Some(j) => s.companies[j := MirrorOntoCompany(s.companies[j], dto)];
    s.(projects := projects, companies := companies)
  }

  /**
   * `saveRegistrationInfo`: merge the form over the project's stored form
   * data, then mirror a non-empty sector and turnover onto the company when
   * it exists. Validation lets only strings or null through for those two
   * fields; a null one is stored in the form data and not mirrored.
   */
  method SaveRegistrationInfo(db: Database, companyId: Id, projectId: Id, dto: map<string, Json>)
      returns (r: Result<string, HttpException>)
    requires db.Valid()
    requires IsTextField(dto, "sector_id") && IsTextField(dto, "turnover")
    modifies db
    ensures db.Valid()
    ensures old(PointersAgree(db.State())) ==> PointersAgree(db.State())
    ensures ProjectOf(old(db.projects), companyId, projectId).None? ==>
      r == Failure(ProjectNotFound()) && db.State() == old(db.State())
    ensures ProjectOf(old(db.projects), companyId, projectId).Some? ==>
      r == Success(InfoSavedMessage)
      && db.State() == RegistrationInfoSaved(old(db.State()), companyId, projectId, dto)
  {
    var found := ProjectOf(db.projects, companyId, projectId);
    if found.None? {
      return Failure(ProjectNotFound());
    }
    ghost var before := db.State();
    RegistrationInfoSavedKeepsInvariants(before, companyId, projectId, dto);
    var k := found.value;
    var project := db.projects[k];
    var updated := project.(registration_info := Some(project.registration_info.GetOr(map[]) + dto));
    db.projects := db.projects[k := updated];

    var company := CompanyById(db.companies, companyId);
    if company.Some? {
      var j := company.value;
      var c := db.companies[j];
      if "sector_id" in dto && Http.Truthy(dto["sector_id"]) {
        c := c.(mst_sector_id := Some(dto["sector_id"].s));
      }
      if "turnover" in dto && Http.Truthy(dto["turnover"]) {
        c := c.(turnover := Some(dto["turnover"].s));
      }
      assert c == MirrorOntoCompany(before.companies[j], dto);
      db.companies := db.companies[j := c];
    }
    assert db.State() == RegistrationInfoSaved(before, companyId, projectId, dto);
    r := Success(InfoSavedMessage);
  }

  /**
   * A save sets the company's sector and turnover from the form when the
   * form gives them non-empty, keeps them otherwise, and leaves every other
   * field of the company, and every other company, as it was.
   */
  lemma SaveMirrorsOntoCompany(s: Snapshot, companyId: Id, projectId: Id, dto: map<string, Json>)
    requires ProjectOf(s.projects, companyId, projectId).Some? && CompanyById(s.companies, companyId).Some?
    requires IsTextField(dto, "sector_id") && IsTextField(dto, "turnover")
    ensures var j := CompanyById(s.companies, companyId).value;
      var c, c' := s.companies[j], RegistrationInfoSaved(s, companyId, projectId, dto).companies[j];
      && ("sector_id" in dto && Http.Truthy(dto["sector_id"]) ==> c'.mst_sector_id == Some(dto["sector_id"].s))
      && (!("sector_id" in dto && Http.Truthy(dto["sector_id"])) ==> c'.mst_sector_id == c.mst_sector_id)
      && ("turnover" in dto && Http.Truthy(dto["turnover"]) ==> c'.turnover == Some(dto["turnover"].s))
      && (!("turnover" in dto && Http.Truthy(dto["turnover"])) ==> c'.turnover == c.turnover)
      && c'.(mst_sector_id := c.mst_sector_id, turnover := c.turnover) == c
    ensures var j := CompanyById(s.companies, companyId).value;
      forall i :: 0 <= i < |s.companies| && i != j ==> RegistrationInfoSaved(s, companyId, projectId, dto).companies[i] == s.companies[i]
  {
  }

  /**
   * A null sector in the form is stored in the form data as null, and the
   * company keeps its own sector: null is falsy, so nothing is mirrored.
   */
  lemma NullSectorIsStoredNotMirrored(s: Snapshot, companyId: Id, projectId: Id, dto: map<string, Json>)
    requires ProjectOf(s.projects, companyId, projectId).Some? && CompanyById(s.companies, companyId).Some?
    requires IsTextField(dto, "sector_id") && IsTextField(dto, "turnover")
    requires "sector_id" in dto && dto["sector_id"] == JNull
    ensures var s' := RegistrationInfoSaved(s, companyId, projectId, dto);
      var j := CompanyById(s.companies, companyId).value;
      && s'.companies[j].mst_sector_id == s.companies[j].mst_sector_id
      && GetRegistrationInfo(s', companyId, projectId).Success?
      && "sector_id" in GetRegistrationInfo(s', companyId, projectId).value
      && GetRegistrationInfo(s', companyId, projectId).value["sector_id"] == JNull
  {
    SaveMirrorsOntoCompany(s, companyId, projectId, dto);
    SavedInfoReadsBack(s, companyId, projectId, dto);
  }

  /** A save keeps the indexes consistent and every pointer in agreement with its log. */
  lemma RegistrationInfoSavedKeepsInvariants(s: Snapshot, companyId: Id, projectId: Id, dto: map<string, Json>)
    requires ProjectOf(s.projects, companyId, projectId).Some?
    requires IsTextField(dto, "sector_id") && IsTextField(dto, "turnover")
    ensures Consistent(s) ==> Consistent(RegistrationInfoSaved(s, companyId, projectId, dto))
    ensures PointersAgree(s) ==> PointersAgree(RegistrationInfoSaved(s, companyId, projectId, dto))
  {
    var k := ProjectOf(s.projects, companyId, projectId).value;
    var p := s.projects[k];
    var updated := p.(registration_info := Some(MergedRegistrationInfo(p.registration_info, dto)));
    var s' := RegistrationInfoSaved(s, companyId, projectId, dto);
    assert s'.projects == s.projects[k := updated];
    ProjectUpdateKeepsAgreement(s, k, updated);
    if PointersAgree(s) {
      forall i | 0 <= i < |s'.projects|
        ensures Milestones.PointerAgrees(LogOf(s', i), s'.projects[i].next_activities_id)
      {
        assert LogOf(s', i) == LogOf(s.(projects := s'.projects), i);
      }
    }
    if Consistent(s) {
      ProjectUpdateKeepsConsistentOnly(s.projects, k, updated);
      match CompanyById(s.companies, companyId)
      case None =>
      case Some(j) => CompanyUpdateKeepsConsistent(s.companies, j, MirrorOntoCompany(s.companies[j], dto));
    }
  }

  /** Replacing a project by one with the same id keeps project ids unique. */
  lemma ProjectUpdateKeepsConsistentOnly(projects: seq<CompanyProject>, k: nat, p: CompanyProject)
    requires k < |projects| && ProjectsConsistent(projects) && p.id == projects[k].id
    ensures ProjectsConsistent(projects[k := p])
  {
    assert forall i :: 0 <= i < |projects| ==> projects[k := p][i].id == projects[i].id;
  }

  /** `getRegistrationInfo`: the project's stored form data, or an empty form. */
  function GetRegistrationInfo(s: Snapshot, companyId: Id, projectId: Id): (r: Result<map<string, Json>, HttpException>)
    ensures r.Failure? <==> GetProject(s, companyId, projectId).Failure?
    ensures r.Failure? ==> r.error == ProjectNotFound()
    ensures r.Success? ==> r.value == GetProject(s, companyId, projectId).value.registration_info.GetOr(map[])
  {
    match GetProject(s, companyId, projectId)
    case Failure(e) => Failure(e)
    case Success(p) => Success(p.registration_info.GetOr(map[]))
  }

  /** What was saved is what is read back, with the keys saved earlier still there. */
  lemma SavedInfoReadsBack(s: Snapshot, companyId: Id, projectId: Id, dto: map<string, Json>)
    requires ProjectOf(s.projects, companyId, projectId).Some?
    requires IsTextField(dto, "sector_id") && IsTextField(dto, "turnover")
    ensures var stored := s.projects[ProjectOf(s.projects, companyId, projectId).value].registration_info;
      GetRegistrationInfo(RegistrationInfoSaved(s, companyId, projectId, dto), companyId, projectId)
        == Success(MergedRegistrationInfo(stored, dto))
  {
    var k := ProjectOf(s.projects, companyId, projectId).value;
    var s' := RegistrationInfoSaved(s, companyId, projectId, dto);
    assert forall i :: 0 <= i < |s'.projects| ==>
      s'.projects[i].id == s.projects[i].id && s'.projects[i].company_id == s.projects[i].company_id;
  }

  /**
   * The projects as the store persists them under the schema as written:
   * `registration_info` is not a declared path, so strict mode never saves
   * it, and every project read back has none.
   */
  function StrictlyPersisted(s: Snapshot): (r: Snapshot)
    ensures r.companies == s.companies && r.activities == s.activities
    ensures r.facilitators == s.facilitators && r.assignments == s.assignments
    ensures |r.projects| == |s.projects|
    ensures forall i :: 0 <= i < |s.projects| ==> r.projects[i] == s.projects[i].(registration_info := None)
  {
    s.(projects := seq(|s.projects|, i requires 0 <= i < |s.projects| => s.projects[i].(registration_info := None)))
  }

  /**
   * As written, a saved form is lost: after a save and the store's strict
   * persistence, reading the form back gives the empty form, whatever was
   * saved. `SavedInfoReadsBack` states the intended read-back.
   */
  lemma SavedInfoIsLostAsWritten(s: Snapshot, companyId: Id, projectId: Id, dto: map<string, Json>)
    requires ProjectOf(s.projects, companyId, projectId).Some?
    requires IsTextField(dto, "sector_id") && IsTextField(dto, "turnover")
    ensures GetRegistrationInfo(StrictlyPersisted(RegistrationInfoSaved(s, companyId, projectId, dto)), companyId, projectId)
         == Success(map[])
    ensures dto != map[] ==>
      GetRegistrationInfo(StrictlyPersisted(RegistrationInfoSaved(s, companyId, projectId, dto)), companyId, projectId)
        != Success(MergedRegistrationInfo(s.projects[ProjectOf(s.projects, companyId, projectId).value].registration_info, dto))
  {
    var k := ProjectOf(s.projects, companyId, projectId).value;
    var saved := RegistrationInfoSaved(s, companyId, projectId, dto);
    var persisted := StrictlyPersisted(saved);
    assert saved.projects[k].id == projectId && saved.projects[k].company_id == companyId;
    assert persisted.projects[k].id == projectId && persisted.projects[k].company_id == companyId;
    var p := GetProject(persisted, companyId, projectId).value;
    assert p.registration_info.None?;
    if dto != map[] {
      var key :| key in dto;
      assert key in MergedRegistrationInfo(s.projects[k].registration_info, dto);
    }
  }
}
