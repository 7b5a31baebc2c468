/** The stored records: companies, projects, activities and facilitator assignments, with their schema defaults. */
module Schemas {
  import opened Wrappers
  import opened Http

  /** A document id, in its string form. */
  type Id = string

  /** `account_status` and facilitator `status` value for an active record. */
  const Active: string := "1"

  /** A registered company (an account). `password` holds the hash and is left out of ordinary reads. */
  datatype Company = Company(
    id: Id,
    email: string,
    password: string,
    mobile: string,
    name: string,
    account_status: string,
    verified_status: string,
    reg_id: Option<string>,
    turnover: Option<string>,
    mst_sector_id: Option<string>)

  /** A new company document: active ('1') and not verified ('0') unless set, optional fields absent. */
  function NewCompany(id: Id, email: string, password: string, mobile: string, name: string): (c: Company)
    ensures c.id == id && c.email == email && c.password == password && c.mobile == mobile && c.name == name
    ensures c.account_status == Active && c.verified_status == "0"
    ensures c.reg_id.None? && c.turnover.None? && c.mst_sector_id.None?
  {
    Company(id, email, password, mobile, name, "1", "0", None, None, None)
  }

  /** A company's certification project, its cached next-stage pointer and its certificate data. */
  datatype CompanyProject = CompanyProject(
    id: Id,
    company_id: Id,
    process_type: string,
    next_activities_id: int,
    certificate_document_url: Option<string>,
    certificate_document_filename: Option<string>,
    feedback_document_url: Option<string>,
    feedback_document_filename: Option<string>,
    score_band_status: int,
    percentage_score: Option<real>,
    criteria_projectscore: seq<Json>,
    high_projectscore: seq<Json>,
    max_score: seq<Json>,
    score_band_pdf_path: Option<string>,
    registration_info: Option<map<string, Json>>)

  /** 'c' is a CII-led process, 'f' a facilitator-led one. */
  const CiiProcess: string := "c"
  const FacilitatorProcess: string := "f"

  /**
   * A new project document: process 'c', pointer at stage 1, score band not
   * available (0), empty score arrays, no documents.
   */
  function NewProject(id: Id, companyId: Id): (p: CompanyProject)
    ensures p.id == id && p.company_id == companyId
    ensures p.process_type == CiiProcess && p.next_activities_id == 1 && p.score_band_status == 0
    ensures p.criteria_projectscore == [] && p.high_projectscore == [] && p.max_score == []
    ensures p.certificate_document_url.None? && p.certificate_document_filename.None?
    ensures p.feedback_document_url.None? && p.feedback_document_filename.None?
    ensures p.percentage_score.None? && p.score_band_pdf_path.None? && p.registration_info.None?
  {
    CompanyProject(id, companyId, "c", 1, None, None, None, None, 0, None, [], [], [], None, None)
  }

  /** One entry of a project's activity log. */
  datatype CompanyActivity = CompanyActivity(
    company_id: Id,
    project_id: Option<Id>,
    description: string,
    activity_type: Option<string>,
    milestone_flow: Option<int>,
    milestone_completed: bool)

  /** `activity_type` values: an entry by the company or by CII. */
  const CompanyActivityType: string := "company"
  const CiiActivityType: string := "cii"

  /** A new log entry: no type and no stage unless set, not completed. */
  function NewActivity(companyId: Id, projectId: Option<Id>, description: string): (a: CompanyActivity)
    ensures a.company_id == companyId && a.project_id == projectId && a.description == description
    ensures a.activity_type.None? && a.milestone_flow.None? && !a.milestone_completed
  {
    CompanyActivity(companyId, projectId, description, None, None, false)
  }

  /** A facilitator of the master list. */
  datatype Facilitator = Facilitator(id: Id, name: string, email: string, status: string)

  /** The assignment of a facilitator to a company's project. */
  datatype CompanyFacilitator = CompanyFacilitator(company_id: Id, project_id: Id, facilitator_id: Id)
}
