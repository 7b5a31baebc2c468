/**
 * The document store: one append-ordered collection per record kind, and
 * the consistency the unique indexes and the services keep on it.
 */
module Store {
  import opened Wrappers
  import opened Lookup
  import opened Text
  import opened Schemas
  import Milestones

  /** The collections at one moment, as the read-only operations see them. */
  datatype Snapshot = Snapshot(
    companies: seq<Company>,
    projects: seq<CompanyProject>,
    activities: seq<CompanyActivity>,
    facilitators: seq<Facilitator>,
    assignments: seq<CompanyFacilitator>)

  /** `findById` on companies. */
  function CompanyById(companies: seq<Company>, id: Id): (r: Option<nat>)
    ensures r.Some? ==> r.value < |companies| && companies[r.value].id == id
    ensures r.None? <==> forall i :: 0 <= i < |companies| ==> companies[i].id != id
  {
    FirstIndex(companies, (c: Company) => c.id == id)
  }

  /** `findOne({ email })` on companies. */
  function CompanyByEmail(companies: seq<Company>, email: string): (r: Option<nat>)
    ensures r.Some? ==> r.value < |companies| && companies[r.value].email == email
    ensures r.None? <==> forall i :: 0 <= i < |companies| ==> companies[i].email != email
  {
    FirstIndex(companies, (c: Company) => c.email == email)
  }

  /** `findOne({ mobile })` on companies. */
  function CompanyByMobile(companies: seq<Company>, mobile: string): (r: Option<nat>)
    ensures r.Some? ==> r.value < |companies| && companies[r.value].mobile == mobile
    ensures r.None? <==> forall i :: 0 <= i < |companies| ==> companies[i].mobile != mobile
  {
    FirstIndex(companies, (c: Company) => c.mobile == mobile)
  }

  /** `findOne({ _id: projectId, company_id: companyId })`: the project, only if it is that company's. */
  function ProjectOf(projects: seq<CompanyProject>, companyId: Id, projectId: Id): (r: Option<nat>)
    ensures r.Some? ==> r.value < |projects| && projects[r.value].id == projectId && projects[r.value].company_id == companyId
    ensures r.None? <==> forall i :: 0 <= i < |projects| ==> !(projects[i].id == projectId && projects[i].company_id == companyId)
  {
    FirstIndex(projects, (p: CompanyProject) => p.id == projectId && p.company_id == companyId)
  }

  /** `findOne({ company_id })` on projects: the company's first project. */
  function FirstProjectOf(projects: seq<CompanyProject>, companyId: Id): (r: Option<nat>)
    ensures r.Some? ==> r.value < |projects| && projects[r.value].company_id == companyId
    ensures r.None? <==> forall i :: 0 <= i < |projects| ==> projects[i].company_id != companyId
  {
    FirstIndex(projects, (p: CompanyProject) => p.company_id == companyId)
  }

  /** `findById` on facilitators. */
  function FacilitatorById(facilitators: seq<Facilitator>, id: Id): (r: Option<nat>)
    ensures r.Some? ==> r.value < |facilitators| && facilitators[r.value].id == id
    ensures r.None? <==> forall i :: 0 <= i < |facilitators| ==> facilitators[i].id != id
  {
    FirstIndex(facilitators, (f: Facilitator) => f.id == id)
  }

  /** Ids, emails and mobile numbers are unique among companies, and emails are stored lower-cased. */
  ghost predicate CompaniesConsistent(companies: seq<Company>)
  {
    && (forall i, j :: 0 <= i < j < |companies| ==> companies[i].id != companies[j].id)
    && (forall i, j :: 0 <= i < j < |companies| ==> companies[i].email != companies[j].email)
    && (forall i, j :: 0 <= i < j < |companies| ==> companies[i].mobile != companies[j].mobile)
    && (forall i :: 0 <= i < |companies| ==> IsLowerCase(companies[i].email))
  }

  /** Project ids are unique. */
  ghost predicate ProjectsConsistent(projects: seq<CompanyProject>)
  {
    forall i, j :: 0 <= i < j < |projects| ==> projects[i].id != projects[j].id
  }

  ghost predicate Consistent(s: Snapshot)
  {
    CompaniesConsistent(s.companies) && ProjectsConsistent(s.projects)
  }

  /** The log of the project at position `i`. */
  function LogOf(s: Snapshot, i: nat): seq<CompanyActivity>
    requires i < |s.projects|
  {
    Milestones.ProjectLog(s.activities, s.projects[i].company_id, s.projects[i].id)
  }

  /** Every project's cached pointer is the next stage its log derives. */
  ghost predicate PointersAgree(s: Snapshot)
  {
    forall i :: 0 <= i < |s.projects| ==> Milestones.PointerAgrees(LogOf(s, i), s.projects[i].next_activities_id)
  }

  /** An id no stored record uses yet, as a newly generated document id is. */
  ghost predicate Fresh(s: Snapshot, id: Id)
  {
    && (forall i :: 0 <= i < |s.companies| ==> s.companies[i].id != id)
    && (forall i :: 0 <= i < |s.projects| ==> s.projects[i].id != id)
    && (forall i :: 0 <= i < |s.activities| ==> s.activities[i].project_id != Some(id))
  }

  /** The database: the collections the services read and write. `hash` is the password hash (bcrypt). */
  class Database {
    var companies: seq<Company>
    var projects: seq<CompanyProject>
    var activities: seq<CompanyActivity>
    var facilitators: seq<Facilitator>
    var assignments: seq<CompanyFacilitator>
    const hash: string -> string

    /** The collections as a value. */
    function State(): Snapshot
      reads this
    {
      Snapshot(companies, projects, activities, facilitators, assignments)
    }

    ghost predicate Valid()
      reads this
    {
      Consistent(State())
    }

    /** An empty database. */
    constructor (hash: string -> string, facilitators: seq<Facilitator>)
      ensures Valid() && PointersAgree(State())
      ensures this.hash == hash && this.facilitators == facilitators
      ensures companies == [] && projects == [] && activities == [] && assignments == []
    {
      this.hash := hash;
      companies, projects, activities := [], [], [];
      this.facilitators, assignments := facilitators, [];
    }
  }

  /** Appending an activity for one project leaves every other project's log as it was. */
  lemma OtherLogsUnchanged(activities: seq<CompanyActivity>, a: CompanyActivity, companyId: Id, projectId: Id)
    requires a.project_id != Some(projectId)
    ensures Milestones.ProjectLog(activities + [a], companyId, projectId) == Milestones.ProjectLog(activities, companyId, projectId)
  {
    Milestones.ProjectLogAppend(activities, a, companyId, projectId);
  }

  /** A project id no activity mentions has an empty log. */
  lemma {:induction false} UnusedProjectHasEmptyLog(activities: seq<CompanyActivity>, companyId: Id, projectId: Id)
    requires forall i :: 0 <= i < |activities| ==> activities[i].project_id != Some(projectId)
    ensures Milestones.ProjectLog(activities, companyId, projectId) == []
  {
    if |activities| > 0 {
      UnusedProjectHasEmptyLog(activities[..|activities| - 1], companyId, projectId);
    }
  }
  /** Replacing a company by one with the same id, email and mobile number keeps the company indexes consistent. */
  lemma CompanyUpdateKeepsConsistent(companies: seq<Company>, k: nat, c: Company)
    requires CompaniesConsistent(companies) && k < |companies|
    requires c.id == companies[k].id && c.email == companies[k].email && c.mobile == companies[k].mobile
    ensures CompaniesConsistent(companies[k := c])
  {
    var after := companies[k := c];
    assert forall i :: 0 <= i < |after| ==>
      after[i].id == companies[i].id && after[i].email == companies[i].email && after[i].mobile == companies[i].mobile;
  }

  /**
   * Replacing a project by one with the same id, owner and pointer, with the
   * activities unchanged, keeps every pointer in agreement.
   */
  lemma ProjectUpdateKeepsAgreement(s: Snapshot, k: nat, p: CompanyProject)
    requires k < |s.projects|
    requires p.id == s.projects[k].id && p.company_id == s.projects[k].company_id
    requires p.next_activities_id == s.projects[k].next_activities_id
    ensures PointersAgree(s) ==> PointersAgree(s.(projects := s.projects[k := p]))
  {
    var after := s.(projects := s.projects[k := p]);
    if PointersAgree(s) {
      forall i | 0 <= i < |after.projects|
        ensures Milestones.PointerAgrees(LogOf(after, i), after.projects[i].next_activities_id)
      {
        assert LogOf(after, i) == LogOf(s, i);
      }
    }
  }

  /** Appending a company whose id, email and mobile number are unused, with a lower-case email, keeps the indexes consistent. */
  lemma AppendCompanyKeepsConsistent(companies: seq<Company>, c: Company)
    requires CompaniesConsistent(companies)
    requires forall i :: 0 <= i < |companies| ==> companies[i].id != c.id
    requires forall i :: 0 <= i < |companies| ==> companies[i].email != c.email
    requires forall i :: 0 <= i < |companies| ==> companies[i].mobile != c.mobile
    requires IsLowerCase(c.email)
    ensures CompaniesConsistent(companies + [c])
  {
  }

  /** Appending a project under an unused id keeps project ids unique. */
  lemma AppendProjectKeepsConsistent(projects: seq<CompanyProject>, p: CompanyProject)
    requires ProjectsConsistent(projects)
    requires forall i :: 0 <= i < |projects| ==> projects[i].id != p.id
    ensures ProjectsConsistent(projects + [p])
  {
  }
}
