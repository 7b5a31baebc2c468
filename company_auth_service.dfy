/** Company accounts: registration, login, password reset and change, and the current-user view. */
module CompanyAuthService {
  import opened Wrappers
  import opened Lookup
  import opened Text
  import opened Http
  import opened Schemas
  import opened Store
  import opened RegisterDtos
  import opened ChangePasswordDtos
  import Milestones

  // Reply texts.
  const InactiveMessage: string := "Account In-Active! Please Contact Greenco Team."
  const EmailTakenMessage: string := "Email already exists"
  const MobileTakenMessage: string := "Mobile number already exists"
  const MobileFormatMessage: string := "The mobile number must start with 6, 7, 8, or 9"
  const FacilitatorMessage: string := "The selected facilitator is invalid or inactive"
  const RegisteredMessage: string := "Company Registered Successfully."
  const NoAccountMessage: string := "No Account Found! Please enter a valid Email."
  const BadCredentialsMessage: string := "Your credentials are not valid! Please enter a valid Email and Password."
  const ForgotNoAccountMessage: string := "Account doesn't exist. Please Signup to register."
  const MailFailedMessage: string := "Failed to send email. Please try again later."
  const PasswordSentMessage: string := "Password sent to your email!"
  const WrongCurrentPasswordMessage: string := "Your current password does not matches with the password you provided. Please try again."
  const SamePasswordMessage: string := "New Password cannot be same as your current password. Please choose a different password."
  const PasswordChangedMessage: string := "Success! Your new Password has been updated successfully."
  const CompanyNotFoundMessage: string := "Company not found"

  // ----------------------------------------------------------- registration

  /** The registration names a facilitator: a 'facilitator' assessment with a non-empty selection. */
  predicate SelectsFacilitator(dto: RegisterDto)
  {
    dto.assessment == FacilitatorAssessment && dto.selectfacilitator.Some? && dto.selectfacilitator.value != ""
  }

  /** The facilitator with that id exists and has status '1'. */
  predicate IsActiveFacilitator(facilitators: seq<Facilitator>, id: Id)
  {
    match FacilitatorById(facilitators, id)
    case None => false
    case Some(k) => facilitators[k].status == Active
  }

  /** Some company is stored under that email. */
  predicate EmailTaken(companies: seq<Company>, email: string)
  {
    exists i :: 0 <= i < |companies| && companies[i].email == email
  }

  /** Some company is stored under that mobile number. */
  predicate MobileTaken(companies: seq<Company>, mobile: string)
  {
    exists i :: 0 <= i < |companies| && companies[i].mobile == mobile
  }

  function MobileFormatError(): HttpException
  {
    FieldException(BadRequest, "error", Some("Validation failed"), "mobileno", MobileFormatMessage)
  }

  function FacilitatorError(): HttpException
  {
    FieldException(BadRequest, "error", Some("Validation failed"), "selectfacilitator", FacilitatorMessage)
  }

  /**
   * The first check a registration fails, in the order the service makes
   * them: the lower-cased email is taken, the mobile number is taken, the
   * mobile number is malformed, the selected facilitator is missing or inactive.
   */
  function RegisterRejection(s: Snapshot, dto: RegisterDto): (r: Option<HttpException>)
    ensures EmailTaken(s.companies, Lower(dto.email)) ==> r == Some(ErrorException(Conflict, EmailTakenMessage))
    ensures (!EmailTaken(s.companies, Lower(dto.email)) && MobileTaken(s.companies, dto.mobileno))
              ==> r == Some(ErrorException(Conflict, MobileTakenMessage))
    ensures (!EmailTaken(s.companies, Lower(dto.email)) && !MobileTaken(s.companies, dto.mobileno) && !IsMobileNumber(dto.mobileno))
              ==> r == Some(MobileFormatError())
    ensures (&& !EmailTaken(s.companies, Lower(dto.email)) && !MobileTaken(s.companies, dto.mobileno)
             && IsMobileNumber(dto.mobileno)
             && SelectsFacilitator(dto) && !IsActiveFacilitator(s.facilitators, dto.selectfacilitator.value))
              ==> r == Some(FacilitatorError())
    ensures r.None? <==>
              && !EmailTaken(s.companies, Lower(dto.email)) && !MobileTaken(s.companies, dto.mobileno)
              && IsMobileNumber(dto.mobileno)
              && (SelectsFacilitator(dto) ==> IsActiveFacilitator(s.facilitators, dto.selectfacilitator.value))
  {
    if CompanyByEmail(s.companies, Lower(dto.email)).Some? then Some(ErrorException(Conflict, EmailTakenMessage))
    else if CompanyByMobile(s.companies, dto.mobileno).Some? then Some(ErrorException(Conflict, MobileTakenMessage))
    else if !IsMobileNumber(dto.mobileno) then Some(MobileFormatError())
    else if SelectsFacilitator(dto) && !IsActiveFacilitator(s.facilitators, dto.selectfacilitator.value) then Some(FacilitatorError())
    else None
  }

  /** The company a registration stores: the lower-cased email, the password hash, active and not verified. */
  function RegisteredCompany(id: Id, dto: RegisterDto, passwordHash: string): (c: Company)
    ensures c.email == Lower(dto.email) && IsLowerCase(c.email)
    ensures c.account_status == Active && c.verified_status == "0"
  {
    LowerIsIdempotent(dto.email);
    NewCompany(id, Lower(dto.email), passwordHash, dto.mobileno, dto.company_name)
  }

  /** The project a registration leaves: process 'c' for a CII assessment and 'f' otherwise, pointer at stage 2. */
  function RegisteredProject(id: Id, companyId: Id, dto: RegisterDto): (p: CompanyProject)
    ensures p.id == id && p.company_id == companyId && p.next_activities_id == 2
    ensures p.process_type == (if dto.assessment == CiiAssessment then CiiProcess else FacilitatorProcess)
  {
    NewProject(id, companyId).(
      process_type := if dto.assessment == CiiAssessment then CiiProcess else FacilitatorProcess,
      next_activities_id := 2)
  }

  /** The facilitator assignment a registration creates: one exactly when a facilitator is selected. */
  function RegisteredAssignments(companyId: Id, projectId: Id, dto: RegisterDto): (r: seq<CompanyFacilitator>)
    ensures |r| == (if SelectsFacilitator(dto) then 1 else 0)
    ensures SelectsFacilitator(dto) ==> r[0] == CompanyFacilitator(companyId, projectId, dto.selectfacilitator.value)
  {
    if SelectsFacilitator(dto) then [CompanyFacilitator(companyId, projectId, dto.selectfacilitator.value)] else []
  }

  /**
   * The collections after an accepted registration; `passwordHash` is the
   * generated password's hash. Every stored record is kept; the company, its
   * project and the stage-1 activity are added last.
   */
  function Registered(s: Snapshot, dto: RegisterDto, passwordHash: string, companyId: Id, projectId: Id): (r: Snapshot)
    ensures r.facilitators == s.facilitators
    ensures |r.companies| == |s.companies| + 1 && r.companies[..|s.companies|] == s.companies
    ensures r.companies[|s.companies|] == RegisteredCompany(companyId, dto, passwordHash)
    ensures |r.projects| == |s.projects| + 1 && r.projects[..|s.projects|] == s.projects
    ensures r.projects[|s.projects|] == RegisteredProject(projectId, companyId, dto)
    ensures |r.activities| == |s.activities| + 1 && r.activities[..|s.activities|] == s.activities
    ensures r.activities[|s.activities|] == Milestones.RegistrationActivity(companyId, projectId)
    ensures |r.assignments| >= |s.assignments| && r.assignments[..|s.assignments|] == s.assignments
    ensures r.assignments[|s.assignments|..] == RegisteredAssignments(companyId, projectId, dto)
  {
    Snapshot(
      s.companies + [RegisteredCompany(companyId, dto, passwordHash)],
      s.projects + [RegisteredProject(projectId, companyId, dto)],
      s.activities + [Milestones.RegistrationActivity(companyId, projectId)],
      s.facilitators,
      s.assignments + RegisteredAssignments(companyId, projectId, dto))
  }

  /**
   * `register`. `generated` is the generated password; `companyId` and
   * `projectId` are the new documents' ids. A rejected registration writes
   * nothing. An accepted one stores the company, its project, the stage-1
   * activity and, when selected, the facilitator assignment; the registration
   * email is not modelled.
   */
  method Register(db: Database, dto: RegisterDto, generated: string, companyId: Id, projectId: Id)
      returns (r: Result<string, HttpException>)
    requires db.Valid()
    requires Fresh(db.State(), companyId) && Fresh(db.State(), projectId)
    modifies db
    ensures db.Valid()
    ensures old(PointersAgree(db.State())) ==> PointersAgree(db.State())
    ensures r.Failure? <==> RegisterRejection(old(db.State()), dto).Some?
    ensures r.Failure? ==> r.error == RegisterRejection(old(db.State()), dto).value && db.State() == old(db.State())
    ensures r.Success? ==> r.value == RegisteredMessage
    ensures r.Success? ==> db.State() == Registered(old(db.State()), dto, db.hash(generated), companyId, projectId)
    ensures r.Success? ==> Login(db.State(), db.hash, dto.email, generated).Success?
  {
    var rejection := RegisterRejection(db.State(), dto);
    if rejection.Some? {
      return Failure(rejection.value);
    }
    ghost var before := db.State();
    SaveRegistration(db, dto, db.hash(generated), companyId, projectId);
    r := Success(RegisteredMessage);
    RegistrationKeepsInvariants(before, dto, db.hash, generated, companyId, projectId);
  }

  /**
   * The writes of an accepted registration, in the order the service makes
   * them: the company, its project, the stage-1 activity, the project's
   * pointer moved to stage 2, and the facilitator assignment when one is
   * selected.
   */
  method SaveRegistration(db: Database, dto: RegisterDto, passwordHash: string, companyId: Id, projectId: Id)
    modifies db
    ensures db.State() == Registered(old(db.State()), dto, passwordHash, companyId, projectId)
  {
    ghost var before := db.State();
    var company := RegisteredCompany(companyId, dto, passwordHash);
    db.companies := db.companies + [company];

    var project := NewProject(projectId, companyId).(
      process_type := if dto.assessment == CiiAssessment then CiiProcess else FacilitatorProcess);
    db.projects := db.projects + [project];

    db.activities := db.activities + [Milestones.RegistrationActivity(companyId, projectId)];

    db.projects := db.projects[|db.projects| - 1 := project.(next_activities_id := 2)];

    if SelectsFacilitator(dto) {
      db.assignments := db.assignments + [CompanyFacilitator(companyId, projectId, dto.selectfacilitator.value)];
    }

    ghost var after := Registered(before, dto, passwordHash, companyId, projectId);
    assert db.companies == after.companies && db.projects == after.projects;
    assert db.activities == after.activities && db.facilitators == after.facilitators;
    assert db.assignments == after.assignments;
  }

  /**
   * An accepted registration keeps the unique indexes and every project's
   * pointer agreement, and the new account can log in with the generated
   * password.
   */
  lemma RegistrationKeepsInvariants(s: Snapshot, dto: RegisterDto, hash: string -> string, generated: string, companyId: Id, projectId: Id)
    requires Consistent(s) && Fresh(s, companyId) && Fresh(s, projectId)
    requires RegisterRejection(s, dto).None?
    ensures Consistent(Registered(s, dto, hash(generated), companyId, projectId))
    ensures PointersAgree(s) ==> PointersAgree(Registered(s, dto, hash(generated), companyId, projectId))
    ensures Login(Registered(s, dto, hash(generated), companyId, projectId), hash, dto.email, generated).Success?
  {
    var company := RegisteredCompany(companyId, dto, hash(generated));
    var after := Registered(s, dto, hash(generated), companyId, projectId);
    AppendCompanyKeepsConsistent(s.companies, company);
    AppendProjectKeepsConsistent(s.projects, RegisteredProject(projectId, companyId, dto));
    if PointersAgree(s) {
      RegisterKeepsPointersAgreeing(s, after, companyId, projectId, dto);
    }
    FirstIndexAppendFresh(s.companies, company, (c: Company) => c.email == Lower(dto.email));
  }

  /** The two registration writes to projects and activities keep every pointer in agreement with its log. */
  lemma RegisterKeepsPointersAgreeing(before: Snapshot, after: Snapshot, companyId: Id, projectId: Id, dto: RegisterDto)
    requires Fresh(before, projectId)
    requires after.projects == before.projects + [RegisteredProject(projectId, companyId, dto)]
    requires after.activities == before.activities + [Milestones.RegistrationActivity(companyId, projectId)]
    requires PointersAgree(before)
    ensures PointersAgree(after)
  {
    var seed := Milestones.RegistrationActivity(companyId, projectId);
    forall i | 0 <= i < |after.projects|
      ensures Milestones.PointerAgrees(LogOf(after, i), after.projects[i].next_activities_id)
    {
      if i < |before.projects| {
        assert after.projects[i] == before.projects[i];
        OtherLogsUnchanged(before.activities, seed, before.projects[i].company_id, before.projects[i].id);
        assert LogOf(after, i) == LogOf(before, i);
      } else {
        UnusedProjectHasEmptyLog(before.activities, companyId, projectId);
        Milestones.ProjectLogAppend(before.activities, seed, companyId, projectId);
        assert LogOf(after, i) == [seed];
        Milestones.RegistrationSeedAgrees(companyId, projectId);
      }
    }
  }

  // ------------------------------------------------------------------ login

  /** An account as it is shown to its owner: everything but the password. */
  datatype UserView = UserView(id: Id, name: string, email: string, mobile: string, account_status: string, verified_status: string)

  function ViewOf(c: Company): UserView
  {
    UserView(c.id, c.name, c.email, c.mobile, c.account_status, c.verified_status)
  }

  /** The project part of a login reply. */
  datatype LoginProject = LoginProject(id: Id, name: string, next_activities_id: int)

  /** A login reply; the signed token is represented by its payload (subject and email). */
  datatype LoginData = LoginData(tokenSubject: Id, tokenEmail: string, user: UserView, project: Option<LoginProject>)

  function NoAccountError(): HttpException
  {
    ErrorException(Unauthorized, NoAccountMessage)
  }

  function BadCredentialsError(): HttpException
  {
    ErrorException(Unauthorized, BadCredentialsMessage)
  }

  /** `login`: unknown email, then password mismatch, then inactive account; otherwise the account and its first project. */
  function Login(s: Snapshot, hash: string -> string, email: string, password: string): (r: Result<LoginData, HttpException>)
    ensures r.Failure? ==> r.error.kind == Unauthorized
    ensures r.Success? ==> r.value.user.email == Lower(email) && r.value.user.account_status == Active
    ensures r.Success? ==> r.value.tokenSubject == r.value.user.id && r.value.tokenEmail == r.value.user.email
  {
    match CompanyByEmail(s.companies, Lower(email))
    case None => Failure(NoAccountError())
    case Some(k) =>
      var c := s.companies[k];
      if c.password != hash(password) then Failure(BadCredentialsError())
      else if c.account_status != Active then Failure(ErrorException(Unauthorized, InactiveMessage))
      else
        var project :=
          match FirstProjectOf(s.projects, c.id)
          case None => None
          case Some(j) => Some(LoginProject(s.projects[j].id, c.name, s.projects[j].next_activities_id));
        Success(LoginData(c.id, c.email, ViewOf(c), project))
  }

  /** With unique emails, login succeeds exactly for an active account under that email whose hash matches. */
  lemma LoginSucceedsIff(s: Snapshot, hash: string -> string, email: string, password: string)
    requires CompaniesConsistent(s.companies)
    ensures Login(s, hash, email, password).Success? <==>
      exists i :: 0 <= i < |s.companies| && s.companies[i].email == Lower(email)
               && s.companies[i].password == hash(password) && s.companies[i].account_status == Active
  {
    var k := CompanyByEmail(s.companies, Lower(email));
    if k.Some? {
      forall i | 0 <= i < |s.companies| && s.companies[i].email == Lower(email)
        ensures i == k.value
      {
      }
    }
  }

  /** Login's failures come in a fixed order: unknown email, then a wrong password (even on an inactive account), then inactivity. */
  lemma LoginRejectsInOrder(s: Snapshot, hash: string -> string, email: string, password: string, i: nat)
    requires CompaniesConsistent(s.companies)
    requires i < |s.companies| && s.companies[i].email == Lower(email)
    ensures s.companies[i].password != hash(password) ==> Login(s, hash, email, password) == Failure(BadCredentialsError())
    ensures (s.companies[i].password == hash(password) && s.companies[i].account_status != Active)
              ==> Login(s, hash, email, password) == Failure(ErrorException(Unauthorized, InactiveMessage))
  {
    var k := CompanyByEmail(s.companies, Lower(email));
    assert k.Some? && k.value == i;
  }

  /** An email no company has is refused as unknown, whatever the password. */
  lemma LoginUnknownEmail(s: Snapshot, hash: string -> string, email: string, password: string)
    requires !EmailTaken(s.companies, Lower(email))
    ensures Login(s, hash, email, password) == Failure(NoAccountError())
  {
  }

  // -------------------------------------------------------- forgot password

  function ForgotNoAccountError(): HttpException
  {
    FieldException(BadRequest, "errors", None, "email", ForgotNoAccountMessage)
  }

  function ForgotInactiveError(): HttpException
  {
    FieldException(BadRequest, "errors", None, "email", InactiveMessage)
  }

  function MailFailedError(): HttpException
  {
    ErrorException(BadRequest, MailFailedMessage)
  }

  /** The first check a reset fails: no account under the lower-cased email, then an inactive account. */
  function ForgotPasswordRejection(companies: seq<Company>, email: string): (r: Option<HttpException>)
    ensures (forall i :: 0 <= i < |companies| ==> companies[i].email != Lower(email)) ==> r == Some(ForgotNoAccountError())
    ensures r.None? <==>
      CompanyByEmail(companies, Lower(email)).Some? && companies[CompanyByEmail(companies, Lower(email)).value].account_status == Active
    ensures r.Some? && CompanyByEmail(companies, Lower(email)).Some? ==> r.value == ForgotInactiveError()
  {
    match CompanyByEmail(companies, Lower(email))
    case None => Some(ForgotNoAccountError())
    case Some(k) => if companies[k].account_status != Active then Some(ForgotInactiveError()) else None
  }

  /**
   * `forgotPassword`. `generated` is the new generated password and
   * `mailSent` the outcome of sending it. The hash is replaced before the
   * email is sent, so a failed email still leaves the new password in force
   * (see ResetPasswordLogsIn).
   */
  method ForgotPassword(db: Database, email: string, generated: string, mailSent: bool)
      returns (r: Result<string, HttpException>)
    requires db.Valid()
    modifies db
    ensures db.Valid()
    ensures db.projects == old(db.projects) && db.activities == old(db.activities)
    ensures db.facilitators == old(db.facilitators) && db.assignments == old(db.assignments)
    ensures ForgotPasswordRejection(old(db.companies), email).Some? ==>
      r == Failure(ForgotPasswordRejection(old(db.companies), email).value) && db.companies == old(db.companies)
    ensures ForgotPasswordRejection(old(db.companies), email).None? ==>
      && db.companies == WithPassword(old(db.companies), CompanyByEmail(old(db.companies), Lower(email)).value, db.hash(generated))
      && r == (if mailSent then Success(PasswordSentMessage) else Failure(MailFailedError()))
  {
    var rejection := ForgotPasswordRejection(db.companies, email);
    if rejection.Some? {
      return Failure(rejection.value);
    }
    var k := CompanyByEmail(db.companies, Lower(email)).value;
    CompanyUpdateKeepsConsistent(db.companies, k, db.companies[k].(password := db.hash(generated)));
    db.companies := WithPassword(db.companies, k, db.hash(generated));
    if !mailSent {
      return Failure(MailFailedError());
    }
    r := Success(PasswordSentMessage);
  }

  /** After an accepted reset, whether or not the email went out, login accepts the generated password. */
  lemma ResetPasswordLogsIn(s: Snapshot, hash: string -> string, email: string, generated: string)
    requires CompaniesConsistent(s.companies)
    requires ForgotPasswordRejection(s.companies, email).None?
    ensures var k := CompanyByEmail(s.companies, Lower(email)).value;
      Login(s.(companies := WithPassword(s.companies, k, hash(generated))), hash, email, generated).Success?
  {
    PasswordSetLogsIn(s, hash, CompanyByEmail(s.companies, Lower(email)).value, email, generated);
  }

  /** Once an active account's hash is that of `password`, login under any spelling of its email accepts `password`. */
  lemma PasswordSetLogsIn(s: Snapshot, hash: string -> string, k: nat, email: string, password: string)
    requires CompaniesConsistent(s.companies)
    requires k < |s.companies| && s.companies[k].account_status == Active && Lower(email) == s.companies[k].email
    ensures Login(s.(companies := WithPassword(s.companies, k, hash(password))), hash, email, password).Success?
  {
    var after := WithPassword(s.companies, k, hash(password));
    SamePositionsSameLookup(s.companies, after, k, Lower(email));
    assert CompanyByEmail(s.companies, Lower(email)) == Some(k);
  }

  /** Replacing a company's password keeps every email lookup where it was. */
  lemma SamePositionsSameLookup(before: seq<Company>, after: seq<Company>, k: nat, email: string)
    requires k < |before| && |after| == |before|
    requires after[k].email == before[k].email
    requires forall i :: 0 <= i < |before| && i != k ==> after[i] == before[i]
    ensures CompanyByEmail(after, email) == CompanyByEmail(before, email)
  {
    assert forall i :: 0 <= i < |before| ==> after[i].email == before[i].email;
  }

  // -------------------------------------------------------- change password

  function WrongCurrentPasswordError(): HttpException
  {
    ErrorException(BadRequest, WrongCurrentPasswordMessage)
  }

  function SamePasswordError(): HttpException
  {
    ErrorException(BadRequest, SamePasswordMessage)
  }

  /** `companies` with the password of the one at position `k` replaced. */
  function WithPassword(companies: seq<Company>, k: nat, password: string): (r: seq<Company>)
    requires k < |companies|
    ensures |r| == |companies| && r[k].password == password
    ensures r[k].(password := companies[k].password) == companies[k]
    ensures forall i :: 0 <= i < |companies| && i != k ==> r[i] == companies[i]
  {
    companies[k := companies[k].(password := password)]
  }

  /**
   * The first check a password change fails, in the service's order: no
   * account with the authenticated id, a current password whose hash does not
   * match, a new password whose hash matches the stored one.
   */
  function ChangePasswordRejection(companies: seq<Company>, hash: string -> string, userId: Id, dto: ChangePasswordDto): (r: Option<HttpException>)
    ensures CompanyById(companies, userId).None? ==> r == Some(PlainException(NotFound, CompanyNotFoundMessage))
    ensures r.None? ==>
      && CompanyById(companies, userId).Some?
      && companies[CompanyById(companies, userId).value].password == hash(dto.current_password)
      && companies[CompanyById(companies, userId).value].password != hash(dto.new_password)
      && dto.new_password != dto.current_password
    ensures r.Some? && CompanyById(companies, userId).Some? ==>
      var stored := companies[CompanyById(companies, userId).value].password;
      r.value == (if stored != hash(dto.current_password) then WrongCurrentPasswordError() else SamePasswordError())
  {
    match CompanyById(companies, userId)
    case None => Some(PlainException(NotFound, CompanyNotFoundMessage))
    case Some(k) =>
      if companies[k].password != hash(dto.current_password) then Some(WrongCurrentPasswordError())
      else if companies[k].password == hash(dto.new_password) then Some(SamePasswordError())
      else None
  }

  /**
   * `changePassword` for the authenticated `userId`. A refused change writes
   * nothing; an accepted one replaces the stored hash with the new
   * password's. The notification email is not modelled.
   */
  method ChangePassword(db: Database, userId: Id, dto: ChangePasswordDto) returns (r: Result<string, HttpException>)
    requires db.Valid()
    modifies db
    ensures db.Valid()
    ensures db.projects == old(db.projects) && db.activities == old(db.activities)
    ensures db.facilitators == old(db.facilitators) && db.assignments == old(db.assignments)
    ensures r.Failure? <==> ChangePasswordRejection(old(db.companies), db.hash, userId, dto).Some?
    ensures r.Failure? ==> r.error == ChangePasswordRejection(old(db.companies), db.hash, userId, dto).value && db.companies == old(db.companies)
    ensures r.Success? ==> r.value == PasswordChangedMessage
    ensures r.Success? ==> db.companies == WithPassword(old(db.companies), CompanyById(old(db.companies), userId).value, db.hash(dto.new_password))
  {
    var rejection := ChangePasswordRejection(db.companies, db.hash, userId, dto);
    if rejection.Some? {
      return Failure(rejection.value);
    }
    var k := CompanyById(db.companies, userId).value;
    CompanyUpdateKeepsConsistent(db.companies, k, db.companies[k].(password := db.hash(dto.new_password)));
    db.companies := WithPassword(db.companies, k, db.hash(dto.new_password));
    r := Success(PasswordChangedMessage);
  }

  /** After an accepted change of an active account's password, login accepts the new password. */
  lemma ChangedPasswordLogsIn(s: Snapshot, hash: string -> string, userId: Id, dto: ChangePasswordDto)
    requires CompaniesConsistent(s.companies)
    requires ChangePasswordRejection(s.companies, hash, userId, dto).None?
    requires s.companies[CompanyById(s.companies, userId).value].account_status == Active
    ensures var k := CompanyById(s.companies, userId).value;
      Login(s.(companies := WithPassword(s.companies, k, hash(dto.new_password))), hash, s.companies[k].email, dto.new_password).Success?
  {
    var k := CompanyById(s.companies, userId).value;
    LowerOfLowerCase(s.companies[k].email);
    PasswordSetLogsIn(s, hash, k, s.companies[k].email, dto.new_password);
  }

  // ----------------------------------------------------------- current user

  /** The project part of the current-user reply. */
  datatype UserProject = UserProject(id: Id, next_activities_id: int, process_type: string)

  /** The current-user reply: the account without its password, and its first project. */
  datatype CurrentUser = CurrentUser(user: UserView, project: Option<UserProject>)

  /** `getCurrentUser`: the account with that id and its first project, or "Company not found". */
  function GetCurrentUser(s: Snapshot, userId: Id): (r: Result<CurrentUser, HttpException>)
    ensures r.Failure? <==> forall i :: 0 <= i < |s.companies| ==> s.companies[i].id != userId
    ensures r.Failure? ==> r.error == PlainException(NotFound, CompanyNotFoundMessage)
    ensures r.Success? ==> r.value.user.id == userId
    ensures r.Success? ==> exists k :: 0 <= k < |s.companies| && s.companies[k].id == userId && r.value.user == ViewOf(s.companies[k])
    ensures r.Success? ==> (r.value.project.None? <==> forall j :: 0 <= j < |s.projects| ==> s.projects[j].company_id != userId)
    ensures r.Success? && r.value.project.Some? ==>
      exists j :: 0 <= j < |s.projects| && s.projects[j].company_id == userId
        && (forall i :: 0 <= i < j ==> s.projects[i].company_id != userId)
        && r.value.project.value == UserProject(s.projects[j].id, s.projects[j].next_activities_id, s.projects[j].process_type)
  {
    match CompanyById(s.companies, userId)
    case None => Failure(PlainException(NotFound, CompanyNotFoundMessage))
    case Some(k) =>
      var c := s.companies[k];
      var project :=
        match FirstProjectOf(s.projects, c.id)
        case None => None
        case Some(j) => Some(UserProject(s.projects[j].id, s.projects[j].next_activities_id, s.projects[j].process_type));
      Success(CurrentUser(ViewOf(c), project))
  }

  /**
   * The token a login issues names the account that logged in: reading the
   * current user with its subject gives the same account view.
   */
  lemma LoginSubjectIsCurrentUser(s: Snapshot, hash: string -> string, email: string, password: string)
    requires CompaniesConsistent(s.companies)
    requires Login(s, hash, email, password).Success?
    ensures var data := Login(s, hash, email, password).value;
      GetCurrentUser(s, data.tokenSubject).Success? && GetCurrentUser(s, data.tokenSubject).value.user == data.user
  {
    var k := CompanyByEmail(s.companies, Lower(email)).value;
    var j := CompanyById(s.companies, s.companies[k].id).value;
    assert s.companies[j].id == s.companies[k].id;
    assert j == k;
  }
}
