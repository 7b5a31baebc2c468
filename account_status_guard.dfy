/** The guard that admits a request only for an authenticated, active company. */
module AccountStatusGuard {
  import opened Wrappers
  import opened Http
  import opened Schemas
  import opened Store

  // Reply texts.
  const UnauthorizedMessage: string := "Unauthorized. Please check your credentials."
  const InactiveMessage: string := "Account In-Active! Please Contact Greenco Team."

  /** The authenticated user the token strategy attaches to a request; `userId` may be missing or empty. */
  datatype RequestUser = RequestUser(userId: Option<Id>, email: string)

  function UnauthorizedError(): HttpException
  {
    ErrorException(Unauthorized, UnauthorizedMessage)
  }

  function InactiveError(): HttpException
  {
    ErrorException(Unauthorized, InactiveMessage)
  }

  /** The user's id, when the request carries a user with a non-empty id. */
  function UserId(user: Option<RequestUser>): Option<Id>
  {
    if user.Some? && user.value.userId.Some? && user.value.userId.value != "" then user.value.userId else None
  }

  /**
   * `canActivate`: no user or no id, then an id no company has, are refused
   * as unauthorized; an account whose status is not '1' is refused as
   * inactive; otherwise the request proceeds.
   */
  function CanActivate(user: Option<RequestUser>, companies: seq<Company>): (r: Result<bool, HttpException>)
    ensures r.Success? ==> r.value
    ensures r.Failure? ==> r.error.kind == Unauthorized && r.error.Status() == 401
    ensures UserId(user).None? ==> r == Failure(UnauthorizedError())
    ensures (UserId(user).Some? && forall i :: 0 <= i < |companies| ==> companies[i].id != UserId(user).value)
              ==> r == Failure(UnauthorizedError())
  {
    match UserId(user)
    case None => Failure(UnauthorizedError())
    case Some(id) =>
      match CompanyById(companies, id)
      case None => Failure(UnauthorizedError())
      case Some(k) =>
        if companies[k].account_status != Active then Failure(InactiveError())
        else Success(true)
  }

  /** With unique company ids, the guard admits exactly the requests whose user id names an active company. */
  lemma AdmitsExactlyActiveAccounts(user: Option<RequestUser>, companies: seq<Company>)
    requires CompaniesConsistent(companies)
    ensures CanActivate(user, companies).Success? <==>
      UserId(user).Some? && exists i :: 0 <= i < |companies| && companies[i].id == UserId(user).value && companies[i].account_status == Active
  {
    if UserId(user).Some? {
      var k := CompanyById(companies, UserId(user).value);
      if k.Some? {
        forall i | 0 <= i < |companies| && companies[i].id == UserId(user).value
          ensures i == k.value
        {
        }
      }
    }
  }

  /** A known but inactive account is refused with the inactive message, not the unauthorized one. */
  lemma InactiveAccountIsNamed(user: Option<RequestUser>, companies: seq<Company>, i: nat)
    requires CompaniesConsistent(companies)
    requires UserId(user).Some? && i < |companies| && companies[i].id == UserId(user).value
    requires companies[i].account_status != Active
    ensures CanActivate(user, companies) == Failure(InactiveError())
  {
    assert CompanyById(companies, UserId(user).value) == Some(i);
  }
}
