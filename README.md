# GreenCo company API — a Dafny model of the company-facing core

This project models the part of the GreenCo rating API that a company uses:
- registering an account;
- logging in, recovering and changing its password;
- reading its certification project;
- recording milestones of the eight-stage certification workflow;
- saving its registration form;
- reading the quickview dashboard, which derives the current and next stage from the project's activity log;
- downloading the certificate, feedback and score band documents.

It also models the account-status guard in front of those routes, the `catch` method of the HTTP exception filter, the request DTOs' validation rules and the password generator.

The MongoDB collections are modelled as sequences in creation order, collected in the class `Store.Database`:
- `findOne` is the first match (`Lookup.FirstIndex`);
- "latest by `createdAt`" is the last match (`Lookup.LastIndex`).

Read-only service calls are functions over a `Store.Snapshot` of the collections. Service calls that write are methods on the `Database`. Each such method is specified by one of two kinds of function:
- a function that computes the new collections (`Registered`, `MilestoneRecorded`, `RegistrationInfoSaved`, `WithPassword`);
- a function that returns the first check the request fails (`RegisterRejection`, `ForgotPasswordRejection`, `ChangePasswordRejection`).

Lemmas beside each operation prove what that operation keeps or achieves:
- the unique indexes, as `Store.Consistent`;
- each project's cached `next_activities_id` agreeing with its log, as `Store.PointersAgree`;
- that the new credentials log in;
- that a recorded milestone shows up in the quickview.

Outside inputs are parameters:
- bcrypt is a hash function `Database.hash`; `bcrypt.compare(p, h)` is `h == hash(p)`;
- a generated password is a string argument; `PasswordHelper.PasswordGeneration` itself takes the `Math.random` draws as a function argument;
- new document ids are arguments that satisfy `Store.Fresh`;
- `process.env.API_BASE_URL`, `process.cwd()`, `path.join` and `fs.existsSync` are fields of `CompanyProjectsService.Env`;
- whether the mail was sent is the `mailSent` argument of `ForgotPassword`.

The current stage is the most recently created completed activity with a non-zero `milestone_flow`, not the highest completed stage (`company/company-projects/company-projects.service.ts:308-310`). `Milestones.LatestNotHighest` and `Milestones.OutOfOrderCompletion` show the difference.

## Model

| member | source | states |
|---|---|---|
| PasswordHelper.PasswordGeneration | src/helpers/password.helper.ts:1-8 | the password has `n` characters (none when `n <= 0`); character `i` is the alphabet character that draw `i` selects, so every character is in the 70-character alphabet |
| PasswordHelper.DrawIndexInRange | src/helpers/password.helper.ts:5 | a draw in [0, 1) selects an index inside the alphabet, so `charAt` yields exactly one character |
| PasswordHelper.CharAt | src/helpers/password.helper.ts:5 | `charAt` gives the character at an index inside the string and the empty string outside it |
| CompleteMilestoneDtos.IsValid | src/company/company-projects/dto/complete-milestone.dto.ts:4-10 | `@Min(1) @Max(8)` bound the stage to 1..8 and `@IsNotEmpty()` refuses an empty description |
| CompleteMilestoneDtos.Transformed | src/company/company-projects/dto/complete-milestone.dto.ts:12-14 | the class default fills in `completed = true` only when the field is absent; an explicit value, `null` included, is kept; the stage and description are unchanged |
| CompleteMilestoneDtos.IsCompleted | src/company/company-projects/company-projects.service.ts:241 | a milestone counts as completed when `completed` is absent or true, and not when it is false or `null` |
| CompleteMilestoneDtos.DefaultsAgree | src/company/company-projects/dto/complete-milestone.dto.ts:3-15 | the class default and the service's own default agree on completion and validity |
| RegisterDtos.IsValid | src/company/company-auth/dto/register.dto.ts:13-39 | the decorators of the registration body: a non-empty email that `IsEmail` accepts, a company name of 2 to 50 as `MinLength`/`MaxLength` count, a non-empty number matching `^[6-9]\d{9}$`, an assessment of 'cii' or 'facilitator', and a non-empty selection checked only under `@ValidateIf` for 'facilitator' |
| RegisterDtos.VariationSelectorShortensName | src/company/company-auth/dto/register.dto.ts:20 | a two-code-point name ending in U+FE0F has length 1 for `MinLength(2)` and is refused |
| RegisterDtos.MobileNumberIsTenDigits | src/company/company-auth/dto/register.dto.ts:24-28 | a number matching `^[6-9]\d{9}$` has exactly ten digits |
| RegisterDtos.MobileNumberExamples | src/company/company-auth/dto/register.dto.ts:25 | a valid number is accepted; a leading 5 is rejected, and so is an eleventh digit |
| RegisterDtos.SelectionIgnoredForCii | src/company/company-auth/dto/register.dto.ts:36-39 | for a CII assessment the facilitator selection does not affect validity |
| RegisterDtos.SelectionRequiredForFacilitator | src/company/company-auth/dto/register.dto.ts:36-39 | a facilitator assessment without a non-empty selection is invalid |
| ChangePasswordDtos.MatchesStrengthPattern | src/company/company-auth/dto/change-password.dto.ts:32 | the `Matches` pattern: each of the four lookaheads finds its class before the first line terminator, and the first character is in `[A-Za-z\d@$!%*#?&]`; no end anchor |
| ChangePasswordDtos.IsValid | src/company/company-auth/dto/change-password.dto.ts:24-41 | the decorators of the password-change body: three `IsNotEmpty` fields, `MinLength(6)` and the strength pattern on the new password, and `MatchPasswordConstraint` on the confirmation |
| ChangePasswordDtos.VariationSelectorsAreNotCounted | src/company/company-auth/dto/change-password.dto.ts:31-32 | "Aa1!" and two U+FE0F match the pattern with six code points, but `MinLength(6)` counts 4, so the body is refused |
| ChangePasswordDtos.ValidNewPasswordHasEveryClass | src/company/company-auth/dto/change-password.dto.ts:29-41 | a valid new password has at least six characters as `MinLength` counts them (so at least six code points) and contains a lower-case letter, an upper-case letter, a digit and a special character; the confirmation equals it |
| ChangePasswordDtos.TrailingCharactersUnrestricted | src/company/company-auth/dto/change-password.dto.ts:32 | the pattern is anchored only at the start, so characters outside the allowed set are accepted after the first |
| ChangePasswordDtos.ClassAfterLineBreakIsMissed | src/company/company-auth/dto/change-password.dto.ts:32 | the lookaheads do not look past a line terminator, so a digit that appears only after a newline does not satisfy the digit requirement |
| ChangePasswordDtos.FirstCharacterIsRestricted | src/company/company-auth/dto/change-password.dto.ts:32 | the first character must be in the allowed set |
| Schemas.NewCompany | src/company/schemas/company.schema.ts:7-37 | a new company document has the given fields, is active (`'1'`), is not verified (`'0'`), and has no optional fields set |
| Schemas.NewProject | src/company/schemas/company-project.schema.ts:7-49 | a new project has process type `'c'`, pointer 1, score band status 0, empty score arrays and no documents |
| Schemas.NewActivity | src/company/schemas/company-activity.schema.ts:7-25 | a new activity has no type and no stage, and is not completed |
| Text.ValidatorLength | src/company/company-auth/dto/change-password.dto.ts:31 | the length `MinLength`/`MaxLength` compare is at most the number of code points, and equal to it exactly when the string has no variation selector U+FE0E or U+FE0F |
| Text.LowerIsIdempotent | src/company/company-auth/company-auth.service.ts:108 | a lower-cased email is lower case, and lower-casing it again changes nothing |
| Text.Lower | src/company/company-auth/company-auth.service.ts:53 | `toLowerCase` keeps the length and lower-cases each ASCII letter |
| Lookup.FirstIndex | src/company/company-auth/company-auth.service.ts:52-55 | `findOne` returns the first document in creation order that matches, or nothing when none matches |
| Lookup.LastIndex | src/company/company-projects/company-projects.service.ts:313-319 | the latest matching document by creation order is the last match |
| Http.StatusCode | src/common/filters/http-exception.filter.ts:15 | every exception kind the core throws has a 4xx status |
| Http.FromObject | src/common/filters/http-exception.filter.ts:16 | an exception built from an object keeps that object as its response, and takes its `message` when that is a string |
| Http.ErrorException | src/company/company-projects/company-projects.service.ts:235-238 | the services' `{ status: 'error', message }` exceptions carry exactly those two keys |
| Http.PlainException | src/company/company-auth/company-auth.service.ts:353-355 | an exception built from a bare message has an object response with that message and no `status` key |
| HttpExceptionFilter.Catch | src/common/filters/http-exception.filter.ts:10-38 | the reply keeps the exception's status; a response that has a `status` key passes through unchanged; anything else becomes `{ status: 'error', message }` |
| HttpExceptionFilter.Message | src/common/filters/http-exception.filter.ts:28-31 | a string response is its own message; for an object response it is the `message` property when that is truthy, else the exception's own message when non-empty, else "An error occurred" |
| HttpExceptionFilter.ServiceErrorReachesClientUnchanged | src/common/filters/http-exception.filter.ts:19-25 | a service error reaches the client exactly as the service built it |
| HttpExceptionFilter.PlainErrorIsReformatted | src/common/filters/http-exception.filter.ts:27-36 | a bare-message exception is reformatted to `{ status: 'error', message }` |
| HttpExceptionFilter.ValidationListIsKeptAsMessage | src/common/filters/http-exception.filter.ts:28-31 | the framework's validation failure keeps its list of messages as `message` |
| HttpExceptionFilter.ClassNameIsSecondChoice | src/common/filters/http-exception.filter.ts:31 | an object response whose `message` is missing, or falsy and not a string, is reported under the exception's own message, the class name in words ("Not Found Exception") |
| HttpExceptionFilter.FallbackMessage | src/common/filters/http-exception.filter.ts:31 | with neither a usable message property nor an exception message, the text is "An error occurred" |
| Store.CompanyById | src/company/company-auth/company-auth.service.ts:351 | `findById` finds a company with that id, and finds nothing exactly when no company has it |
| Store.CompanyByEmail | src/company/company-auth/company-auth.service.ts:171 | lookup by email finds a company with that email, and finds nothing exactly when none has it |
| Store.CompanyByMobile | src/company/company-auth/company-auth.service.ts:63-65 | lookup by mobile number finds a company with that number, and finds nothing exactly when none has it |
| Store.ProjectOf | src/company/company-projects/company-projects.service.ts:114-117 | the project is found only if it has that id and belongs to that company |
| Store.FirstProjectOf | src/company/company-auth/company-auth.service.ts:204-206 | a company's first project belongs to it; nothing is found exactly when it has none |
| Store.FacilitatorById | src/company/company-auth/company-auth.service.ts:86-88 | the facilitator found has that id; nothing is found exactly when none has it |
| Store.Database.constructor | src/company/schemas/company.schema.ts:7-37 | an empty database is consistent and every pointer agrees with its log |
| Store.CompanyUpdateKeepsConsistent | src/company/company-auth/company-auth.service.ts:330-334 | rewriting a company but keeping its id, email and mobile number keeps the unique indexes |
| Store.ProjectUpdateKeepsAgreement | src/company/company-projects/company-projects.service.ts:180-183 | rewriting a project but keeping its id, owner and pointer keeps every pointer in agreement with its log |
| Store.AppendCompanyKeepsConsistent | src/company/company-auth/company-auth.service.ts:107-116 | adding a company with a fresh id, an unused email and mobile number, and a lower-case email keeps the indexes |
| Store.AppendProjectKeepsConsistent | src/company/company-auth/company-auth.service.ts:119-125 | adding a project under a fresh id keeps project ids unique |
| Store.OtherLogsUnchanged | src/company/company-projects/company-projects.service.ts:243-250 | an activity for one project leaves the log of every other project unchanged |
| Store.UnusedProjectHasEmptyLog | src/company/company-projects/company-projects.service.ts:300-305 | a project id that no activity mentions has an empty log |
| Milestones.StepName | src/company/company-projects/company-projects.service.ts:410-419 | exactly stages 1 to 8 have a name; no name is empty or "Project Completed" |
| Milestones.ResponsibleParty | src/company/company-projects/company-projects.service.ts:422-431 | exactly stages 1 to 8 have a responsible party (Company, CII or Assessor) |
| Milestones.ProjectLog | src/company/company-projects/company-projects.service.ts:300-305 | the log holds exactly the activities of that company's project |
| Milestones.ProjectLogAppend | src/company/company-projects/company-projects.service.ts:243-250 | a new activity joins the log of the project it belongs to and no other |
| Milestones.CountsAsCompleted | src/company/company-projects/company-projects.service.ts:308-310 | the `find` test: `milestone_completed === true` and a truthy (present, non-zero) `milestone_flow` |
| Milestones.CurrentStage | src/company/company-projects/company-projects.service.ts:308-310 | the current stage is that of the latest completed activity with a non-zero stage, and 0 exactly when there is none |
| Milestones.CurrentStageName | src/company/company-projects/company-projects.service.ts:435-437 | the latest completed stage is named exactly when it is one of stages 1 to 8 |
| Milestones.NextStage | src/company/company-projects/company-projects.service.ts:440-442 | the next stage is the current stage + 1, or the pointer (1 if unset) when nothing is completed |
| Milestones.NextActivityInfo | src/company/company-projects/company-projects.service.ts:445-457 | "In Progress" exactly when the next stage has a non-completed activity; otherwise "Completed" past stage 8 and "Pending" before it; the name is the stage's own, or "Project Completed" past 8; the responsibility is "N/A" exactly outside 1 to 8 |
| Milestones.NextNameAfterCurrent | src/company/company-projects/company-projects.service.ts:440-451 | once stage n of 1 to 8 is current, the next activity is named after stage n + 1, or "Project Completed" after 8 |
| Milestones.CurrentActivityData | src/company/company-projects/company-projects.service.ts:496-512 | a current stage is shown as that stage's name, "Completed" and its party; otherwise the latest CII activity, or "No activity yet"; never "In Progress" |
| Milestones.LastActivityData | src/company/company-projects/company-projects.service.ts:536-552 | the newest activity's description, completion and stage, where a missing or zero stage falls back to pointer - 1; "Project started" at stage 1 for an empty log |
| Milestones.NewestFirst | src/company/company-projects/company-projects.service.ts:399-404 | the activity list is the log's descriptions, newest first |
| Milestones.AdmittedActivity | src/company/company-projects/company-projects.service.ts:243-250 | a recorded milestone is a CII activity of that project, with the given stage, description and completion |
| Milestones.AdmittedPointer | src/company/company-projects/company-projects.service.ts:252-255 | a completed milestone sets the pointer to its stage + 1; otherwise the pointer stays |
| Milestones.RegistrationActivity | src/company/company-auth/company-auth.service.ts:128-135 | registration logs stage 1, completed, named after stage 1 |
| Milestones.AppendCompletedBecomesCurrent | src/company/company-projects/company-projects.service.ts:308-310 | a newly logged completed stage becomes the current stage, whatever came before |
| Milestones.AppendOtherKeepsCurrent | src/company/company-projects/company-projects.service.ts:308-310 | an activity that is not a completion changes neither the current nor the next stage |
| Milestones.CompletedAdmissionAdvances | src/company/company-projects/company-projects.service.ts:243-255 | after a completed milestone, its stage is current and the following stage is next |
| Milestones.CompletedAdmissionNamesNext | src/company/company-projects/company-projects.service.ts:440-451 | after a completed milestone, the next activity is named after the following stage, or "Project Completed" after stage 8 |
| Milestones.IncompleteAdmissionMarksProgress | src/company/company-projects/company-projects.service.ts:445-447 | a milestone that is not completed keeps the current and next stage, and marks the next stage "In Progress" when it is that stage |
| Milestones.AdmissionKeepsPointerAgreement | src/company/company-projects/company-projects.service.ts:243-255 | a validated milestone keeps the cached pointer equal to the next stage its log derives |
| Milestones.RegistrationSeedAgrees | src/company/company-auth/company-auth.service.ts:128-139 | right after registration stage 1 is current, the pointer 2 agrees with the log, and stage 2 (CII) is next and pending |
| Milestones.AdmittedPointerRange | src/company/company-projects/dto/complete-milestone.dto.ts:4-7 | a validated completed milestone puts the pointer between 2 and 9 |
| Milestones.PointerCanMoveBack | src/company/company-projects/company-projects.service.ts:252-255 | completing an earlier stage moves the pointer back (6 to 4 after completing stage 3) |
| Milestones.UnvalidatedStageBreaksAgreement | src/company/company-projects/company-projects.service.ts:308-310 | a completed stage 0 that bypasses validation leaves the pointer disagreeing with the log |
| Milestones.NullCompletionKeepsStage | src/company/company-projects/company-projects.service.ts:241-255 | a body with `completed: null` logs a not-completed activity, keeps the pointer, and changes neither the current nor the next stage |
| Milestones.NoCompletionUsesPointer | src/company/company-projects/company-projects.service.ts:440-442 | with no completed activity, the next stage is the pointer, or 1 when it is 0 |
| Milestones.StageFourInProgress | src/company/company-projects/company-projects.service.ts:445-457 | with stages 1 to 3 done and stage 4 started, stage 4 (Company) is next and "In Progress" |
| Milestones.EighthStageCompletesWorkflow | src/company/company-projects/company-projects.service.ts:449-457 | once stage 8 is current and nothing is in progress at stage 9, the next activity is "Project Completed", "Completed", "N/A" |
| Milestones.InProgressBeatsCompletion | src/company/company-projects/company-projects.service.ts:453-457 | an activity at stage 9 that is not completed makes the status "In Progress" even past stage 8 |
| Milestones.OutOfOrderCompletion | src/company/company-projects/company-projects.service.ts:308-310 | stages need not be completed in order: completing stage 5 first makes stage 6 next |
| Milestones.LatestNotHighest | src/company/company-projects/company-projects.service.ts:308-310 | completing stage 5 and then stage 3 makes stage 3 current |
| CompanyAuthService.RegisterRejection | src/company/company-auth/company-auth.service.ts:52-98 | registration is refused, in this order, for a taken lower-cased email (409), a taken mobile number (409), a malformed number (400) and a missing or inactive selected facilitator (400); it is accepted exactly when none applies |
| CompanyAuthService.RegisteredCompany | src/company/company-auth/company-auth.service.ts:107-114 | the stored company has the lower-cased email, is active and not verified |
| CompanyAuthService.RegisteredProject | src/company/company-auth/company-auth.service.ts:119-139 | the project's process type is `'c'` for CII and `'f'` otherwise, and its pointer ends at 2 |
| CompanyAuthService.RegisteredAssignments | src/company/company-auth/company-auth.service.ts:142-149 | a facilitator assignment is created exactly when a facilitator is selected |
| CompanyAuthService.Registered | src/company/company-auth/company-auth.service.ts:107-149 | an accepted registration keeps every stored record and adds, last, the registered company, its project, the stage-1 activity and any facilitator assignment |
| CompanyAuthService.Register | src/company/company-auth/company-auth.service.ts:50-167 | fails exactly when a check fails, with that check's error and no writes; otherwise stores the registration and replies "Company Registered Successfully."; keeps the indexes and pointer agreement; the new account can log in |
| CompanyAuthService.SaveRegistration | src/company/company-auth/company-auth.service.ts:107-149 | the registration's writes, in source order, produce exactly the collections `Registered` describes |
| CompanyAuthService.RegistrationKeepsInvariants | src/company/company-auth/company-auth.service.ts:101-149 | an accepted registration keeps the unique indexes and every pointer's agreement, and the generated password logs in |
| CompanyAuthService.RegisterKeepsPointersAgreeing | src/company/company-auth/company-auth.service.ts:119-139 | the new project's seed activity and pointer 2 agree, and no other project's log changes |
| CompanyAuthService.Login | src/company/company-auth/company-auth.service.ts:169-238 | every failure is 401; a success is for an active account under the lower-cased email, and the token's subject and email are that account's |
| CompanyAuthService.LoginSucceedsIff | src/company/company-auth/company-auth.service.ts:170-201 | login succeeds exactly when some active account has the lower-cased email and the password's hash |
| CompanyAuthService.LoginRejectsInOrder | src/company/company-auth/company-auth.service.ts:182-201 | a wrong password is reported before an inactive account |
| CompanyAuthService.LoginUnknownEmail | src/company/company-auth/company-auth.service.ts:170-179 | an unknown email gets "No Account Found!" |
| CompanyAuthService.ForgotPasswordRejection | src/company/company-auth/company-auth.service.ts:241-261 | a reset is refused for an unknown lower-cased email, then for an inactive account; it is accepted exactly for an active one |
| CompanyAuthService.ForgotPassword | src/company/company-auth/company-auth.service.ts:240-289 | a refused reset writes nothing; an accepted one stores the new password's hash, then replies success if the mail was sent and "Failed to send email" otherwise, keeping the new password either way |
| CompanyAuthService.ResetPasswordLogsIn | src/company/company-auth/company-auth.service.ts:264-269 | after a reset the account logs in with the generated password |
| CompanyAuthService.PasswordSetLogsIn | src/company/company-auth/company-auth.service.ts:265-269 | after an active account's hash is replaced, its email and the new password log in |
| CompanyAuthService.SamePositionsSameLookup | src/company/company-auth/company-auth.service.ts:241-243 | rewriting a company without changing its email leaves every email lookup unchanged |
| CompanyAuthService.WithPassword | src/company/company-auth/company-auth.service.ts:264-269 | saving a new password hash changes only that company's `password` field and no other company |
| CompanyAuthService.ChangePasswordRejection | src/company/company-auth/company-auth.service.ts:295-327 | a change is refused for an unknown id (404), then a wrong current password, then a new password whose hash equals the stored one; an accepted change has the right current password and a different new one |
| CompanyAuthService.ChangePassword | src/company/company-auth/company-auth.service.ts:291-348 | fails exactly when a check fails, with no writes; otherwise replaces only that account's hash with the new password's and leaves the other collections unchanged |
| CompanyAuthService.ChangedPasswordLogsIn | src/company/company-auth/company-auth.service.ts:330-334 | after a change, an active account logs in with the new password |
| CompanyAuthService.GetCurrentUser | src/company/company-auth/company-auth.service.ts:350-379 | fails with "Company not found" exactly when no company has the id; otherwise the reply is that company's record without its password, and the id, pointer and process type of its first project, which is absent exactly when it has none |
| CompanyAuthService.LoginSubjectIsCurrentUser | src/company/company-auth/company-auth.service.ts:209-214 | the token's subject names the account that logged in: reading the current user with it gives that same account view |
| AccountStatusGuard.CanActivate | src/company/company-auth/guards/account-status.guard.ts:17-48 | admits or throws 401: a missing or empty user id or an unknown company gets "Unauthorized" |
| AccountStatusGuard.AdmitsExactlyActiveAccounts | src/company/company-auth/guards/account-status.guard.ts:21-48 | the guard admits exactly requests whose user id names an active company |
| AccountStatusGuard.InactiveAccountIsNamed | src/company/company-auth/guards/account-status.guard.ts:37-42 | an inactive account gets "Account In-Active!" |
| CompanyProjectsService.BaseUrl | src/company/company-projects/company-projects.service.ts:460 | the base URL is `API_BASE_URL` when set and non-empty, else `http://localhost:3001` |
| CompanyProjectsService.ResolveDocumentUrl | src/company/company-projects/company-projects.service.ts:82-92 | a link is given exactly for a non-empty stored URL: an absolute URL as stored, anything else as the download route |
| CompanyProjectsService.ResolveIsIdempotent | src/company/company-projects/company-projects.service.ts:82-92 | resolving a resolved link changes nothing when the base URL is absolute |
| CompanyProjectsService.RelativePathIsHidden | src/company/company-projects/company-projects.service.ts:82-92 | a stored relative path is never shown, only the route that serves it |
| CompanyProjectsService.GetProject | src/company/company-projects/company-projects.service.ts:113-127 | the project is returned exactly when it exists and belongs to the company; otherwise "Project not found" |
| CompanyProjectsService.ProjectsAreScopedToTheirCompany | src/company/company-projects/company-projects.service.ts:113-127 | another company reading the same project gets "Project not found" |
| CompanyProjectsService.GetCertificateSummary | src/company/company-projects/company-projects.service.ts:48-111 | fails exactly when the project is not the company's; the links follow `ResolveDocumentUrl`; the score fields are the project's |
| CompanyProjectsService.NewProjectSummary | src/company/company-projects/company-projects.service.ts:82-108 | a new project's summary has no documents and empty scores |
| CompanyProjectsService.GetScoreBandPdfPath | src/company/company-projects/company-projects.service.ts:129-160 | "Project not found", then "Score band not available" without a stored path, then "Score band PDF file not found on server" when the file is missing; a returned path exists; every error is 404 |
| CompanyProjectsService.Catalog | src/company/company-projects/company-projects.service.ts:410-419 | the step catalog lists stages 1 to 8 by name, in order |
| CompanyProjectsService.GetQuickviewData | src/company/company-projects/company-projects.service.ts:263-581 | a missing project, then a missing company, are errors; otherwise the panels are the log's current activity, the next activity, the list newest first, the catalog and the last activity |
| CompanyProjectsService.QuickviewFollowsPointer | src/company/company-projects/company-projects.service.ts:440-442 | in a store whose pointers agree, the quickview's next activity is the stage the project's pointer names |
| CompanyProjectsService.MilestoneRecorded | src/company/company-projects/company-projects.service.ts:243-255 | recording a milestone changes only that project and the activity log |
| CompanyProjectsService.CompleteMilestone | src/company/company-projects/company-projects.service.ts:224-261 | "Project not found" with no writes, otherwise the milestone is recorded; validated input keeps every pointer in agreement |
| CompanyProjectsService.MilestoneKeepsConsistent | src/company/company-projects/company-projects.service.ts:243-255 | recording a milestone keeps the unique indexes |
| CompanyProjectsService.MilestoneKeepsPointersAgreeing | src/company/company-projects/company-projects.service.ts:243-255 | recording a validated milestone keeps every project's pointer in agreement |
| CompanyProjectsService.MilestoneRecordedLookups | src/company/company-projects/company-projects.service.ts:229-250 | after recording, the same project and company are found and the project's log has gained the new activity |
| CompanyProjectsService.QuickviewOfRecorded | src/company/company-projects/company-projects.service.ts:300-319 | after recording, the quickview reads the old log extended by the new activity |
| CompanyProjectsService.NullCompletionLeavesProjects | src/company/company-projects/company-projects.service.ts:241-255 | recording a body with `completed: null` appends a not-completed activity and leaves every project, pointer included, unchanged |
| CompanyProjectsService.CompletedMilestoneIsLatestStep | src/company/company-projects/company-projects.service.ts:496-501 | a completed milestone then shows as the latest step completed |
| CompanyProjectsService.CompletedMilestoneAdvancesNext | src/company/company-projects/company-projects.service.ts:440-457 | a completed milestone then makes the following stage next, or "Project Completed" after stage 8 |
| CompanyProjectsService.MergedRegistrationInfo | src/company/company-projects/company-projects.service.ts:180-183 | the saved form data is the new keys over the stored ones, with every other stored key kept |
| CompanyProjectsService.MergeIsIdempotent | src/company/company-projects/company-projects.service.ts:180-183 | saving the same form twice stores what saving it once does |
| CompanyProjectsService.Mirrored | src/company/company-projects/company-projects.service.ts:187-196 | a truthy form field (a non-empty string) overrides the company's own value; an absent, null or empty one keeps it |
| CompanyProjectsService.MirrorOntoCompany | src/company/company-projects/company-projects.service.ts:186-196 | the company's sector and turnover become the mirrored values; every other field stays |
| CompanyProjectsService.RegistrationInfoSaved | src/company/company-projects/company-projects.service.ts:162-202 | a save changes only projects and companies and keeps their number |
| CompanyProjectsService.SaveRegistrationInfo | src/company/company-projects/company-projects.service.ts:162-202 | "Project not found" with no writes; otherwise the form is merged and mirrored onto the company, the indexes and pointers are kept, and the reply is "Registration info saved successfully" |
| CompanyProjectsService.NullSectorIsStoredNotMirrored | src/company/company-projects/company-projects.service.ts:180-190 | a null `sector_id` is stored as null in the form data, and the company keeps its own sector |
| CompanyProjectsService.RegistrationInfoSavedKeepsInvariants | src/company/company-projects/company-projects.service.ts:180-196 | a save keeps the unique indexes and every pointer's agreement |
| CompanyProjectsService.SaveMirrorsOntoCompany | src/company/company-projects/company-projects.service.ts:186-196 | a save sets the sector and turnover from truthy form fields, keeps them when the field is absent, null or empty, and changes nothing else on any company |
| CompanyProjectsService.ProjectUpdateKeepsConsistentOnly | src/company/company-projects/company-projects.service.ts:180-183 | rewriting a project under the same id keeps project ids unique |
| CompanyProjectsService.GetRegistrationInfo | src/company/company-projects/company-projects.service.ts:204-222 | "Project not found" exactly when the project is not the company's; otherwise the stored form data, or an empty form |
| CompanyProjectsService.SavedInfoReadsBack | src/company/company-projects/company-projects.service.ts:180-222 | with `registration_info` declared in the project schema, as the service intends, reading back after a save gives the merged form data |
| CompanyProjectsService.StrictlyPersisted | src/company/schemas/company-project.schema.ts:6-49 | the store persists every project without `registration_info`, an undeclared path, and changes nothing else |
| CompanyProjectsService.SavedInfoIsLostAsWritten | src/company/company-projects/company-projects.service.ts:180-222 | as written, after a save and strict persistence the form reads back as `{}`, which differs from the merged form whenever the form is non-empty |
| CompanyProjectsController.FilenameOr | src/company/company-projects/company-projects.controller.ts:104 | the stored filename when it is non-empty, else the default |
| CompanyProjectsController.DocumentGate | src/company/company-projects/company-projects.controller.ts:85-107 | a missing or empty URL gets "document not found" before any file is looked for; a missing file gets "file not found on server"; otherwise the file under the working directory is shown inline under its filename |
| CompanyProjectsController.GetCertificateDocument | src/company/company-projects/company-projects.controller.ts:73-108 | "Project not found", then the gate with the certificate's URL, messages and default "certificate.pdf"; every error is 404 |
| CompanyProjectsController.GetFeedbackDocument | src/company/company-projects/company-projects.controller.ts:110-145 | "Project not found", then the gate with the feedback URL, messages and default "feedback.pdf"; every error is 404 |
| CompanyProjectsController.LinkedCertificateIsServed | src/company/company-projects/company-projects.controller.ts:85-99 | a certificate the summary links to is served exactly when its file exists |
| CompanyProjectsController.NoCertificateOnRecord | src/company/company-projects/company-projects.controller.ts:85-90 | without a stored certificate both the download and the summary's link are absent |
| CompanyProjectsController.DownloadScoreBand | src/company/company-projects/company-projects.controller.ts:36-71 | a path is sent as "Score_Band.pdf"; a not-found error is re-thrown unchanged; any other error becomes a 500 with `{ status: 'error', message: 'Failed to download score band PDF' }` |
| CompanyProjectsController.ScoreBandOutcome | src/company/company-projects/company-projects.controller.ts:45-48 | the handler receives the service's path on success and the service's own exception on failure |
| CompanyProjectsController.ScoreBandNeverReports500 | src/company/company-projects/company-projects.controller.ts:59-69 | for an id that casts to an ObjectId and a database that answers, the service throws only not-found errors, so the client gets the file or the service's own error and not the 500 |

## Left out

- Mail: the registration and password-change emails are fire-and-forget and are not modelled. `forgotPassword`'s mail enters only as its outcome, `mailSent`.
- JWT signing: a login reply carries the token's payload (subject and email) instead of a signed token.
- bcrypt's salt and cost factor: `hash` is a plain function, so a hash is a function of the password alone.
- Casting a malformed id to an ObjectId throws in Mongoose. This is not modelled; ids are opaque strings.
- The quickview's facilitator, coordinator, assessor, work-order and sector panels are not modelled; they only copy documents from other collections. `proposal_document` is not modelled either.
- Timestamps (`createdAt`, `updatedAt`, `status_updated_at`, `created_at`) are not modelled. Creation order stands for `createdAt` order.
- `project.project_id` is not declared in the project schema, so the quickview shows the project's own id.
- `registration_info` is not declared in the project schema (`company-project.schema.ts:6-49`), and strict mode discards an undeclared path on save. As shipped, every read-back is therefore `{}` (see "## Findings"). The database model stores the field as the service intends; `SavedInfoReadsBack`, `NullSectorIsStoredNotMirrored` and `MergedRegistrationInfo` state that intended storage.
- A stored `milestone_completed: null` is modelled as `false`. Every reader of the log treats it as false: `=== true` at `company-projects.service.ts:309`, `!` at :446 and `|| false` at :543.
- `IsEmail` is a predicate argument of `RegisterDtos.IsValid`. The ValidationPipe's whitelisting and type transformation are not modelled; `IsInt` holds by type.
- `trim` is not modelled, and `toLowerCase` covers ASCII letters only.
- `percentage_score` is copied as stored; its arithmetic is not modelled.
- Not modelled at all: `getCompaniesList`, the seeding scripts, the module wiring, the JWT strategy, the `Content-Type` headers and `sendFile`.
- Success replies are modelled as their message strings; the constant `status: 'success'` key is omitted.
- The save operations are not atomic in the source: a failure between two writes leaves part of them stored. The model's writes always run to completion.
- CompanyProjectsService.RegistrationInfoSaved: its own contract states only what stays unchanged. What a save does is stated by `SavedInfoReadsBack`, `SaveMirrorsOntoCompany` and `RegistrationInfoSavedKeepsInvariants`.
- The exception filter's `catch` is modelled, but no module, controller or bootstrap code registers `HttpExceptionFilter` (no `useGlobalFilters`, `APP_FILTER` or `@UseFilters`). As shipped, clients get the framework's default bodies; nothing else in the model depends on the filter.
- CompanyProjectsController.ScoreBandNeverReports500: a malformed `projectId` (Mongoose's cast error) or a failing database reaches the 500 reply at `company-projects.controller.ts:59-69`; the model has neither, so the lemma covers only ids that cast and a database that answers.
- class-validator and validator.js are not part of this model. `Text.ValidatorLength` follows validator.js's `isLength`, which `MinLength` and `MaxLength` call: one per code point, with the variation selectors U+FE0E and U+FE0F left uncounted. `ChangePasswordDtos.IsValid` and `RegisterDtos.IsValid` use it for the new password and the company name.
- The registration-info operations require that `sector_id` and `turnover` be absent, null or a string. `@IsOptional() @IsString()` and the global ValidationPipe (`main.ts:17-26`) admit only those values, so a form with any other value never reaches the service.

## Findings

| source | as written | input that shows it | evidently intended | confidence | as-written member | corrected member |
|---|---|---|---|---|---|---|
| src/company/company-projects/company-projects.service.ts:180-184 | `project.registration_info = {...}` is saved, but the project schema declares no `registration_info` path, so strict mode persists nothing and `getRegistrationInfo` always returns `{}` | any save with a non-empty form, e.g. `{ "city": "Pune" }`, then a read-back | the service's own comment on the assignment and `getRegistrationInfo`: the form is stored under `registration_info` and read back merged | high; not executed | CompanyProjectsService.SavedInfoIsLostAsWritten | CompanyProjectsService.SavedInfoReadsBack |
