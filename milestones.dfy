/**
 * The milestone workflow: the fixed 8-stage catalog, the derivation of a
 * project's progress from its activity log, and milestone admission.
 *
 * A log is a project's activities in creation order (oldest first); the
 * service reads it newest first, so "the first match" of the source is the
 * last match here.
 */
module Milestones {
  import opened Wrappers
  import opened Lookup
  import opened Schemas
  import opened CompleteMilestoneDtos

  // ---------------------------------------------------------------- catalog

  /** The name of each stage, and nothing for a number outside 1..8. */
  function StepName(n: int): (name: Option<string>)
    ensures name.Some? <==> FirstStage <= n <= LastStage
    ensures name.Some? ==> name.value != "" && name.value != "Project Completed"
  {
    match n
    case 1 => Some("Plant registers for GreenCo Rating Online")
    case 2 => Some("GreenCo Launch & Handholding")
    case 3 => Some("Primary Data Submission")
    case 4 => Some("Data submission for Assessment")
    case 5 => Some("Site Visit Assessment")
    case 6 => Some("Award of Rating")
    case 7 => Some("Feedback Report")
    case 8 => Some("Sustenance")
    case _ => None
  }

  /** The party responsible for each stage, and nothing for a number outside 1..8. */
  function ResponsibleParty(n: int): (party: Option<string>)
    ensures party.Some? <==> FirstStage <= n <= LastStage
    ensures party.Some? ==> party.value in {"Company", "CII", "Assessor"}
  {
    match n
    case 1 => Some("Company")
    case 2 => Some("CII")
    case 3 => Some("Company")
    case 4 => Some("Company")
    case 5 => Some("Assessor")
    case 6 => Some("CII")
    case 7 => Some("CII")
    case 8 => Some("Company")
    case _ => None
  }

  // ------------------------------------------------------------------- logs

  /** Whether an activity belongs to the given company's project. */
  predicate BelongsTo(a: CompanyActivity, companyId: Id, projectId: Id)
  {
    a.company_id == companyId && a.project_id == Some(projectId)
  }

  /** A project's log: its activities among all activities, in creation order. */
  function ProjectLog(activities: seq<CompanyActivity>, companyId: Id, projectId: Id): (log: seq<CompanyActivity>)
    ensures |log| <= |activities|
    ensures forall a :: a in log <==> a in activities && BelongsTo(a, companyId, projectId)
  {
    if |activities| == 0 then []
    else
      var init := ProjectLog(activities[..|activities| - 1], companyId, projectId);
      var last := activities[|activities| - 1];
      assert activities == activities[..|activities| - 1] + [last];
      if BelongsTo(last, companyId, projectId) then init + [last] else init
  }

  /** Appending an activity extends exactly the log of the project it belongs to. */
  lemma ProjectLogAppend(activities: seq<CompanyActivity>, a: CompanyActivity, companyId: Id, projectId: Id)
    ensures ProjectLog(activities + [a], companyId, projectId)
         == ProjectLog(activities, companyId, projectId) + (if BelongsTo(a, companyId, projectId) then [a] else [])
  {
    assert (activities + [a])[..|activities|] == activities;
  }

  // ------------------------------------------------------------- derivation

  /** An activity the workflow counts as a completed stage: completed, with a non-zero stage number. */
  predicate CountsAsCompleted(a: CompanyActivity)
  {
    a.milestone_completed && a.milestone_flow.Some? && a.milestone_flow.value != 0
  }

  /**
   * The current stage: the stage number of the most recently created activity
   * that counts as completed, or 0 when there is none. It is not the highest
   * completed stage, and no gap in the stages is checked.
   */
  function CurrentStage(log: seq<CompanyActivity>): (stage: int)
    ensures stage == 0 <==> forall i :: 0 <= i < |log| ==> !CountsAsCompleted(log[i])
    ensures forall i :: 0 <= i < |log| && CountsAsCompleted(log[i]) && (forall j :: i < j < |log| ==> !CountsAsCompleted(log[j]))
              ==> stage == log[i].milestone_flow.value
  {
    match LastIndex(log, CountsAsCompleted)
    case None => 0
    case Some(k) => log[k].milestone_flow.value
  }

  /** The name of the current stage, when the current stage is a catalog stage. */
  function CurrentStageName(log: seq<CompanyActivity>): (name: Option<string>)
    ensures name.Some? <==> FirstStage <= CurrentStage(log) <= LastStage
    ensures name.Some? ==> name == StepName(CurrentStage(log))
  {
    var stage := CurrentStage(log);
    if stage > 0 then StepName(stage) else None
  }

  /**
   * The next stage: one past a positive current stage; otherwise the project's
   * pointer, or 1 when the pointer is 0.
   */
  function NextStage(log: seq<CompanyActivity>, pointer: int): (next: int)
    ensures CurrentStage(log) > 0 ==> next == CurrentStage(log) + 1
    ensures CurrentStage(log) <= 0 ==> next == if pointer != 0 then pointer else 1
  {
    var stage := CurrentStage(log);
    if stage > 0 then stage + 1 else if pointer != 0 then pointer else 1
  }

  /** Some activity for `stage` exists that is not completed. */
  predicate InProgress(log: seq<CompanyActivity>, stage: int)
  {
    exists i :: 0 <= i < |log| && log[i].milestone_flow == Some(stage) && !log[i].milestone_completed
  }

  /** The status labels the workflow reports. */
  datatype Status = InProgressStatus | PendingStatus | CompletedStatus | DoneStatus
  {
    function Label(): string
    {
      match this
      case InProgressStatus => "In Progress"
      case PendingStatus => "Pending"
      case CompletedStatus => "Completed"
      case DoneStatus => "Done"
    }
  }

  /** What the quickview reports about the next stage. `name` is absent for a stage number below 1. */
  datatype NextActivity = NextActivity(name: Option<string>, status: Status, responsibility: string)

  /**
   * The next stage's name, status and responsible party. "In Progress" takes
   * precedence over everything; past stage 8 the name is "Project Completed".
   */
  function NextActivityInfo(log: seq<CompanyActivity>, pointer: int): (r: NextActivity)
    ensures var next := NextStage(log, pointer);
      && (r.status == InProgressStatus <==> InProgress(log, next))
      && (r.status == CompletedStatus <==> !InProgress(log, next) && next > LastStage)
      && (r.status == PendingStatus <==> !InProgress(log, next) && next <= LastStage)
      && (r.name == Some("Project Completed") <==> next > LastStage)
      && (FirstStage <= next <= LastStage ==> r.name == StepName(next) && r.responsibility == ResponsibleParty(next).value)
      && (r.name.None? <==> next < FirstStage)
      && (r.responsibility == "N/A" <==> !(FirstStage <= next <= LastStage))
  {
    var next := NextStage(log, pointer);
    var name := if next <= LastStage then StepName(next) else Some("Project Completed");
    var status :=
      if InProgress(log, next) then InProgressStatus
      else if next > LastStage then CompletedStatus
      else PendingStatus;
    NextActivity(name, status, ResponsibleParty(next).GetOr("N/A"))
  }

  /** Once a catalog stage is current, the next activity is named after the following stage, or the workflow is complete. */
  lemma NextNameAfterCurrent(log: seq<CompanyActivity>, pointer: int, stage: int)
    requires CurrentStage(log) == stage && FirstStage <= stage <= LastStage
    ensures NextActivityInfo(log, pointer).name == if stage < LastStage then StepName(stage + 1) else Some("Project Completed")
  {
  }

  /** An activity entered by CII. */
  predicate IsCiiActivity(a: CompanyActivity)
  {
    a.activity_type == Some(CiiActivityType)
  }

  /** The "latest step" panel of the quickview. */
  datatype CurrentActivity = CurrentActivity(activity: string, status: Status, responsibility: string)

  /**
   * The latest-step fallback chain: the current catalog stage as Completed;
   * else the newest CII activity's description as Done; else "No activity yet"
   * as Pending. Only the first case names a party other than the company.
   */
  function CurrentActivityData(log: seq<CompanyActivity>): (r: CurrentActivity)
    ensures var stage := CurrentStage(log);
      FirstStage <= stage <= LastStage ==>
        r == CurrentActivity(StepName(stage).value, CompletedStatus, ResponsibleParty(stage).value)
    ensures !(FirstStage <= CurrentStage(log) <= LastStage) ==>
      match LastIndex(log, IsCiiActivity)
      case Some(k) => r == CurrentActivity(log[k].description, DoneStatus, "Company")
      case None => r == CurrentActivity("No activity yet", PendingStatus, "Company")
    ensures r.status != InProgressStatus
  {
    var stage := CurrentStage(log);
    var name := CurrentStageName(log);
    if name.Some? then
      CurrentActivity(name.value, CompletedStatus, ResponsibleParty(stage).GetOr("Company"))
    else
      match LastIndex(log, IsCiiActivity)
      case Some(k) => CurrentActivity(log[k].description, DoneStatus, "Company")
      case None => CurrentActivity("No activity yet", PendingStatus, "Company")
  }

  /** The "last activity" panel of the quickview (timestamps are not modelled). */
  datatype LastActivity = LastActivity(description: string, milestone_flow: int, milestone_completed: bool)

  /**
   * The newest activity, with its stage number or, when it has none (or 0),
   * the pointer minus one; "Project started" at stage 1 for an empty log.
   */
  function LastActivityData(log: seq<CompanyActivity>, pointer: int): (r: LastActivity)
    ensures |log| == 0 ==> r == LastActivity("Project started", 1, false)
    ensures |log| > 0 ==>
      var a := log[|log| - 1];
      && r.description == a.description
      && r.milestone_completed == a.milestone_completed
      && r.milestone_flow == (if a.milestone_flow.Some? && a.milestone_flow.value != 0 then a.milestone_flow.value else pointer - 1)
  {
    if |log| == 0 then LastActivity("Project started", 1, false)
    else
      var a := log[|log| - 1];
      var flow := if a.milestone_flow.Some? && a.milestone_flow.value != 0 then a.milestone_flow.value else pointer - 1;
      LastActivity(a.description, flow, a.milestone_completed)
  }

  /** The activity list of the quickview: descriptions, newest first. */
  function NewestFirst(log: seq<CompanyActivity>): (descriptions: seq<string>)
    ensures |descriptions| == |log|
    ensures forall i :: 0 <= i < |log| ==> descriptions[i] == log[|log| - 1 - i].description
  {
    if |log| == 0 then [] else [log[|log| - 1].description] + NewestFirst(log[..|log| - 1])
  }

  // -------------------------------------------------------------- admission

  /** The activity `completeMilestone` appends: a CII entry for the dto's stage. */
  function AdmittedActivity(companyId: Id, projectId: Id, dto: CompleteMilestoneDto): (a: CompanyActivity)
    ensures BelongsTo(a, companyId, projectId) && IsCiiActivity(a)
    ensures a.description == dto.description && a.milestone_flow == Some(dto.milestone_flow)
    ensures a.milestone_completed == IsCompleted(dto)
  {
    NewActivity(companyId, Some(projectId), dto.description).(
      activity_type := Some(CiiActivityType),
      milestone_flow := Some(dto.milestone_flow),
      milestone_completed := IsCompleted(dto))
  }

  /** The pointer after admission: one past the dto's stage when completed, else unchanged (even when that lowers it). */
  function AdmittedPointer(pointer: int, dto: CompleteMilestoneDto): (p: int)
    ensures IsCompleted(dto) ==> p == dto.milestone_flow + 1
    ensures !IsCompleted(dto) ==> p == pointer
  {
    if IsCompleted(dto) then dto.milestone_flow + 1 else pointer
  }

  /** The cached pointer says what the log says: the derived next stage is the pointer. */
  predicate PointerAgrees(log: seq<CompanyActivity>, pointer: int)
  {
    NextStage(log, pointer) == pointer
  }

  /** The registration seed: stage 1 completed by CII. */
  function RegistrationActivity(companyId: Id, projectId: Id): (a: CompanyActivity)
    ensures BelongsTo(a, companyId, projectId) && IsCiiActivity(a) && CountsAsCompleted(a)
    ensures a.milestone_flow == Some(1) && a.description == StepName(1).value
  {
    NewActivity(companyId, Some(projectId), "Plant registers for GreenCo Rating Online").(
      activity_type := Some(CiiActivityType),
      milestone_flow := Some(1),
      milestone_completed := true)
  }

  // ----------------------------------------------------------------- lemmas

  /** Appending an activity that counts as completed makes its stage the current one, whatever came before. */
  lemma AppendCompletedBecomesCurrent(log: seq<CompanyActivity>, a: CompanyActivity)
    requires CountsAsCompleted(a)
    ensures CurrentStage(log + [a]) == a.milestone_flow.value
  {
    LastIndexAppend(log, a, CountsAsCompleted);
  }

  /** Appending an activity that does not count as completed leaves the current stage alone. */
  lemma AppendOtherKeepsCurrent(log: seq<CompanyActivity>, a: CompanyActivity)
    requires !CountsAsCompleted(a)
    ensures CurrentStage(log + [a]) == CurrentStage(log)
    ensures forall p :: NextStage(log + [a], p) == NextStage(log, p)
  {
    LastIndexAppend(log, a, CountsAsCompleted);
    assert forall i :: 0 <= i < |log| ==> (log + [a])[i] == log[i];
  }

  /**
   * Admission of any valid completed milestone sets the current stage to it and
   * the next stage to the one after, with no check for skipped stages.
   */
  lemma CompletedAdmissionAdvances(log: seq<CompanyActivity>, pointer: int, companyId: Id, projectId: Id, dto: CompleteMilestoneDto)
    requires IsValid(dto) && IsCompleted(dto)
    ensures var log' := log + [AdmittedActivity(companyId, projectId, dto)];
      && CurrentStage(log') == dto.milestone_flow
      && NextStage(log', pointer) == dto.milestone_flow + 1
      && CurrentStageName(log') == StepName(dto.milestone_flow)
  {
    AppendCompletedBecomesCurrent(log, AdmittedActivity(companyId, projectId, dto));
  }

  /** Admission of a completed milestone names the following stage as next, or the workflow as complete after stage 8. */
  lemma CompletedAdmissionNamesNext(log: seq<CompanyActivity>, pointer: int, companyId: Id, projectId: Id, dto: CompleteMilestoneDto)
    requires IsValid(dto) && IsCompleted(dto)
    ensures NextActivityInfo(log + [AdmittedActivity(companyId, projectId, dto)], pointer).name
         == if dto.milestone_flow < LastStage then StepName(dto.milestone_flow + 1) else Some("Project Completed")
  {
    var log' := log + [AdmittedActivity(companyId, projectId, dto)];
    AppendCompletedBecomesCurrent(log, AdmittedActivity(companyId, projectId, dto));
    NextNameAfterCurrent(log', pointer, dto.milestone_flow);
  }

  /**
   * Admission of a not-completed milestone keeps the current and next stage,
   * and when it is for the next stage that stage becomes In Progress.
   */
  lemma IncompleteAdmissionMarksProgress(log: seq<CompanyActivity>, pointer: int, companyId: Id, projectId: Id, dto: CompleteMilestoneDto)
    requires !IsCompleted(dto)
    ensures var log' := log + [AdmittedActivity(companyId, projectId, dto)];
      && CurrentStage(log') == CurrentStage(log)
      && NextStage(log', pointer) == NextStage(log, pointer)
      && (dto.milestone_flow == NextStage(log, pointer) ==> NextActivityInfo(log', pointer).status == InProgressStatus)
  {
    var a := AdmittedActivity(companyId, projectId, dto);
    AppendOtherKeepsCurrent(log, a);
    if dto.milestone_flow == NextStage(log, pointer) {
      assert (log + [a])[|log|] == a;
      assert InProgress(log + [a], NextStage(log + [a], pointer));
    }
  }

  /** A valid admission keeps a pointer that agrees with the log in agreement. */
  lemma AdmissionKeepsPointerAgreement(log: seq<CompanyActivity>, pointer: int, companyId: Id, projectId: Id, dto: CompleteMilestoneDto)
    requires IsValid(dto)
    requires PointerAgrees(log, pointer)
    ensures PointerAgrees(log + [AdmittedActivity(companyId, projectId, dto)], AdmittedPointer(pointer, dto))
  {
    if IsCompleted(dto) {
      CompletedAdmissionAdvances(log, pointer, companyId, projectId, dto);
    } else {
      AppendOtherKeepsCurrent(log, AdmittedActivity(companyId, projectId, dto));
    }
  }

  /** The registration seed alone puts the project at stage 1 with the pointer at 2 in agreement. */
  lemma RegistrationSeedAgrees(companyId: Id, projectId: Id)
    ensures var log := [RegistrationActivity(companyId, projectId)];
      && CurrentStage(log) == 1 && PointerAgrees(log, 2)
      && NextActivityInfo(log, 2) == NextActivity(StepName(2), PendingStatus, "CII")
      && CurrentActivityData(log) == CurrentActivity(StepName(1).value, CompletedStatus, "Company")
  {
    AppendCompletedBecomesCurrent([], RegistrationActivity(companyId, projectId));
    assert [] + [RegistrationActivity(companyId, projectId)] == [RegistrationActivity(companyId, projectId)];
  }

  /** For a valid completed dto the pointer written lies in [2, 9]. */
  lemma AdmittedPointerRange(pointer: int, dto: CompleteMilestoneDto)
    requires IsValid(dto) && IsCompleted(dto)
    ensures 2 <= AdmittedPointer(pointer, dto) <= 9
  {
  }

  /** The pointer is not monotone: completing stage 3 when it points at 6 moves it back to 4. */
  lemma PointerCanMoveBack()
    ensures AdmittedPointer(6, CompleteMilestoneDto(3, "Primary data", Absent)) == 4
  {
  }

  /**
   * Without the dto's range check a completed stage 0 would be logged without
   * counting, yet reset the pointer to 1, out of agreement with the log.
   */
  lemma UnvalidatedStageBreaksAgreement(companyId: Id, projectId: Id)
    ensures var log := [RegistrationActivity(companyId, projectId)];
      var dto := CompleteMilestoneDto(0, "x", Given(true));
      && PointerAgrees(log, 2)
      && !PointerAgrees(log + [AdmittedActivity(companyId, projectId, dto)], AdmittedPointer(2, dto))
  {
    RegistrationSeedAgrees(companyId, projectId);
    var log := [RegistrationActivity(companyId, projectId)];
    AppendOtherKeepsCurrent(log, AdmittedActivity(companyId, projectId, CompleteMilestoneDto(0, "x", Given(true))));
  }

  /**
   * A body with `completed: null` logs a not-completed activity: the pointer
   * stays, and the current and next stage are those of the log before it.
   */
  lemma NullCompletionKeepsStage(log: seq<CompanyActivity>, pointer: int, companyId: Id, projectId: Id, flow: int, description: string)
    ensures var a := AdmittedActivity(companyId, projectId, CompleteMilestoneDto(flow, description, Null));
      && !a.milestone_completed
      && AdmittedPointer(pointer, CompleteMilestoneDto(flow, description, Null)) == pointer
      && CurrentStage(log + [a]) == CurrentStage(log)
      && NextStage(log + [a], pointer) == NextStage(log, pointer)
  {
    AppendOtherKeepsCurrent(log, AdmittedActivity(companyId, projectId, CompleteMilestoneDto(flow, description, Null)));
  }

  /** A log with no completed stage: nothing is current and the pointer (or 1) is next. */
  lemma NoCompletionUsesPointer(log: seq<CompanyActivity>, pointer: int)
    requires forall i :: 0 <= i < |log| ==> !log[i].milestone_completed
    ensures CurrentStage(log) == 0 && CurrentStageName(log).None?
    ensures NextStage(log, pointer) == if pointer == 0 then 1 else pointer
  {
  }

  /** A completed activity of the given stage that counts. */
  function Done(stage: int): CompanyActivity
  {
    CompanyActivity("c", Some("p"), "done", Some(CiiActivityType), Some(stage), true)
  }

  /** A not-completed activity of the given stage. */
  function Started(stage: int): CompanyActivity
  {
    CompanyActivity("c", Some("p"), "started", Some(CiiActivityType), Some(stage), false)
  }

  /** Stages 1, 2, 3 completed and stage 4 started: current 3, next 4 In Progress. */
  lemma StageFourInProgress()
    ensures var log := [Done(1), Done(2), Done(3), Started(4)];
      && CurrentStage(log) == 3 && NextStage(log, 4) == 4
      && NextActivityInfo(log, 4) == NextActivity(StepName(4), InProgressStatus, "Company")
  {
    var log := [Done(1), Done(2), Done(3), Started(4)];
    AppendOtherKeepsCurrent([Done(1), Done(2), Done(3)], Started(4));
    AppendCompletedBecomesCurrent([Done(1), Done(2)], Done(3));
    assert log[3].milestone_flow == Some(4) && !log[3].milestone_completed;
  }

  /** Once stage 8 is current (and no stage 9 is started) the workflow is complete. */
  lemma EighthStageCompletesWorkflow(log: seq<CompanyActivity>, pointer: int)
    requires CurrentStage(log) == 8
    requires !InProgress(log, 9)
    ensures NextActivityInfo(log, pointer) == NextActivity(Some("Project Completed"), CompletedStatus, "N/A")
  {
  }

  /** A started stage-9 entry would still win over completion: In Progress takes precedence. */
  lemma InProgressBeatsCompletion()
    ensures NextActivityInfo([Done(8), Started(9)], 9) == NextActivity(Some("Project Completed"), InProgressStatus, "N/A")
  {
    AppendOtherKeepsCurrent([Done(8)], Started(9));
    AppendCompletedBecomesCurrent([], Done(8));
    assert [] + [Done(8)] == [Done(8)];
    assert [Done(8), Started(9)][1].milestone_flow == Some(9);
  }

  /** Out-of-order completion is accepted: a lone stage 5 gives current 5 and next 6. */
  lemma OutOfOrderCompletion(pointer: int)
    ensures CurrentStage([Done(5)]) == 5 && NextStage([Done(5)], pointer) == 6
  {
    AppendCompletedBecomesCurrent([], Done(5));
    assert [] + [Done(5)] == [Done(5)];
  }

  /** The current stage is the latest completed one, not the highest: 5 then 3 gives 3. */
  lemma LatestNotHighest()
    ensures CurrentStage([Done(5), Done(3)]) == 3
  {
    AppendCompletedBecomesCurrent([Done(5)], Done(3));
  }
}
