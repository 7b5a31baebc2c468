/** The request body of a milestone admission and its validation rules. */
module CompleteMilestoneDtos {
  import opened Wrappers

  /** Stages of the certification workflow are numbered 1 to 8. */
  const FirstStage: int := 1
  const LastStage: int := 8

  /**
   * The `completed` field of a body: left out, an explicit `null` (which
   * `@IsOptional()` lets through), or a boolean.
   */
  datatype Completion = Absent | Null | Given(b: bool)

  /** `milestone_flow` is a whole number (IsInt holds by its type here). */
  datatype CompleteMilestoneDto = CompleteMilestoneDto(milestone_flow: int, description: string, completed: Completion)

  /** The body the validation pipe lets through: a stage in [1, 8] and a non-empty description. */
  predicate IsValid(dto: CompleteMilestoneDto)
  {
    FirstStage <= dto.milestone_flow <= LastStage && dto.description != ""
  }

  /**
   * The body after transformation: the class initializer supplies
   * `completed = true` when the field is missing; an explicit value, `null`
   * included, overwrites it.
   */
  function Transformed(dto: CompleteMilestoneDto): (t: CompleteMilestoneDto)
    ensures t.completed != Absent
    ensures t.milestone_flow == dto.milestone_flow && t.description == dto.description
    ensures dto.completed == Absent ==> t.completed == Given(true)
    ensures dto.completed != Absent ==> t.completed == dto.completed
  {
    if dto.completed == Absent then dto.(completed := Given(true)) else dto
  }

  /**
   * Whether the admitted activity is completed: the service reads a missing
   * `completed` as true and stores any other value as given. A stored `null`
   * is falsy to every reader of the log, so it counts as not completed.
   */
  function IsCompleted(dto: CompleteMilestoneDto): (c: bool)
    ensures dto.completed == Absent ==> c
    ensures dto.completed == Null ==> !c
    ensures dto.completed.Given? ==> c == dto.completed.b
  {
    match dto.completed
    case Absent => true
    case Null => false
    case Given(b) => b
  }

  /** The class default and the service default agree: transforming first changes nothing. */
  lemma DefaultsAgree(dto: CompleteMilestoneDto)
    ensures IsCompleted(Transformed(dto)) == IsCompleted(dto)
    ensures IsValid(Transformed(dto)) == IsValid(dto)
  {
  }
}
