/**
 * The scenario enumeration, the workflow's start parameters and the two
 * value records the workflow returns and reports.
 */
module DataObjects {
  import opened Wrappers

  /** The six execution modes; each selects which fault or approval behaviour a run exercises. */
  datatype ExecutionScenario =
    | HappyPath
    | AdvancedVisibility
    | HumanInLoop
    | ApiDowntime
    | BugInWorkflow
    | InvalidAccount

  /**
   * The identifier each member is declared with; parsing matches labels
   * against it. No identifier is empty, so the empty label names no member.
   */
  function Name(e: ExecutionScenario): (name: string)
    ensures name != ""
  {
    match e
    case HappyPath => "HAPPY_PATH"
    case AdvancedVisibility => "ADVANCED_VISIBILITY"
    case HumanInLoop => "HUMAN_IN_LOOP"
    case ApiDowntime => "API_DOWNTIME"
    case BugInWorkflow => "BUG_IN_WORKFLOW"
    case InvalidAccount => "INVALID_ACCOUNT"
  }

  /** The two ways `Enum.Parse` throws ArgumentException on a name. */
  datatype ArgumentError =
    | EmptyValue                   // the name is empty
    | ValueNotFound(value: string) // no member is declared with that name

  /** The members in declaration order. */
  const Members: seq<ExecutionScenario> :=
    [HappyPath, AdvancedVisibility, HumanInLoop, ApiDowntime, BugInWorkflow, InvalidAccount]

  /** The first of `members` declared with `name`, if any. */
  function Lookup(name: string, members: seq<ExecutionScenario>): (r: Option<ExecutionScenario>)
    ensures r.Some? ==> r.value in members && Name(r.value) == name
  {
    if members == [] then None
    else if Name(members[0]) == name then Some(members[0])
    else Lookup(name, members[1..])
  }

  /** A name not found among `members` is the name of none of them. */
  lemma {:induction false} LookupMisses(name: string, members: seq<ExecutionScenario>)
    ensures Lookup(name, members).None? <==> forall e :: e in members ==> Name(e) != name
  {
    if members != [] {
      LookupMisses(name, members[1..]);
      assert forall e :: e in members <==> e == members[0] || e in members[1..];
    }
  }

  /**
   * `Enum.Parse<ExecutionScenario>(name)` restricted to exact, case-sensitive
   * member names: the empty name and a name no member is declared with are
   * rejected, each with its own error.
   */
  function Parse(name: string): (r: Result<ExecutionScenario, ArgumentError>)
    ensures r.Ok? ==> Name(r.value) == name
    ensures r.Err? ==> r.error == if name == "" then EmptyValue else ValueNotFound(name)
  {
    if name == "" then Err(EmptyValue)
    else match Lookup(name, Members)
      case Some(e) => Ok(e)
      case None => Err(ValueNotFound(name))
  }

  /** Parsing fails exactly on the names no member is declared with. */
  lemma ParseFails(name: string)
    ensures Parse(name).Err? <==> forall e :: Name(e) != name
  {
    LookupMisses(name, Members);
    forall e: ExecutionScenario
      ensures e in Members && Name(e) != ""
    {
      var i := match e
        case HappyPath => 0
        case AdvancedVisibility => 1
        case HumanInLoop => 2
        case ApiDowntime => 3
        case BugInWorkflow => 4
        case InvalidAccount => 5;
      assert Members[i] == e;
    }
  }

  /** Every member's own name parses back to it. */
  lemma ParseName(e: ExecutionScenario)
    ensures Parse(Name(e)) == Ok(e)
  {
    ParseFails(Name(e));
    NameInjective(e, Parse(Name(e)).value);
  }

  /** Distinct members have distinct names, so a name names at most one member. */
  lemma NameInjective(a: ExecutionScenario, b: ExecutionScenario)
    ensures Name(a) == Name(b) ==> a == b
  {
  }

  /** The correctly spelt names the parameter test parses. */
  lemma ParseTestLabels()
    ensures Parse("HAPPY_PATH") == Ok(HappyPath)
    ensures Parse("ADVANCED_VISIBILITY") == Ok(AdvancedVisibility)
    ensures Parse("HUMAN_IN_LOOP") == Ok(HumanInLoop)
    ensures Parse("API_DOWNTIME") == Ok(ApiDowntime)
    ensures Parse("INVALID_ACCOUNT") == Ok(InvalidAccount)
  {
    ParseName(HappyPath);
    ParseName(AdvancedVisibility);
    ParseName(HumanInLoop);
    ParseName(ApiDowntime);
    ParseName(InvalidAccount);
  }

  /** The names the parameter test expects to be rejected. */
  lemma ParseTestRejects()
    ensures Parse("") == Err(EmptyValue)
    ensures Parse("not a valid scenario") == Err(ValueNotFound("not a valid scenario"))
  {
  }

  /** The misspelt name the parameter test passes for the bug scenario is no member's name. */
  lemma ParseMisspeltBugName()
    ensures Parse("BUG_IN_WORKLOW") == Err(ValueNotFound("BUG_IN_WORKLOW"))
  {
  }

  /**
   * The workflow's start input. Both properties are init-only, so a value
   * of this datatype is never changed after construction.
   */
  datatype WorkflowParameterObj = WorkflowParameterObj(amountCents: int, scenario: string)
  {
    /** The JSON-ignored `ExecutionScenario` property: parses `scenario` each time it is read. */
    function ParsedScenario(): (r: Result<ExecutionScenario, ArgumentError>)
      ensures r.Ok? ==> Name(r.value) == scenario
      ensures r.Err? ==> r.error == if scenario == "" then EmptyValue else ValueNotFound(scenario)
    {
      Parse(scenario)
    }
  }

  /** The deposit's receipt. */
  datatype ChargeResponse = ChargeResponse(chargeId: string)

  /** The status snapshot the workflow's query returns. */
  datatype StateObject = StateObject(
    approvalTime: int,
    progressPercentage: int,
    transferState: string,
    workflowStatus: string,
    chargeResult: ChargeResponse)

  /** Records compare by value: two receipts are equal iff their charge ids are. */
  lemma ChargeResponseEquality(a: ChargeResponse, b: ChargeResponse)
    ensures a == b <==> a.chargeId == b.chargeId
  {
  }

  /** Two snapshots are equal iff all five fields are. */
  lemma StateObjectEquality(a: StateObject, b: StateObject)
    ensures a == b <==>
      && a.approvalTime == b.approvalTime
      && a.progressPercentage == b.progressPercentage
      && a.transferState == b.transferState
      && a.workflowStatus == b.workflowStatus
      && a.chargeResult == b.chargeResult
  {
  }
}
