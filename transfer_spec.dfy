/**
 * What the transfer workflow has done when its run method is suspended at
 * a given await. The run is cut at each suspension point (a durable delay,
 * the approval wait, or an activity call); `Transition` says which
 * suspension may follow which, and the functions below say, for each
 * suspension, the progress, the state label, the stored receipt and the
 * activity calls scheduled so far. The workflow class keeps its fields
 * equal to these functions, so the lemmas about runs here hold of every
 * execution of the class.
 */
module TransferSpec {
  import opened Wrappers
  import opened DataObjects
  import opened AccountTransferActivities
  import DecimalText

  const StateStarting: string := "starting"
  const StateRunning: string := "running"
  const StateWaiting: string := "waiting"
  const StateFinished: string := "finished"

  const InitialProgress: int := 10
  /** Seconds the run waits for approval. */
  const InitialApprovalTime: int := 30
  /** The receipt stored before any deposit has succeeded. */
  const EmptyCharge: ChargeResponse := ChargeResponse("")
  const UpdateReply: string := "successfully approved transfer"
  const BugMessage: string := "Simulating workflow bug!"
  /** The activity options' StartToCloseTimeout, in seconds. */
  const StartToCloseTimeoutSeconds: int := 5

  /** The failure message of a run whose approval wait timed out (spelling as in the program). */
  function ApprovalTimeoutMessage(approvalTime: int): string {
    "Approval not recieved wihin " + DecimalText.IntToString(approvalTime) + " seconds"
  }

  /**
   * The timeout message of a run with the initial 30-second window, written
   * out so that the run's proofs need not evaluate IntToString;
   * ApprovalTimeoutMessageText proves it equal to ApprovalTimeoutMessage(30).
   */
  const TimeoutMessage: string := "Approval not recieved wihin 30 seconds"

  /** The written-out message is the one the program builds for the 30-second window. */
  lemma ApprovalTimeoutMessageText()
    ensures ApprovalTimeoutMessage(InitialApprovalTime) == TimeoutMessage
  {
    assert DecimalText.NatToString(3) == "3";
    assert DecimalText.NatToString(30) == "30";
  }

  /**
   * How long one withdraw attempt takes, in seconds of simulated delay:
   * the engine abandons and retries an attempt that outlasts the timeout.
   */
  function WithdrawAttemptSeconds(scenario: ExecutionScenario, attempt: int): int {
    if WithdrawAsync(0, scenario, attempt).delayRequest.Some? then DowntimeDelaySeconds else 0
  }

  /** Under API_DOWNTIME attempts 1 to 4 outlast the timeout and the fifth completes; other scenarios never time out. */
  lemma WithdrawAttemptTimesOut(scenario: ExecutionScenario, attempt: int)
    ensures WithdrawAttemptSeconds(scenario, attempt) > StartToCloseTimeoutSeconds
        <==> scenario == ApiDowntime && attempt < 5
  {
  }

  /**
   * What a run works from: the amount, the outcome of parsing the scenario
   * name (a pure function of the init-only parameters, so every read of it
   * in the run agrees), and the idempotency key the run's deterministic
   * random source yields when the deposit is prepared.
   */
  datatype RunInput = RunInput(
    amountCents: int,
    parsed: Result<ExecutionScenario, ArgumentError>,
    idempotencyKey: string)
  {
    predicate ScenarioKnown() {
      parsed.Ok?
    }

    function Scenario(): ExecutionScenario
      requires ScenarioKnown()
    {
      parsed.value
    }
  }

  /** An activity call the run schedules, with its arguments. */
  datatype ActivityCall =
    | ValidateCall(scenario: ExecutionScenario)
    | WithdrawCall(amountCents: int, scenario: ExecutionScenario)
    | DepositCall(idempotencyKey: string, amountCents: int, scenario: ExecutionScenario)
    | UndoWithdrawCall(amountCents: int)

  /** How a run ends. */
  datatype RunOutcome =
    | Success(charge: ChargeResponse)        // the run returns the receipt
    | ApprovalTimeout(message: string)       // no approval within the window
    | InducedBug(message: string)            // the simulated workflow bug
    | DepositFailed(message: string)         // deposit failed; the withdrawal was undone
    | InvalidScenario(error: ArgumentError)  // the scenario name did not parse

  /** Where the run method is suspended. */
  datatype Suspension =
    | NotStarted
    | WarmUpDelay             // the initial durable delay
    | AwaitValidate           // the validate activity
    | AwaitApproval           // the bounded wait for `approved`
    | VisibilityPause         // the 5-second pause of ADVANCED_VISIBILITY
    | AwaitWithdraw           // the withdraw activity
    | WithdrawPause           // the 2-second pause after withdraw
    | AwaitDeposit            // the deposit activity
    | AwaitUndo(failure: string)  // the undo activity, holding the deposit failure's message
    | FinalPause              // the 6-second pause at 80%
    | Completed(outcome: RunOutcome)

  /** The suspension reached once approval is settled: progress 60, then withdraw. */
  function AfterApproval(scenario: ExecutionScenario): Suspension {
    if scenario == AdvancedVisibility then VisibilityPause else AwaitWithdraw
  }

  /** Where the run goes when the deposit activity completes. */
  function AfterDeposit(input: RunInput): (next: Suspension)
    requires input.ScenarioKnown()
    ensures next == FinalPause <==> input.Scenario() != InvalidAccount
    ensures next != FinalPause ==> next == AwaitUndo("Invalid Account")
  {
    match Deposit(input.idempotencyKey, input.amountCents, input.Scenario())
    case Ok(_) => FinalPause
    case Err(e) => AwaitUndo(e.message)
  }

  /**
   * The step out of the deposit: a failure keeps the displayed fields and
   * schedules undo with the transfer's amount; a success stores the receipt
   * at 80% and schedules nothing.
   */
  lemma DepositStep(input: RunInput)
    requires input.ScenarioKnown()
    ensures Transition(input, AwaitDeposit, AfterDeposit(input))
    ensures var r, next := Deposit(input.idempotencyKey, input.amountCents, input.Scenario()), AfterDeposit(input);
      && (r.Err? ==>
        && next == AwaitUndo(r.error.message)
        && TraceAt(input, next) == TraceAt(input, AwaitDeposit) + [UndoWithdrawCall(input.amountCents)]
        && ChargeAt(input, next) == ChargeAt(input, AwaitDeposit)
        && ProgressAt(next) == ProgressAt(AwaitDeposit) && StateAt(next) == StateAt(AwaitDeposit))
      && (r.Ok? ==>
        && next == FinalPause && ChargeAt(input, next) == r.value
        && TraceAt(input, next) == TraceAt(input, AwaitDeposit)
        && ProgressAt(next) == 80 && StateAt(next) == StateAt(AwaitDeposit))
  {
  }

  /** The step out of undo: the run fails with the deposit's message and the displayed fields stay. */
  lemma UndoStep(input: RunInput, failure: string)
    ensures Transition(input, AwaitUndo(failure), Completed(DepositFailed(failure)))
    ensures TraceAt(input, Completed(DepositFailed(failure))) == TraceAt(input, AwaitUndo(failure))
    ensures ChargeAt(input, Completed(DepositFailed(failure))) == ChargeAt(input, AwaitUndo(failure))
    ensures ProgressAt(Completed(DepositFailed(failure))) == ProgressAt(AwaitUndo(failure))
    ensures StateAt(Completed(DepositFailed(failure))) == StateAt(AwaitUndo(failure))
  {
  }

  /** The step out of the final pause: "finished" at 100%, the run succeeding with the stored receipt. */
  lemma FinalPauseStep(input: RunInput)
    requires input.ScenarioKnown()
    ensures var next := Completed(Success(ChargeAt(input, FinalPause)));
      && Transition(input, FinalPause, next)
      && TraceAt(input, next) == TraceAt(input, FinalPause)
      && ChargeAt(input, next) == ChargeAt(input, FinalPause)
      && ProgressAt(next) == 100 && StateAt(next) == StateFinished
  {
  }

  /**
   * The suspensions that may follow `a`. Two steps are open to the
   * environment: after validate asks for approval, the wait is skipped when
   * approval was already given; and the approval wait ends either approved
   * or timed out.
   */
  predicate Transition(input: RunInput, a: Suspension, b: Suspension)
    ensures Transition(input, a, b) ==> !a.Completed? && Rank(a) < Rank(b)
  {
    match a
    case NotStarted =>
      (match input.parsed
       case Err(e) => b == Completed(InvalidScenario(e))
       case Ok(_) => b == WarmUpDelay)
    case WarmUpDelay => b == AwaitValidate
    case AwaitValidate =>
      && input.ScenarioKnown()
      && (b == AfterApproval(input.Scenario()) || (Validate(input.Scenario()) && b == AwaitApproval))
    case AwaitApproval =>
      && input.ScenarioKnown()
      && (b == AfterApproval(input.Scenario())
          || b == Completed(ApprovalTimeout(TimeoutMessage)))
    case VisibilityPause => b == AwaitWithdraw
    case AwaitWithdraw => b == WithdrawPause
    case WithdrawPause =>
      && input.ScenarioKnown()
      && b == if input.Scenario() == BugInWorkflow then Completed(InducedBug(BugMessage)) else AwaitDeposit
    case AwaitDeposit => input.ScenarioKnown() && b == AfterDeposit(input)
    case AwaitUndo(m) => b == Completed(DepositFailed(m))
    case FinalPause => input.ScenarioKnown() && b == Completed(Success(ChargeAt(input, FinalPause)))
    case Completed(_) => false
  }

  /** Position of a suspension in the run's fixed order. */
  function Rank(pc: Suspension): nat {
    match pc
    case NotStarted => 0
    case WarmUpDelay => 1
    case AwaitValidate => 2
    case AwaitApproval => 3
    case VisibilityPause => 4
    case AwaitWithdraw => 5
    case WithdrawPause => 6
    case AwaitDeposit => 7
    case AwaitUndo(_) => 8
    case FinalPause => 8
    case Completed(_) => 9
  }

  /** `progressPercentage` while suspended at `pc`. */
  function ProgressAt(pc: Suspension): int {
    match pc
    case NotStarted => InitialProgress
    case WarmUpDelay => 25
    case AwaitValidate => 50
    case AwaitApproval => 50
    case FinalPause => 80
    case Completed(Success(_)) => 100
    case Completed(ApprovalTimeout(_)) => 50
    case Completed(InvalidScenario(_)) => InitialProgress
    case _ => 60
  }

  /** Progress stays between its initial 10% and 100%, and reaches 100% only on success. */
  lemma ProgressRange(pc: Suspension)
    ensures InitialProgress <= ProgressAt(pc) <= 100
    ensures ProgressAt(pc) == 100 <==> pc.Completed? && pc.outcome.Success?
  {
  }

  /** `transferState` while suspended at `pc`. */
  function StateAt(pc: Suspension): string {
    match pc
    case NotStarted => StateStarting
    case WarmUpDelay => StateStarting
    case AwaitApproval => StateWaiting
    case Completed(Success(_)) => StateFinished
    case Completed(ApprovalTimeout(_)) => StateWaiting
    case Completed(InvalidScenario(_)) => StateStarting
    case _ => StateRunning
  }

  /**
   * The state shows "finished" exactly after a successful run, and "waiting"
   * exactly during the approval wait and after it timed out.
   */
  lemma StateLabels(pc: Suspension)
    ensures StateAt(pc) == StateFinished <==> pc.Completed? && pc.outcome.Success?
    ensures StateAt(pc) == StateWaiting <==> pc == AwaitApproval || (pc.Completed? && pc.outcome.ApprovalTimeout?)
  {
  }

  /** `chargeResult` while suspended at `pc`: the deposit's receipt once it has succeeded. */
  function ChargeAt(input: RunInput, pc: Suspension): ChargeResponse {
    match pc
    case FinalPause =>
      if input.ScenarioKnown() then
        (match Deposit(input.idempotencyKey, input.amountCents, input.Scenario())
         case Ok(c) => c
         case Err(_) => EmptyCharge)
      else EmptyCharge
    case Completed(Success(c)) => c
    case _ => EmptyCharge
  }

  /**
   * The receipt is empty until the deposit has succeeded; at the final pause
   * it is the deposit's receipt exactly when the scenario lets the deposit succeed.
   */
  lemma ChargeStored(input: RunInput, pc: Suspension)
    ensures pc != FinalPause && !(pc.Completed? && pc.outcome.Success?) ==> ChargeAt(input, pc) == EmptyCharge
    ensures pc == FinalPause ==>
      (ChargeAt(input, pc) == ChargeResponse("example-charge-id") <==> input.ScenarioKnown() && input.Scenario() != InvalidAccount)
  {
  }

  /** The activity calls the run has scheduled, in order, when suspended at `pc`. */
  function TraceAt(input: RunInput, pc: Suspension): seq<ActivityCall> {
    if !input.ScenarioKnown() then []
    else
      var s, amount := input.Scenario(), input.amountCents;
      var validate := [ValidateCall(s)];
      var withdraw := validate + [WithdrawCall(amount, s)];
      var deposit := withdraw + [DepositCall(input.idempotencyKey, amount, s)];
      var undo := deposit + [UndoWithdrawCall(amount)];
      match pc
      case NotStarted => []
      case WarmUpDelay => []
      case AwaitValidate => validate
      case AwaitApproval => validate
      case VisibilityPause => validate
      case AwaitWithdraw => withdraw
      case WithdrawPause => withdraw
      case AwaitDeposit => deposit
      case AwaitUndo(_) => undo
      case FinalPause => deposit
      case Completed(Success(_)) => deposit
      case Completed(ApprovalTimeout(_)) => validate
      case Completed(InducedBug(_)) => withdraw
      case Completed(DepositFailed(_)) => undo
      case Completed(InvalidScenario(_)) => []
  }

  /**
   * At most four calls are ever scheduled: validate first, deposit third,
   * and a fourth, undo with the transfer's amount, exactly once the deposit has failed.
   */
  lemma TraceShape(input: RunInput, pc: Suspension)
    ensures var calls := TraceAt(input, pc);
      && |calls| <= 4
      && (|calls| > 0 ==> input.ScenarioKnown() && calls[0] == ValidateCall(input.Scenario()))
      && (|calls| > 2 ==> calls[2] == DepositCall(input.idempotencyKey, input.amountCents, input.Scenario()))
      && (|calls| == 4 <==> input.ScenarioKnown() && (pc.AwaitUndo? || (pc.Completed? && pc.outcome.DepositFailed?)))
      && (|calls| == 4 ==> calls[3] == UndoWithdrawCall(input.amountCents))
  {
  }

  /** Which suspensions a scenario can reach, and what each outcome carries. */
  predicate ScenarioFits(s: ExecutionScenario, pc: Suspension) {
    match pc
    case AwaitApproval => s == HumanInLoop
    case VisibilityPause => s == AdvancedVisibility
    case AwaitDeposit => s != BugInWorkflow
    case AwaitUndo(m) => s == InvalidAccount && m == "Invalid Account"
    case FinalPause => s != BugInWorkflow && s != InvalidAccount
    case Completed(Success(c)) =>
      s != BugInWorkflow && s != InvalidAccount && c == ChargeResponse("example-charge-id")
    case Completed(ApprovalTimeout(m)) =>
      s == HumanInLoop && m == TimeoutMessage
    case Completed(InducedBug(m)) => s == BugInWorkflow && m == BugMessage
    case Completed(DepositFailed(m)) => s == InvalidAccount && m == "Invalid Account"
    case Completed(InvalidScenario(_)) => false
    case _ => true
  }

  /** The invariant of reachable suspensions. */
  predicate Consistent(input: RunInput, pc: Suspension) {
    if input.ScenarioKnown() then ScenarioFits(input.Scenario(), pc)
    else pc == NotStarted || pc == Completed(InvalidScenario(input.parsed.error))
  }

  /** The suspensions every run reaching `pc` has passed through before it. */
  function MustPrecede(pc: Suspension): set<Suspension> {
    var validated := {NotStarted, WarmUpDelay, AwaitValidate};
    var withdrawn := validated + {AwaitWithdraw, WithdrawPause};
    match pc
    case NotStarted => {}
    case WarmUpDelay => {NotStarted}
    case AwaitValidate => {NotStarted, WarmUpDelay}
    case AwaitApproval => validated
    case VisibilityPause => validated
    case AwaitWithdraw => validated
    case WithdrawPause => validated + {AwaitWithdraw}
    case AwaitDeposit => withdrawn
    case AwaitUndo(_) => withdrawn + {AwaitDeposit}
    case FinalPause => withdrawn + {AwaitDeposit}
    case Completed(Success(_)) => withdrawn + {AwaitDeposit, FinalPause}
    case Completed(ApprovalTimeout(_)) => validated + {AwaitApproval}
    case Completed(InducedBug(_)) => withdrawn
    case Completed(DepositFailed(m)) => withdrawn + {AwaitDeposit, AwaitUndo(m)}
    case Completed(InvalidScenario(_)) => {NotStarted}
  }

  /** A run so far: starts unstarted, and each suspension may follow the one before. */
  predicate IsRun(input: RunInput, path: seq<Suspension>)
    decreases |path|
  {
    if |path| <= 1 then path == [NotStarted]
    else IsRun(input, path[..|path| - 1]) && Transition(input, path[|path| - 2], path[|path| - 1])
  }

  lemma ExtendRun(input: RunInput, path: seq<Suspension>, b: Suspension)
    requires IsRun(input, path) && Transition(input, path[|path| - 1], b)
    ensures IsRun(input, path + [b])
  {
    assert (path + [b])[..|path|] == path;
  }

  /** One step moves forward in the fixed order, never lowers progress, only appends activity calls, and keeps the invariant. */
  lemma TransitionAdvances(input: RunInput, a: Suspension, b: Suspension)
    requires Transition(input, a, b)
    ensures Rank(a) < Rank(b)
    ensures ProgressAt(a) <= ProgressAt(b)
    ensures TraceAt(input, a) <= TraceAt(input, b)
    ensures MustPrecede(b) <= MustPrecede(a) + {a}
    ensures Consistent(input, a) ==> Consistent(input, b)
  {
  }

  /** Every prefix of a run is a run. */
  lemma {:induction false} RunPrefix(input: RunInput, path: seq<Suspension>, k: nat)
    requires IsRun(input, path) && 0 < k <= |path|
    ensures IsRun(input, path[..k])
    decreases |path|
  {
    if k < |path| {
      RunPrefix(input, path[..|path| - 1], k);
      assert path[..|path| - 1][..k] == path[..k];
    } else {
      assert path[..k] == path;
    }
  }

  /** Once a run has left the start without failing, its scenario name parsed. */
  lemma {:induction false} RunKnown(input: RunInput, path: seq<Suspension>)
    requires IsRun(input, path)
    ensures input.ScenarioKnown() || path[|path| - 1] == NotStarted || path[|path| - 1].Completed?
    decreases |path|
  {
    if |path| > 1 {
      RunKnown(input, path[..|path| - 1]);
    }
  }

  /** The suspension a run has reached satisfies the invariant. */
  lemma {:induction false} RunConsistent(input: RunInput, path: seq<Suspension>)
    requires IsRun(input, path)
    ensures Consistent(input, path[|path| - 1])
    decreases |path|
  {
    if |path| > 1 {
      var n := |path| - 1;
      RunConsistent(input, path[..n]);
      TransitionAdvances(input, path[n - 1], path[n]);
    }
  }

  /** The prefix order on call lists is transitive. */
  lemma PrefixTransitive(t1: seq<ActivityCall>, t2: seq<ActivityCall>, t3: seq<ActivityCall>)
    requires t1 <= t2 && t2 <= t3
    ensures t1 <= t3
  {
    assert t2[..|t1|] == t3[..|t2|][..|t1|];
  }

  /**
   * Along a run the suspensions strictly rise in the fixed order, so none
   * repeats and a run has at most ten.
   */
  lemma {:induction false} RunRanks(input: RunInput, path: seq<Suspension>)
    requires IsRun(input, path)
    ensures |path| <= Rank(path[|path| - 1]) + 1 <= 10
    ensures forall i, j :: 0 <= i < j < |path| ==> Rank(path[i]) < Rank(path[j])
    decreases |path|
  {
    if |path| > 1 {
      var init := path[..|path| - 1];
      var n := |path| - 1;
      RunRanks(input, init);
      TransitionAdvances(input, path[n - 1], path[n]);
      forall i, j | 0 <= i < j < |path|
        ensures Rank(path[i]) < Rank(path[j])
      {
        assert init[i] == path[i] && init[n - 1] == path[n - 1];
        if j < n {
          assert init[j] == path[j];
        }
      }
    }
  }

  /**
   * Along a run the progress never decreases and the activity calls made so
   * far are only ever extended.
   */
  lemma {:induction false} RunMonotone(input: RunInput, path: seq<Suspension>)
    requires IsRun(input, path)
    ensures forall i, j :: 0 <= i <= j < |path| ==>
      ProgressAt(path[i]) <= ProgressAt(path[j]) && TraceAt(input, path[i]) <= TraceAt(input, path[j])
    decreases |path|
  {
    if |path| > 1 {
      var init := path[..|path| - 1];
      var n := |path| - 1;
      RunMonotone(input, init);
      TransitionAdvances(input, path[n - 1], path[n]);
      forall i, j | 0 <= i <= j < |path|
        ensures ProgressAt(path[i]) <= ProgressAt(path[j]) && TraceAt(input, path[i]) <= TraceAt(input, path[j])
      {
        if j == n && i < n {
          assert init[i] == path[i] && init[n - 1] == path[n - 1];
          PrefixTransitive(TraceAt(input, path[i]), TraceAt(input, path[n - 1]), TraceAt(input, path[n]));
        } else if j < n {
          assert init[i] == path[i] && init[j] == path[j];
        }
      }
    }
  }

  /** The suspensions occurring in a path. */
  function Elements(path: seq<Suspension>): set<Suspension> {
    set q | q in path
  }

  /** A run has passed through every suspension that must precede the one it is at. */
  lemma {:induction false} RunVisits(input: RunInput, path: seq<Suspension>)
    requires IsRun(input, path)
    ensures MustPrecede(path[|path| - 1]) <= Elements(path[..|path| - 1])
    decreases |path|
  {
    if |path| > 1 {
      var init := path[..|path| - 1];
      var n := |path| - 1;
      RunVisits(input, init);
      TransitionAdvances(input, path[n - 1], path[n]);
      assert init[..n - 1] == path[..n - 1];
      assert path[..n] == path[..n - 1] + [path[n - 1]];
    }
  }

  /** Every suspension of a run satisfies the invariant. */
  lemma RunAllConsistent(input: RunInput, path: seq<Suspension>)
    requires IsRun(input, path)
    ensures forall i :: 0 <= i < |path| ==> Consistent(input, path[i])
  {
    forall i | 0 <= i < |path| ensures Consistent(input, path[i]) {
      RunPrefix(input, path, i + 1);
      RunConsistent(input, path[..i + 1]);
    }
  }

  /** How each scenario's run ends, stated independently of the run. */
  function ExpectedOutcome(s: ExecutionScenario): RunOutcome {
    match s
    case BugInWorkflow => InducedBug(BugMessage)
    case InvalidAccount => DepositFailed("Invalid Account")
    case _ => Success(ChargeResponse("example-charge-id"))
  }

  /**
   * A finished run ends as its scenario dictates: an unknown scenario name
   * fails at once, HUMAN_IN_LOOP may also time out, and every other scenario
   * has exactly one ending.
   */
  lemma ScenarioOutcome(input: RunInput, path: seq<Suspension>)
    requires IsRun(input, path) && path[|path| - 1].Completed?
    ensures !input.ScenarioKnown() ==>
      path[|path| - 1].outcome == InvalidScenario(input.parsed.error)
    ensures input.ScenarioKnown() ==>
      || path[|path| - 1].outcome == ExpectedOutcome(input.Scenario())
      || (input.Scenario() == HumanInLoop
          && path[|path| - 1].outcome == ApprovalTimeout("Approval not recieved wihin 30 seconds"))
  {
    RunConsistent(input, path);
  }

  /**
   * A run that returns a receipt returns the one the deposit stored (the
   * suspension before the end is the final pause, whose stored receipt it
   * is), ends at 100% and "finished", called validate, withdraw and deposit
   * once each in that order, and passed through the suspensions at 25%, 50%,
   * 60% and 80%.
   */
  lemma SuccessfulRun(input: RunInput, path: seq<Suspension>, charge: ChargeResponse)
    requires IsRun(input, path) && path[|path| - 1] == Completed(Success(charge))
    ensures input.ScenarioKnown()
    ensures input.Scenario() != BugInWorkflow && input.Scenario() != InvalidAccount
    ensures charge == ChargeResponse("example-charge-id")
    ensures |path| >= 2 && path[|path| - 2] == FinalPause && ChargeAt(input, FinalPause) == charge
    ensures ProgressAt(path[|path| - 1]) == 100 && StateAt(path[|path| - 1]) == StateFinished
    ensures TraceAt(input, path[|path| - 1]) == [
      ValidateCall(input.Scenario()),
      WithdrawCall(input.amountCents, input.Scenario()),
      DepositCall(input.idempotencyKey, input.amountCents, input.Scenario())]
    ensures WarmUpDelay in path && AwaitValidate in path && AwaitWithdraw in path && FinalPause in path
  {
    RunConsistent(input, path);
    RunVisits(input, path);
    var visited := path[..|path| - 1];
    assert WarmUpDelay in Elements(visited) && AwaitValidate in Elements(visited);
    assert AwaitWithdraw in Elements(visited) && FinalPause in Elements(visited);
  }

  /**
   * A run whose approval wait timed out was a HUMAN_IN_LOOP run, waited,
   * fails with the 30-second message, and called validate only: withdraw,
   * deposit and undo never ran.
   */
  lemma TimedOutRun(input: RunInput, path: seq<Suspension>, message: string)
    requires IsRun(input, path) && path[|path| - 1] == Completed(ApprovalTimeout(message))
    ensures input.ScenarioKnown() && input.Scenario() == HumanInLoop
    ensures message == "Approval not recieved wihin 30 seconds"
    ensures |path| >= 2 && path[|path| - 2] == AwaitApproval
    ensures StateAt(path[|path| - 1]) == StateWaiting && ProgressAt(path[|path| - 1]) == 50
    ensures TraceAt(input, path[|path| - 1]) == [ValidateCall(HumanInLoop)]
  {
    RunConsistent(input, path);
  }

  /**
   * Under BUG_IN_WORKFLOW the run never reaches the deposit: no suspension
   * from the deposit on occurs, no deposit or undo is ever called, and a run
   * that ends does so with the induced bug, after validate and withdraw.
   */
  lemma BugScenarioNeverDeposits(input: RunInput, path: seq<Suspension>)
    requires IsRun(input, path) && input.ScenarioKnown() && input.Scenario() == BugInWorkflow
    ensures AwaitDeposit !in path && FinalPause !in path
    ensures forall m :: AwaitUndo(m) !in path
    ensures forall call :: call in TraceAt(input, path[|path| - 1]) ==>
      !call.DepositCall? && !call.UndoWithdrawCall?
    ensures path[|path| - 1].Completed? ==>
      && path[|path| - 1].outcome == InducedBug(BugMessage)
      && TraceAt(input, path[|path| - 1]) == [
           ValidateCall(BugInWorkflow), WithdrawCall(input.amountCents, BugInWorkflow)]
  {
    RunAllConsistent(input, path);
  }

  /**
   * Compensation runs exactly when the deposit fails, which is exactly under
   * INVALID_ACCOUNT: then undo is called once, with the transfer's amount,
   * after withdraw and deposit; the run fails with the deposit's message
   * and was never "finished".
   */
  lemma DepositFailureCompensated(input: RunInput, path: seq<Suspension>)
    requires IsRun(input, path) && path[|path| - 1].Completed?
    ensures path[|path| - 1].outcome.DepositFailed?
        <==> input.ScenarioKnown() && input.Scenario() == InvalidAccount
    ensures UndoWithdrawCall(input.amountCents) in TraceAt(input, path[|path| - 1])
        <==> path[|path| - 1].outcome.DepositFailed?
    ensures path[|path| - 1].outcome.DepositFailed? ==>
      && path[|path| - 1].outcome.message == "Invalid Account"
      && TraceAt(input, path[|path| - 1]) == [
           ValidateCall(InvalidAccount),
           WithdrawCall(input.amountCents, InvalidAccount),
           DepositCall(input.idempotencyKey, input.amountCents, InvalidAccount),
           UndoWithdrawCall(input.amountCents)]
      && |path| >= 2 && path[|path| - 2] == AwaitUndo("Invalid Account")
      && forall i :: 0 <= i < |path| ==> StateAt(path[i]) != StateFinished
  {
    RunAllConsistent(input, path);
  }
}
