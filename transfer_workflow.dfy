/**
 * The money-transfer workflow instance. Its run method is cut at each
 * suspension point: `Start` runs the code up to the first await and each
 * `ResumeAfter...` method runs the code from one await to the next. Between
 * two of these calls the caller, standing for the orchestration engine, may
 * deliver the approval signal, the approval update or the status query,
 * any number of times and in any order.
 */
module Workflow {
  import opened Wrappers
  import opened DataObjects
  import opened AccountTransferActivities
  import opened TransferSpec

  class TransferWorkflow {
    /** The run's start parameters. */
    const parameters: WorkflowParameterObj
    /** The amount, the parsed scenario and the key the run's random source yields for the deposit. */
    const input: RunInput
    /** Time to allow for transfer approval, in seconds; never reassigned. */
    const approvalTime: int

    // Reflected in the user interface through the status query.
    var progressPercentage: int
    var transferState: string
    var approved: bool
    var chargeResult: ChargeResponse

    /** Where the run method is suspended. */
    var pc: Suspension
    /** The suspensions the run has been at, oldest first. */
    ghost var history: seq<Suspension>
    /** The activity calls the run has scheduled, in order. */
    ghost var trace: seq<ActivityCall>

    /**
     * Under HUMAN_IN_LOOP the run gets past the approval wait only once
     * `approved` holds; only the timeout ends the wait otherwise.
     */
    ghost predicate ApprovalGate()
      reads this
    {
      var pastWait := Rank(pc) > Rank(AwaitApproval) && !(pc.Completed? && pc.outcome.ApprovalTimeout?);
      input.parsed == Ok(HumanInLoop) && pastWait ==> approved
    }

    /** The invariant, except for the two fields the status display shows. */
    ghost predicate Settled()
      reads this
    {
      && approvalTime == InitialApprovalTime
      && ApprovalGate()
      && IsRun(input, history)
      && history[|history| - 1] == pc
      && chargeResult == ChargeAt(input, pc)
      && trace == TraceAt(input, pc)
    }

    ghost predicate Valid()
      reads this
    {
      && Settled()
      && progressPercentage == ProgressAt(pc)
      && transferState == StateAt(pc)
    }

    /** A fresh instance, before its run method is entered. */
    constructor (parameters: WorkflowParameterObj, idempotencyKey: string)
      ensures Valid()
      ensures this.parameters == parameters
      ensures input == RunInput(parameters.amountCents, parameters.ParsedScenario(), idempotencyKey)
      ensures progressPercentage == 10 && transferState == "starting" && approvalTime == 30
      ensures !approved && chargeResult == ChargeResponse("")
      ensures pc == NotStarted && trace == []
    {
      this.parameters := parameters;
      input := RunInput(parameters.amountCents, parameters.ParsedScenario(), idempotencyKey);
      approvalTime := InitialApprovalTime;
      progressPercentage := InitialProgress;
      transferState := StateStarting;
      approved := false;
      chargeResult := EmptyCharge;
      pc := NotStarted;
      history := [NotStarted];
      trace := [];
    }

    /** Records the suspension just reached. */
    ghost method Reach(next: Suspension)
      requires IsRun(input, history) && Transition(input, history[|history| - 1], next)
      modifies this`history
      ensures history == old(history) + [next] && IsRun(input, history)
    {
      ExtendRun(input, history, next);
      history := history + [next];
    }

    /**
     * Entering the run: reading the scenario throws when its name does not
     * parse, before any field changes; otherwise "starting" at 25% and the
     * warm-up delay.
     */
    method Start()
      requires Valid() && pc == NotStarted
      modifies this
      ensures Valid() && history == old(history) + [pc]
      ensures approved == old(approved) && chargeResult == old(chargeResult) && trace == old(trace)
      ensures match input.parsed
        case Err(e) =>
          && pc == Completed(InvalidScenario(e))
          && progressPercentage == old(progressPercentage) && transferState == old(transferState)
        case Ok(_) =>
          pc == WarmUpDelay && transferState == "starting" && progressPercentage == 25
    {
      var scenario := input.parsed;
      if scenario.Err? {
        pc := Completed(InvalidScenario(scenario.error));
      } else {
        transferState := StateStarting;
        progressPercentage := 25;
        pc := WarmUpDelay;
      }
      Reach(pc);
    }

    /** After the warm-up delay: "running" at 50%, and the validate activity is called. */
    method ResumeAfterWarmUp()
      requires Valid() && pc == WarmUpDelay
      modifies this
      ensures Valid() && history == old(history) + [pc]
      ensures input.ScenarioKnown()
      ensures pc == AwaitValidate && progressPercentage == 50 && transferState == "running"
      ensures trace == old(trace) + [ValidateCall(input.Scenario())]
      ensures approved == old(approved) && chargeResult == old(chargeResult)
    {
      RunKnown(input, history);
      progressPercentage := 50;
      transferState := StateRunning;
      trace := trace + [ValidateCall(input.Scenario())];
      pc := AwaitValidate;
      Reach(pc);
    }

    /**
     * The code after the approval question is settled: "running" at 60%;
     * then either the visibility pause or the withdraw activity.
     */
    method ContinueAfterApproval()
      requires Settled() && (pc == AwaitValidate || pc == AwaitApproval) && input.ScenarioKnown()
      requires pc == AwaitValidate ==> !Validate(input.Scenario()) || approved
      requires pc == AwaitApproval ==> approved
      modifies this
      ensures Valid() && history == old(history) + [pc]
      ensures pc == AfterApproval(input.Scenario())
      ensures progressPercentage == 60 && transferState == "running"
      ensures trace == if pc == AwaitWithdraw
        then old(trace) + [WithdrawCall(input.amountCents, input.Scenario())]
        else old(trace)
      ensures approved == old(approved) && chargeResult == old(chargeResult)
    {
      progressPercentage := 60;
      transferState := StateRunning;
      if input.Scenario() == AdvancedVisibility {
        pc := VisibilityPause;
      } else {
        trace := trace + [WithdrawCall(input.amountCents, input.Scenario())];
        pc := AwaitWithdraw;
      }
      Reach(pc);
    }

    /**
     * After validate: when approval is needed the state becomes "waiting"
     * and the run waits for `approved`, unless it already holds, in which
     * case the wait succeeds at once; otherwise it goes straight on.
     */
    method ResumeAfterValidate()
      requires Valid() && pc == AwaitValidate
      modifies this
      ensures Valid() && history == old(history) + [pc]
      ensures input.ScenarioKnown()
      ensures Validate(input.Scenario()) && !old(approved) ==>
        && pc == AwaitApproval && transferState == "waiting" && progressPercentage == 50
        && trace == old(trace)
      ensures !Validate(input.Scenario()) || old(approved) ==>
        && pc == AfterApproval(input.Scenario()) && transferState == "running" && progressPercentage == 60
      ensures approved == old(approved) && chargeResult == old(chargeResult)
    {
      RunKnown(input, history);
      var needsApproval := Validate(input.Scenario());
      if needsApproval {
        transferState := StateWaiting;
        if !approved {
          pc := AwaitApproval;
          Reach(pc);
          return;
        }
      }
      ContinueAfterApproval();
    }

    /**
     * The approval wait has ended: it ends early as soon as `approved` holds,
     * otherwise at the timeout, so `approved` tells which. Without approval
     * the run fails with the timeout message.
     */
    method ResumeAfterApprovalWait()
      requires Valid() && pc == AwaitApproval
      modifies this
      ensures Valid() && history == old(history) + [pc]
      ensures !approved ==>
        && pc == Completed(ApprovalTimeout("Approval not recieved wihin 30 seconds"))
        && progressPercentage == old(progressPercentage) && transferState == old(transferState)
        && trace == old(trace)
      ensures approved ==> pc == AfterApproval(input.Scenario()) && progressPercentage == 60
      ensures approved == old(approved) && chargeResult == old(chargeResult)
    {
      RunKnown(input, history);
      var received := approved;
      if !received {
        ApprovalTimeoutMessageText();
        pc := Completed(ApprovalTimeout(ApprovalTimeoutMessage(approvalTime)));
        Reach(pc);
      } else {
        ContinueAfterApproval();
      }
    }

    /** After the visibility pause: the withdraw activity is called. */
    method ResumeAfterVisibilityPause()
      requires Valid() && pc == VisibilityPause
      modifies this
      ensures Valid() && history == old(history) + [pc]
      ensures pc == AwaitWithdraw
      ensures input.ScenarioKnown() && input.Scenario() == AdvancedVisibility
      ensures trace == old(trace) + [WithdrawCall(input.amountCents, AdvancedVisibility)]
      ensures progressPercentage == old(progressPercentage) && transferState == old(transferState)
      ensures approved == old(approved) && chargeResult == old(chargeResult)
    {
      RunConsistent(input, history);
      trace := trace + [WithdrawCall(input.amountCents, input.Scenario())];
      pc := AwaitWithdraw;
      Reach(pc);
    }

    /** Withdraw has completed (its result is not used): the two-second pause. */
    method ResumeAfterWithdraw()
      requires Valid() && pc == AwaitWithdraw
      modifies this
      ensures Valid() && history == old(history) + [pc]
      ensures pc == WithdrawPause
      ensures progressPercentage == old(progressPercentage) && transferState == old(transferState)
      ensures approved == old(approved) && chargeResult == old(chargeResult) && trace == old(trace)
    {
      pc := WithdrawPause;
      Reach(pc);
    }

    /**
     * After the pause: BUG_IN_WORKFLOW aborts the run here; otherwise the
     * deposit activity is called with the run's idempotency key.
     */
    method ResumeAfterWithdrawPause()
      requires Valid() && pc == WithdrawPause
      modifies this
      ensures Valid() && history == old(history) + [pc]
      ensures input.ScenarioKnown()
      ensures input.Scenario() == BugInWorkflow ==>
        pc == Completed(InducedBug("Simulating workflow bug!")) && trace == old(trace)
      ensures input.Scenario() != BugInWorkflow ==>
        && pc == AwaitDeposit
        && trace == old(trace) + [DepositCall(input.idempotencyKey, input.amountCents, input.Scenario())]
      ensures progressPercentage == old(progressPercentage) && transferState == old(transferState)
      ensures approved == old(approved) && chargeResult == old(chargeResult)
    {
      RunKnown(input, history);
      if input.Scenario() == BugInWorkflow {
        pc := Completed(InducedBug(BugMessage));
        Reach(pc);
      } else {
        ScheduleDeposit();
      }
    }

    /** Past the bug check: the deposit activity is called with the run's idempotency key. */
    method ScheduleDeposit()
      requires Valid() && pc == WithdrawPause && input.ScenarioKnown() && input.Scenario() != BugInWorkflow
      modifies this
      ensures Valid() && history == old(history) + [pc]
      ensures pc == AwaitDeposit
      ensures trace == old(trace) + [DepositCall(input.idempotencyKey, input.amountCents, input.Scenario())]
      ensures progressPercentage == old(progressPercentage) && transferState == old(transferState)
      ensures approved == old(approved) && chargeResult == old(chargeResult)
    {
      trace := trace + [DepositCall(input.idempotencyKey, input.amountCents, input.Scenario())];
      pc := AwaitDeposit;
      Reach(pc);
    }

    /**
     * The deposit has completed: on failure the undo activity is called with
     * the same amount; on success its receipt is stored and progress is 80%.
     */
    method ResumeAfterDeposit()
      requires Valid() && pc == AwaitDeposit
      modifies this
      ensures Valid() && history == old(history) + [pc]
      ensures input.ScenarioKnown()
      ensures var r := Deposit(input.idempotencyKey, input.amountCents, input.Scenario());
        && (r.Err? ==>
          && pc == AwaitUndo(r.error.message)
          && trace == old(trace) + [UndoWithdrawCall(input.amountCents)]
          && chargeResult == old(chargeResult) && progressPercentage == old(progressPercentage))
        && (r.Ok? ==>
          pc == FinalPause && chargeResult == r.value && progressPercentage == 80 && trace == old(trace))
      ensures transferState == old(transferState) && approved == old(approved)
    {
      RunKnown(input, history);
      DepositStep(input);
      var r := Deposit(input.idempotencyKey, input.amountCents, input.Scenario());
      if r.Err? {
        trace := trace + [UndoWithdrawCall(input.amountCents)];
        pc := AwaitUndo(r.error.message);
      } else {
        chargeResult := r.value;
        progressPercentage := 80;
        pc := FinalPause;
      }
      Reach(pc);
    }

    /** Undo has completed (its result is not used): the run fails with the deposit's message. */
    method ResumeAfterUndo()
      requires Valid() && pc.AwaitUndo?
      modifies this
      ensures Valid() && history == old(history) + [pc]
      ensures pc == Completed(DepositFailed(old(pc).failure))
      ensures progressPercentage == old(progressPercentage) && transferState == old(transferState)
      ensures approved == old(approved) && chargeResult == old(chargeResult) && trace == old(trace)
    {
      var failure := pc.failure;
      UndoStep(input, failure);
      pc := Completed(DepositFailed(failure));
      Reach(pc);
    }

    /** After the final pause: "finished" at 100%, returning the stored receipt. */
    method ResumeAfterFinalPause() returns (result: ChargeResponse)
      requires Valid() && pc == FinalPause
      modifies this
      ensures Valid() && history == old(history) + [pc]
      ensures result == chargeResult == old(chargeResult) && pc == Completed(Success(result))
      ensures progressPercentage == 100 && transferState == "finished"
      ensures approved == old(approved) && trace == old(trace)
    {
      RunKnown(input, history);
      FinalPauseStep(input);
      progressPercentage := 100;
      transferState := StateFinished;
      pc := Completed(Success(chargeResult));
      Reach(pc);
      result := chargeResult;
    }

    /** The approval signal: takes effect only while the run is waiting for it. */
    method ApproveTransfer()
      requires Valid()
      modifies this`approved
      ensures Valid()
      ensures approved == (old(approved) || transferState == "waiting")
    {
      if transferState == StateWaiting {
        approved := true;
      }
    }

    /** The approval update: approves in every state and acknowledges. */
    method ApproveTransferUpdate() returns (reply: string)
      requires Valid()
      modifies this`approved
      ensures Valid()
      ensures approved && reply == "successfully approved transfer"
    {
      approved := true;
      reply := UpdateReply;
    }

    /** The status query: a copy of the displayed fields; the workflow status is always empty. */
    function TransferStatus(): (status: StateObject)
      reads this
      ensures status.approvalTime == approvalTime
      ensures status.progressPercentage == progressPercentage
      ensures status.transferState == transferState
      ensures status.workflowStatus == ""
      ensures status.chargeResult == chargeResult
    {
      StateObject(approvalTime, progressPercentage, transferState, "", chargeResult)
    }

    /**
     * Under HUMAN_IN_LOOP nothing past the approval wait happens without
     * approval: no withdraw is recorded and the run does not succeed.
     */
    lemma ApprovalGatesWithdraw()
      requires Valid() && input.parsed == Ok(HumanInLoop)
      ensures WithdrawCall(input.amountCents, HumanInLoop) in trace ==> approved
      ensures pc.Completed? && pc.outcome.Success? ==> approved
    {
    }

    /** A completed instance ended as its scenario dictates (the run lemma `ScenarioOutcome`, for this run). */
    lemma CompletedAsScenarioDictates()
      requires Valid() && pc.Completed?
      ensures !input.ScenarioKnown() ==> pc.outcome == InvalidScenario(input.parsed.error)
      ensures input.ScenarioKnown() ==>
        || pc.outcome == ExpectedOutcome(input.Scenario())
        || (input.Scenario() == HumanInLoop && pc.outcome == ApprovalTimeout(TimeoutMessage))
    {
      ScenarioOutcome(input, history);
    }

    /**
     * A successful instance holds, and returned, the deposit's receipt, shows
     * "finished" at 100%, and called validate, withdraw and deposit in order.
     */
    lemma SucceededInstance()
      requires Valid() && pc.Completed? && pc.outcome.Success?
      ensures input.ScenarioKnown()
      ensures chargeResult == pc.outcome.charge == ChargeResponse("example-charge-id")
      ensures progressPercentage == 100 && transferState == "finished"
      ensures trace == [
        ValidateCall(input.Scenario()),
        WithdrawCall(input.amountCents, input.Scenario()),
        DepositCall(input.idempotencyKey, input.amountCents, input.Scenario())]
    {
      SuccessfulRun(input, history, pc.outcome.charge);
    }

    /** A timed-out instance was HUMAN_IN_LOOP, still shows "waiting" at 50%, and called validate only. */
    lemma TimedOutInstance()
      requires Valid() && pc.Completed? && pc.outcome.ApprovalTimeout?
      ensures input.ScenarioKnown() && input.Scenario() == HumanInLoop
      ensures pc.outcome.message == "Approval not recieved wihin 30 seconds"
      ensures progressPercentage == 50 && transferState == "waiting"
      ensures trace == [ValidateCall(HumanInLoop)]
    {
      TimedOutRun(input, history, pc.outcome.message);
    }

    /** Under BUG_IN_WORKFLOW an instance never deposits nor undoes, and ends with the induced bug. */
    lemma BugInstanceNeverDeposits()
      requires Valid() && input.parsed == Ok(BugInWorkflow)
      ensures pc != AwaitDeposit && pc != FinalPause && !pc.AwaitUndo?
      ensures forall call :: call in trace ==> !call.DepositCall? && !call.UndoWithdrawCall?
      ensures pc.Completed? ==>
        && pc.outcome == InducedBug("Simulating workflow bug!")
        && trace == [ValidateCall(BugInWorkflow), WithdrawCall(input.amountCents, BugInWorkflow)]
    {
      BugScenarioNeverDeposits(input, history);
      assert pc in history;
    }

    /**
     * A completed instance called undo exactly when its deposit failed,
     * exactly under INVALID_ACCOUNT; it then called validate, withdraw,
     * deposit and undo in that order and never showed "finished".
     */
    lemma CompensatedInstance()
      requires Valid() && pc.Completed?
      ensures pc.outcome.DepositFailed? <==> input.ScenarioKnown() && input.Scenario() == InvalidAccount
      ensures UndoWithdrawCall(input.amountCents) in trace <==> pc.outcome.DepositFailed?
      ensures pc.outcome.DepositFailed? ==>
        && pc.outcome.message == "Invalid Account"
        && trace == [
             ValidateCall(InvalidAccount),
             WithdrawCall(input.amountCents, InvalidAccount),
             DepositCall(input.idempotencyKey, input.amountCents, InvalidAccount),
             UndoWithdrawCall(input.amountCents)]
        && transferState != "finished"
    {
      DepositFailureCompensated(input, history);
    }
  }
}
