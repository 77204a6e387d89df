/**
 * Whole runs of the workflow driven as the engine would drive them, one per
 * scenario the tests exercise, plus the two orders of approval around the
 * wait. Each run builds its own instance, steps it through its suspensions
 * and delivers the out-of-band calls at the points named.
 */
module TransferScenarios {
  import opened Wrappers
  import opened DataObjects
  import opened AccountTransferActivities
  import opened TransferSpec
  import opened Workflow

  /** A fresh instance started with the declared name of `scenario`. */
  method NewRun(scenario: ExecutionScenario, amountCents: int, idempotencyKey: string)
    returns (w: TransferWorkflow)
    ensures fresh(w) && w.Valid() && w.pc == NotStarted && !w.approved
    ensures w.parameters == WorkflowParameterObj(amountCents, Name(scenario))
    ensures w.input == RunInput(amountCents, Ok(scenario), idempotencyKey)
  {
    ParseName(scenario);
    w := new TransferWorkflow(WorkflowParameterObj(amountCents, Name(scenario)), idempotencyKey);
  }

  /** HAPPY_PATH returns the fixed receipt and ends "finished" at 100%. */
  method HappyPathRun(amountCents: int, idempotencyKey: string) returns (result: RunOutcome, status: StateObject)
    ensures result == Success(ChargeResponse("example-charge-id"))
    ensures status == StateObject(30, 100, "finished", "", ChargeResponse("example-charge-id"))
  {
    var w := NewRun(HappyPath, amountCents, idempotencyKey);
    w.Start();
    w.ResumeAfterWarmUp();
    w.ResumeAfterValidate();
    w.ResumeAfterWithdraw();
    w.ResumeAfterWithdrawPause();
    w.ResumeAfterDeposit();
    var charge := w.ResumeAfterFinalPause();
    result := w.pc.outcome;
    status := w.TransferStatus();
  }

  /**
   * HUMAN_IN_LOOP with the signal delivered during the wait: the query then
   * shows "waiting" at 50%, and the run completes like the happy path.
   */
  method HumanInLoopApprovedRun(amountCents: int, idempotencyKey: string)
    returns (result: RunOutcome, waiting: StateObject)
    ensures result == Success(ChargeResponse("example-charge-id"))
    ensures waiting == StateObject(30, 50, "waiting", "", ChargeResponse(""))
  {
    var w := NewRun(HumanInLoop, amountCents, idempotencyKey);
    w.Start();
    w.ResumeAfterWarmUp();
    w.ResumeAfterValidate();
    waiting := w.TransferStatus();
    w.ApproveTransfer();
    w.ResumeAfterApprovalWait();
    w.ResumeAfterWithdraw();
    w.ResumeAfterWithdrawPause();
    w.ResumeAfterDeposit();
    var charge := w.ResumeAfterFinalPause();
    result := w.pc.outcome;
  }

  /** HUMAN_IN_LOOP with no approval: the run fails when the wait times out, still "waiting" at 50%. */
  method HumanInLoopNotApprovedRun(amountCents: int, idempotencyKey: string)
    returns (result: RunOutcome, status: StateObject)
    ensures result == ApprovalTimeout("Approval not recieved wihin 30 seconds")
    ensures status == StateObject(30, 50, "waiting", "", ChargeResponse(""))
  {
    var w := NewRun(HumanInLoop, amountCents, idempotencyKey);
    w.Start();
    w.ResumeAfterWarmUp();
    w.ResumeAfterValidate();
    w.ResumeAfterApprovalWait();
    result := w.pc.outcome;
    status := w.TransferStatus();
  }

  /**
   * A signal delivered before the wait (while validate runs) is dropped:
   * the run still waits and then times out.
   */
  method EarlySignalIsDroppedRun(amountCents: int, idempotencyKey: string)
    returns (result: RunOutcome, approvedAfterSignal: bool)
    ensures !approvedAfterSignal
    ensures result == ApprovalTimeout("Approval not recieved wihin 30 seconds")
  {
    var w := NewRun(HumanInLoop, amountCents, idempotencyKey);
    w.Start();
    w.ResumeAfterWarmUp();
    w.ApproveTransfer();
    approvedAfterSignal := w.approved;
    w.ResumeAfterValidate();
    w.ResumeAfterApprovalWait();
    result := w.pc.outcome;
  }

  /**
   * An update delivered before the wait (while validate runs) is kept: the
   * wait succeeds at once, the run never suspends on it, and it completes.
   */
  method EarlyUpdateSkipsWaitRun(amountCents: int, idempotencyKey: string)
    returns (result: RunOutcome, reply: string, skippedWait: bool)
    ensures reply == "successfully approved transfer"
    ensures skippedWait
    ensures result == Success(ChargeResponse("example-charge-id"))
  {
    var w := NewRun(HumanInLoop, amountCents, idempotencyKey);
    w.Start();
    w.ResumeAfterWarmUp();
    reply := w.ApproveTransferUpdate();
    w.ResumeAfterValidate();
    skippedWait := w.pc == AwaitWithdraw;
    w.ResumeAfterWithdraw();
    w.ResumeAfterWithdrawPause();
    w.ResumeAfterDeposit();
    var charge := w.ResumeAfterFinalPause();
    result := w.pc.outcome;
  }

  /** ADVANCED_VISIBILITY pauses before withdraw and otherwise completes like the happy path. */
  method AdvancedVisibilityRun(amountCents: int, idempotencyKey: string) returns (result: RunOutcome)
    ensures result == Success(ChargeResponse("example-charge-id"))
  {
    var w := NewRun(AdvancedVisibility, amountCents, idempotencyKey);
    w.Start();
    w.ResumeAfterWarmUp();
    w.ResumeAfterValidate();
    w.ResumeAfterVisibilityPause();
    w.ResumeAfterWithdraw();
    w.ResumeAfterWithdrawPause();
    w.ResumeAfterDeposit();
    var charge := w.ResumeAfterFinalPause();
    result := w.pc.outcome;
  }

  /**
   * API_DOWNTIME: `attempt` is the withdraw attempt that completed within
   * the activity timeout, so it is the fifth or a later one, and it sends no
   * delay request; the run then completes like the happy path.
   */
  method ApiDowntimeRun(amountCents: int, idempotencyKey: string, attempt: int)
    returns (withdrawn: WithdrawOutcome, result: RunOutcome)
    requires WithdrawAttemptSeconds(ApiDowntime, attempt) <= StartToCloseTimeoutSeconds
    ensures attempt >= 5
    ensures withdrawn == WithdrawOutcome("SUCCESS", None)
    ensures result == Success(ChargeResponse("example-charge-id"))
  {
    WithdrawAttemptTimesOut(ApiDowntime, attempt);
    withdrawn := WithdrawAsync(amountCents, ApiDowntime, attempt);
    var w := NewRun(ApiDowntime, amountCents, idempotencyKey);
    w.Start();
    w.ResumeAfterWarmUp();
    w.ResumeAfterValidate();
    w.ResumeAfterWithdraw();
    w.ResumeAfterWithdrawPause();
    w.ResumeAfterDeposit();
    var charge := w.ResumeAfterFinalPause();
    result := w.pc.outcome;
  }

  /** INVALID_ACCOUNT: the deposit fails, the withdrawal is undone with the same amount, and the run fails. */
  method InvalidAccountRun(amountCents: int, idempotencyKey: string)
    returns (result: RunOutcome, status: StateObject, ghost calls: seq<ActivityCall>)
    ensures result == DepositFailed("Invalid Account")
    ensures status == StateObject(30, 60, "running", "", ChargeResponse(""))
    ensures calls == [
      ValidateCall(InvalidAccount),
      WithdrawCall(amountCents, InvalidAccount),
      DepositCall(idempotencyKey, amountCents, InvalidAccount),
      UndoWithdrawCall(amountCents)]
  {
    var w := NewRun(InvalidAccount, amountCents, idempotencyKey);
    w.Start();
    w.ResumeAfterWarmUp();
    w.ResumeAfterValidate();
    w.ResumeAfterWithdraw();
    w.ResumeAfterWithdrawPause();
    w.ResumeAfterDeposit();
    w.ResumeAfterUndo();
    result := w.pc.outcome;
    status := w.TransferStatus();
    w.CompensatedInstance();
    calls := w.trace;
  }

  /** BUG_IN_WORKFLOW: the run aborts after withdraw, before any deposit. */
  method BugInWorkflowRun(amountCents: int, idempotencyKey: string)
    returns (result: RunOutcome, ghost calls: seq<ActivityCall>)
    ensures result == InducedBug("Simulating workflow bug!")
    ensures calls == [ValidateCall(BugInWorkflow), WithdrawCall(amountCents, BugInWorkflow)]
  {
    var w := NewRun(BugInWorkflow, amountCents, idempotencyKey);
    w.Start();
    w.ResumeAfterWarmUp();
    w.ResumeAfterValidate();
    w.ResumeAfterWithdraw();
    w.ResumeAfterWithdrawPause();
    result := w.pc.outcome;
    w.BugInstanceNeverDeposits();
    calls := w.trace;
  }

  /** An unknown scenario name, such as the misspelt "BUG_IN_WORKLOW", fails the run before anything is done. */
  method UnknownScenarioRun(amountCents: int, idempotencyKey: string) returns (result: RunOutcome, status: StateObject)
    ensures result == InvalidScenario(ValueNotFound("BUG_IN_WORKLOW"))
    ensures status == StateObject(30, 10, "starting", "", ChargeResponse(""))
  {
    ParseMisspeltBugName();
    var w := new TransferWorkflow(WorkflowParameterObj(amountCents, "BUG_IN_WORKLOW"), idempotencyKey);
    w.Start();
    result := w.pc.outcome;
    status := w.TransferStatus();
  }
}
