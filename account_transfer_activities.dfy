/**
 * The four activities of the transfer, each a simulated call to a banking
 * API whose behaviour is selected by the scenario. Logging is left out; the
 * only outbound call (the simulated delay) is returned as the request path
 * it would send.
 */
module AccountTransferActivities {
  import opened Wrappers
  import opened DataObjects
  import DecimalText

  /** Whether the transfer must wait for a human approval. */
  function Validate(scenario: ExecutionScenario): (needsApproval: bool)
    ensures needsApproval <==> scenario == HumanInLoop
  {
    scenario == HumanInLoop
  }

  /** Under API_DOWNTIME, attempts numbered below this one are slowed down. */
  const DowntimeAttempts: int := 5
  /** How long the slowed-down withdraw attempt asks the delay endpoint to wait. */
  const DowntimeDelaySeconds: int := 7
  const SimulateDelayRoute: string := "/simulateDelay?s="

  /** The request path of the simulated-delay GET: the route followed by the seconds in decimal. */
  function SimulateDelayPath(seconds: int): (path: string)
    ensures |path| > |SimulateDelayRoute| && path[..|SimulateDelayRoute|] == SimulateDelayRoute
    ensures DecimalText.IsCanonical(path[|SimulateDelayRoute|..])
    ensures DecimalText.DecimalValue(path[|SimulateDelayRoute|..]) == seconds
  {
    DecimalText.IntToStringRoundTrip(seconds);
    var path := SimulateDelayRoute + DecimalText.IntToString(seconds);
    assert path[|SimulateDelayRoute|..] == DecimalText.IntToString(seconds);
    path
  }

  /** What one withdraw attempt returns, and the delay request it sends first, if any. */
  datatype WithdrawOutcome = WithdrawOutcome(result: string, delayRequest: Option<string>)

  /**
   * One attempt of the withdraw activity; `attempt` is the attempt number the
   * engine supplies (1 for the first try). The amount is only logged.
   */
  function WithdrawAsync(amountCents: int, scenario: ExecutionScenario, attempt: int): (r: WithdrawOutcome)
    ensures r.result == "SUCCESS"
    ensures r.delayRequest.Some? <==> scenario == ApiDowntime && attempt < 5
    ensures r.delayRequest.Some? ==> r.delayRequest.value == "/simulateDelay?s=7"
  {
    var delay :=
      if scenario == ApiDowntime && attempt < DowntimeAttempts
      then Some(SimulateDelayPath(DowntimeDelaySeconds))
      else None;
    assert DecimalText.IntToString(DowntimeDelaySeconds) == "7";
    WithdrawOutcome("SUCCESS", delay)
  }

  /** The exception the deposit activity throws; the engine treats it as non-retryable. */
  datatype InvalidAccountException = InvalidAccountException(message: string)

  /**
   * The deposit activity: fails under INVALID_ACCOUNT, otherwise returns the
   * fixed receipt. The idempotency key and the amount are only logged.
   */
  function Deposit(idempotencyKey: string, amountCents: int, scenario: ExecutionScenario)
    : (r: Result<ChargeResponse, InvalidAccountException>)
    ensures r.Err? <==> scenario == InvalidAccount
    ensures r.Err? ==> r.error.message == "Invalid Account"
    ensures r.Ok? ==> r.value.chargeId == "example-charge-id"
  {
    if scenario == InvalidAccount then Err(InvalidAccountException("Invalid Account"))
    else Ok(ChargeResponse("example-charge-id"))
  }

  /**
   * Repeating a deposit, with the same key or any other, and with any
   * amount, yields the same receipt: a retried deposit never makes a second,
   * different charge.
   */
  lemma DepositIdempotent(key1: string, key2: string, amount1: int, amount2: int, scenario: ExecutionScenario)
    ensures Deposit(key1, amount1, scenario) == Deposit(key2, amount2, scenario)
  {
  }

  /** The compensating activity: always reports the withdrawal undone. */
  function UndoWithdraw(amountCents: int): (undone: bool)
    ensures undone
  {
    true
  }
}
