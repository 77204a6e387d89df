# Money-transfer workflow, modelled in Dafny

This project models the .NET money-transfer process of the repository. It is a durable workflow that moves an amount through four activities (validate, withdraw, deposit, undo-withdraw) while it shows progress to a user interface. Each run follows one of six execution scenarios. The model has three parts:

- **Scenarios and records** (`data_objects.dfy`, module `DataObjects`). This part covers the six-member `ExecutionScenario` enumeration and the `Enum.Parse` conversion from a scenario name, which fails on the empty name and on unknown names. It also covers the start parameters and the `ChargeResponse` and `StateObject` records.
- **Activities** (`account_transfer_activities.dfy`, module `AccountTransferActivities`). Each activity is a total function of its inputs. The withdraw activity also takes the attempt number that the engine supplies. Its only outbound call, the simulated-delay GET, is returned as the request path it would send.
- **The workflow** (`transfer_workflow.dfy`, class `Workflow.TransferWorkflow`). The class has the workflow's fields: progress, state label, approval flag, stored receipt and approval time. Its run method is cut at every await. `Start` runs the code up to the first await, and each `ResumeAfter...` method runs the code from one await to the next. Between any two steps the caller, who stands for the orchestration engine, may deliver three things: the approval signal `ApproveTransfer`, the approval update `ApproveTransferUpdate` and the status query `TransferStatus`. There are no threads.

`transfer_spec.dfy` (module `TransferSpec`) gives the specification of the workflow as pure functions of the suspension point the run has reached:

- `ProgressAt`, `StateAt`, `ChargeAt`: the displayed fields;
- `TraceAt`: the activity calls scheduled so far;
- `Transition`: which suspension may follow which.

A lemma beside each of these functions states what its values mean (`ProgressRange`, `StateLabels`, `ChargeStored`, `TraceShape`). The class's invariant `Valid()` ties its fields and its ghost call trace to these functions, and it records the visited suspensions as a run (`IsRun`). The run lemmas in `TransferSpec` therefore hold of every execution of the class, for every order of signals, updates and queries. `Valid()` also holds the approval gate: under HUMAN_IN_LOOP the run is past the wait, other than by its timeout, only once `approved` holds. The class's own lemmas (`ApprovalGatesWithdraw`, `SucceededInstance`, `TimedOutInstance`, `BugInstanceNeverDeposits`, `CompensatedInstance`, `CompletedAsScenarioDictates`) state them for the instance's fields and recorded calls.

`transfer_scenarios.dfy` drives whole runs the way the repository's tests do, one run per scenario. It also covers both orders of approval around the wait. `decimal_text.dfy` renders an `int` in decimal, as C# string concatenation does. `wrappers.dfy` holds `Option` and `Result`.

Two points where the code and its surroundings disagree; the model follows the code:

- The comment at `TransferWorkflow.workflow.cs:34` says that validate returns false when approval is required. The code returns true then (`AccountTransferActivities.cs:17`) and waits when it gets true (`TransferWorkflow.workflow.cs:37`).
- The test of the parameters spells the bug scenario "BUG_IN_WORKLOW". The enumeration declares `BUG_IN_WORKFLOW`. The model parses the declared name only and shows that the misspelt one is rejected (see Findings).

Reading `parameters.ExecutionScenario` in the first log line of the run (`TransferWorkflow.workflow.cs:24`) parses the scenario name. So an unknown name fails the run before any field changes. The model ends such a run with `InvalidScenario`. The parameters are init-only, so every read of the property parses the same name to the same result. The model therefore parses the name once, when the instance is built, and keeps the result in `RunInput.parsed`.

## Model

| member | source | states |
|---|---|---|
| DecimalText.NatToString | app-dotnet/src/AccountTransferActivities.cs:70 | the decimal digits of a natural number: non-empty, all digits, and a leading '0' only for zero |
| DecimalText.NatToStringRoundTrip | app-dotnet/src/AccountTransferActivities.cs:70 | reading the rendered digits back gives the number |
| DecimalText.IntToString | app-dotnet/src/TransferWorkflow.workflow.cs:52 | rendering an int gives a canonical decimal numeral (no leading zero except in "0", never "-0") that starts with '-' exactly when the int is negative |
| DecimalText.IntToStringRoundTrip | app-dotnet/src/TransferWorkflow.workflow.cs:52 | the numeral denotes the int it was rendered from |
| DecimalText.IntToStringInjective | app-dotnet/src/TransferWorkflow.workflow.cs:52 | distinct ints render as distinct strings |
| DecimalText.LeadingDigitPositive | app-dotnet/src/TransferWorkflow.workflow.cs:52 | a digit string whose first digit is not '0' denotes a positive number |
| DecimalText.DigitsCanonical | app-dotnet/src/TransferWorkflow.workflow.cs:52 | a digit string without a superfluous leading zero is exactly the rendering of the number it denotes |
| DecimalText.CanonicalUnique | app-dotnet/src/TransferWorkflow.workflow.cs:52 | every canonical numeral is the rendering of the int it denotes, so each int has exactly one canonical numeral |
| DataObjects.Name | app-dotnet/src/DataObjects.cs:7-15 | each member's declared identifier; no identifier is empty, so the empty name never names a member |
| DataObjects.Lookup | app-dotnet/src/DataObjects.cs:7-25 | the name search of `Enum.Parse`: a member it finds is in the list and is declared with the name |
| DataObjects.LookupMisses | app-dotnet/src/DataObjects.cs:7-25 | the member lookup finds nothing exactly when no member in the list is declared with the name |
| DataObjects.Parse | app-dotnet/src/DataObjects.cs:7-25 | a successful parse returns a member declared with the given name; the empty name fails with the empty-value error, any other failing name with the not-found error carrying that name |
| DataObjects.ParseFails | app-dotnet/src/DataObjects.cs:7-25 | parsing fails exactly on the names no member is declared with |
| DataObjects.WorkflowParameterObj.ParsedScenario | app-dotnet/src/DataObjects.cs:25 | reading the scenario property parses the scenario name: on success it is a member declared with that name; the empty name fails with the empty-value error, any other failing name with the not-found error carrying that name |
| DataObjects.ParseName | app-dotnet/src/DataObjects.cs:7-25 | round trip: every member's name parses back to that member |
| DataObjects.NameInjective | app-dotnet/src/DataObjects.cs:7-15 | no two members share a name |
| DataObjects.ParseTestLabels | app-dotnet/test/TestMoneyTransferWorkflow.cs:14-55 | the five correctly spelt names of the parameter test parse to their members |
| DataObjects.ParseTestRejects | app-dotnet/test/TestMoneyTransferWorkflow.cs:57-69 | the empty name and "not a valid scenario" are rejected, each with its own error |
| DataObjects.ParseMisspeltBugName | app-dotnet/test/TestMoneyTransferWorkflow.cs:43-48 | the misspelt "BUG_IN_WORKLOW" is no member's name: parsing it fails with the not-found error |
| DataObjects.ChargeResponseEquality | app-dotnet/src/DataObjects.cs:30 | two receipts are equal iff their charge ids are |
| DataObjects.StateObjectEquality | app-dotnet/src/DataObjects.cs:32 | two status snapshots are equal iff all five fields are |
| AccountTransferActivities.Validate | app-dotnet/src/AccountTransferActivities.cs:13-18 | approval is needed iff the scenario is HUMAN_IN_LOOP |
| AccountTransferActivities.SimulateDelayPath | app-dotnet/src/AccountTransferActivities.cs:67-70 | the delay path is "/simulateDelay?s=" followed by the one canonical decimal numeral of the seconds (no leading zero, no "-0"), which denotes them |
| AccountTransferActivities.WithdrawAsync | app-dotnet/src/AccountTransferActivities.cs:21-43 | every attempt returns "SUCCESS"; the attempt sends the delay request iff the scenario is API_DOWNTIME and the attempt number is below 5, and that request is "/simulateDelay?s=7" |
| AccountTransferActivities.Deposit | app-dotnet/src/AccountTransferActivities.cs:46-56 | fails with InvalidAccount("Invalid Account") iff the scenario is INVALID_ACCOUNT, otherwise returns the receipt "example-charge-id" |
| AccountTransferActivities.DepositIdempotent | app-dotnet/src/AccountTransferActivities.cs:46-56 | repeated deposits give the same result whatever the key and the amount, so a repeated key never gives a second, different charge |
| AccountTransferActivities.UndoWithdraw | app-dotnet/src/AccountTransferActivities.cs:59-65 | the compensation always reports success |
| TransferSpec.ApprovalTimeoutMessageText | app-dotnet/src/TransferWorkflow.workflow.cs:52 | with the 30-second window the timeout message is "Approval not recieved wihin 30 seconds" |
| TransferSpec.WithdrawAttemptTimesOut | app-dotnet/src/TransferWorkflow.workflow.cs:13-19 | a withdraw attempt outlasts the 5-second activity timeout iff the scenario is API_DOWNTIME and the attempt number is below 5 |
| TransferSpec.AfterDeposit | app-dotnet/src/TransferWorkflow.workflow.cs:98-115 | when the deposit completes the run goes on to the final pause iff the scenario is not INVALID_ACCOUNT; otherwise it goes to undo, holding the failure "Invalid Account" |
| TransferSpec.Transition | app-dotnet/src/TransferWorkflow.workflow.cs:22-124 | the control flow of the run, with the branches at :37, :45, :60, :85 and :98-105 as its cases: no step leaves a completed run, and every step moves forward in the fixed order |
| TransferSpec.ProgressRange | app-dotnet/src/TransferWorkflow.workflow.cs:26-121 | the progress at each suspension, as set at :27, :31, :57, :118 and :120, stays between 10% and 100% and is 100% exactly after success |
| TransferSpec.StateLabels | app-dotnet/src/TransferWorkflow.workflow.cs:26-121 | the state at each suspension, as set at :26, :32, :43, :58 and :121, is "finished" exactly after success and "waiting" exactly during the approval wait and after its timeout |
| TransferSpec.ChargeStored | app-dotnet/src/TransferWorkflow.workflow.cs:98-123 | the stored receipt is empty until the deposit has succeeded (:101); at the final pause it is "example-charge-id" exactly when the scenario parsed and is not INVALID_ACCOUNT |
| TransferSpec.TraceShape | app-dotnet/src/TransferWorkflow.workflow.cs:35-111 | the activity calls scheduled at each suspension (:35-36, :79, :101-103, :109-111) number at most four: validate with the scenario first, deposit with the key, amount and scenario third, and a fourth, undo with the amount, exactly once the deposit has failed |
| TransferSpec.RunKnown | app-dotnet/src/TransferWorkflow.workflow.cs:24 | a run that has left the start without completing has a scenario name that parsed |
| TransferSpec.TransitionAdvances | app-dotnet/src/TransferWorkflow.workflow.cs:22-124 | each step of the run moves forward in the fixed order, never lowers progress, only appends activity calls, and keeps the reachable-state invariant |
| TransferSpec.RunConsistent | app-dotnet/src/TransferWorkflow.workflow.cs:22-124 | every suspension a run reaches fits its scenario: the wait only under HUMAN_IN_LOOP, the deposit never under BUG_IN_WORKFLOW, undo only under INVALID_ACCOUNT, and each outcome only with its scenario and message |
| TransferSpec.RunAllConsistent | app-dotnet/src/TransferWorkflow.workflow.cs:22-124 | every suspension along a run fits the run's scenario |
| TransferSpec.RunRanks | app-dotnet/src/TransferWorkflow.workflow.cs:22-124 | along any run the suspensions strictly rise in the fixed order, so no suspension repeats and a run has at most ten suspensions |
| TransferSpec.RunMonotone | app-dotnet/src/TransferWorkflow.workflow.cs:22-124 | along any run, progress never decreases and the list of activity calls only grows |
| TransferSpec.RunVisits | app-dotnet/src/TransferWorkflow.workflow.cs:22-124 | a run has passed through every suspension that must come before the one it is at |
| TransferSpec.ScenarioOutcome | app-dotnet/src/TransferWorkflow.workflow.cs:22-124 | a finished run ends as its scenario dictates (HAPPY_PATH, ADVANCED_VISIBILITY, API_DOWNTIME succeed; BUG_IN_WORKFLOW aborts; INVALID_ACCOUNT fails its deposit), HUMAN_IN_LOOP either succeeds or times out, and an unknown scenario name fails at once |
| TransferSpec.SuccessfulRun | app-dotnet/src/TransferWorkflow.workflow.cs:98-123 | a successful run returns the receipt the deposit stored, ends "finished" at 100%, called validate, withdraw and deposit once each in that order, and passed the 25%, 50%, 60% and 80% suspensions |
| TransferSpec.TimedOutRun | app-dotnet/src/TransferWorkflow.workflow.cs:37-53 | a timed-out run was HUMAN_IN_LOOP, ended from the wait with the 30-second message, still "waiting" at 50%, and called validate only: no withdraw, deposit or undo |
| TransferSpec.BugScenarioNeverDeposits | app-dotnet/src/TransferWorkflow.workflow.cs:79-91 | under BUG_IN_WORKFLOW no run reaches the deposit or the undo, and a finished run ends with the induced bug after validate and withdraw |
| TransferSpec.DepositFailureCompensated | app-dotnet/src/TransferWorkflow.workflow.cs:98-115 | a finished run called undo iff its deposit failed, iff the scenario is INVALID_ACCOUNT; then undo was called once, with the transfer's amount, after withdraw and deposit, the run failed with "Invalid Account" and was never "finished" |
| Workflow.TransferWorkflow.constructor | app-dotnet/src/TransferWorkflow.workflow.cs:172-177 | a fresh instance has progress 10, state "starting", approval time 30, approved false and an empty receipt; it keeps the parameters, and the run works from their amount and the parse of their scenario name |
| Workflow.TransferWorkflow.Start | app-dotnet/src/TransferWorkflow.workflow.cs:22-29 | an unknown scenario name fails the run with no field changed; otherwise "starting" at 25%, then the warm-up delay |
| Workflow.TransferWorkflow.ResumeAfterWarmUp | app-dotnet/src/TransferWorkflow.workflow.cs:29-36 | "running" at 50%, and validate is called with the scenario |
| Workflow.TransferWorkflow.ResumeAfterValidate | app-dotnet/src/TransferWorkflow.workflow.cs:37-58 | when validate asks for approval and approval was not already given, the run waits in "waiting" at 50%; otherwise (an update already delivered, or no approval needed) it goes on at once to 60% |
| Workflow.TransferWorkflow.ContinueAfterApproval | app-dotnet/src/TransferWorkflow.workflow.cs:37-79 | reached only once approval is settled: straight from validate when no approval is needed or it was already given, or from the wait once `approved` holds; then "running" at 60%, and the visibility pause under ADVANCED_VISIBILITY, or else the withdraw call with the amount and scenario |
| Workflow.TransferWorkflow.ResumeAfterApprovalWait | app-dotnet/src/TransferWorkflow.workflow.cs:44-58 | when the wait ends without approval the run fails with "Approval not recieved wihin 30 seconds" and nothing else changes; with approval it goes on at 60% |
| Workflow.TransferWorkflow.ResumeAfterVisibilityPause | app-dotnet/src/TransferWorkflow.workflow.cs:75-79 | after the pause, withdraw is called |
| Workflow.TransferWorkflow.ResumeAfterWithdraw | app-dotnet/src/TransferWorkflow.workflow.cs:79-82 | withdraw's result is ignored; the two-second pause follows and nothing else changes |
| Workflow.TransferWorkflow.ResumeAfterWithdrawPause | app-dotnet/src/TransferWorkflow.workflow.cs:84-103 | BUG_IN_WORKFLOW aborts here with "Simulating workflow bug!" and no further call; otherwise deposit is called with the run's key, amount and scenario |
| Workflow.TransferWorkflow.ScheduleDeposit | app-dotnet/src/TransferWorkflow.workflow.cs:98-103 | past the bug check, one deposit call with the run's key, amount and scenario is appended and the run waits for it; nothing displayed changes |
| Workflow.TransferWorkflow.ResumeAfterDeposit | app-dotnet/src/TransferWorkflow.workflow.cs:98-118 | a failed deposit leaves the receipt unchanged and calls undo with the same amount; a successful one stores its receipt and sets 80% |
| Workflow.TransferWorkflow.ResumeAfterUndo | app-dotnet/src/TransferWorkflow.workflow.cs:105-115 | after the undo, the run fails with the deposit failure's message |
| Workflow.TransferWorkflow.ResumeAfterFinalPause | app-dotnet/src/TransferWorkflow.workflow.cs:118-123 | "finished" at 100%, and the run returns exactly the stored receipt |
| Workflow.TransferWorkflow.ApproveTransfer | app-dotnet/src/TransferWorkflow.workflow.cs:126-138 | the signal sets approved only while the state is "waiting"; in any other state nothing changes |
| Workflow.TransferWorkflow.ApproveTransferUpdate | app-dotnet/src/TransferWorkflow.workflow.cs:149-155 | the update sets approved in every state, changes nothing else, and replies "successfully approved transfer" |
| Workflow.TransferWorkflow.TransferStatus | app-dotnet/src/TransferWorkflow.workflow.cs:140-147 | the query returns (approval time, progress, state, "", receipt) and reads without changing anything |
| Workflow.TransferWorkflow.ApprovalGatesWithdraw | app-dotnet/src/TransferWorkflow.workflow.cs:37-57 | under HUMAN_IN_LOOP an instance has recorded the withdraw call, or has succeeded, only if `approved` holds: nothing past the wait happens without approval |
| Workflow.TransferWorkflow.CompletedAsScenarioDictates | app-dotnet/src/TransferWorkflow.workflow.cs:22-124 | a completed instance ended as its scenario dictates, or timed out under HUMAN_IN_LOOP; with an unknown scenario name it ended with the parse error |
| Workflow.TransferWorkflow.SucceededInstance | app-dotnet/src/TransferWorkflow.workflow.cs:98-123 | a successful instance holds and returned the receipt "example-charge-id", shows "finished" at 100%, and its recorded calls are exactly validate, withdraw and deposit, in that order |
| Workflow.TransferWorkflow.TimedOutInstance | app-dotnet/src/TransferWorkflow.workflow.cs:37-53 | a timed-out instance ran HUMAN_IN_LOOP, failed with "Approval not recieved wihin 30 seconds", still shows "waiting" at 50%, and called validate only |
| Workflow.TransferWorkflow.BugInstanceNeverDeposits | app-dotnet/src/TransferWorkflow.workflow.cs:84-91 | an instance running BUG_IN_WORKFLOW never reaches the deposit, the final pause or undo, records no deposit or undo call, and once completed has failed with "Simulating workflow bug!" after validate and withdraw only |
| Workflow.TransferWorkflow.CompensatedInstance | app-dotnet/src/TransferWorkflow.workflow.cs:98-115 | a completed instance failed its deposit iff the scenario is INVALID_ACCOUNT, and recorded the undo call iff its deposit failed; it then failed with "Invalid Account" after validate, withdraw, deposit and undo, in that order, and does not show "finished" |
| TransferScenarios.HappyPathRun | app-dotnet/test/TestMoneyTransferWorkflow.cs:72-103 | HAPPY_PATH returns ChargeResponse("example-charge-id") and ends "finished" at 100% |
| TransferScenarios.HumanInLoopApprovedRun | app-dotnet/test/TestMoneyTransferWorkflow.cs:105-143 | with the signal delivered during the wait, the query shows "waiting" at 50% and the run returns the same receipt as the happy path |
| TransferScenarios.HumanInLoopNotApprovedRun | app-dotnet/test/TestMoneyTransferWorkflow.cs:145-176 | without approval the run fails with the timeout message, left "waiting" at 50% |
| TransferScenarios.EarlySignalIsDroppedRun | app-dotnet/src/TransferWorkflow.workflow.cs:127-138 | a signal delivered before the wait is dropped, so the run still waits and times out |
| TransferScenarios.EarlyUpdateSkipsWaitRun | app-dotnet/src/TransferWorkflow.workflow.cs:150-155 | an update delivered before the wait is kept, so the wait succeeds at once and the run completes |
| TransferScenarios.AdvancedVisibilityRun | app-dotnet/src/TransferWorkflow.workflow.cs:60-76 | ADVANCED_VISIBILITY pauses before withdraw and returns the receipt |
| TransferScenarios.ApiDowntimeRun | app-dotnet/src/AccountTransferActivities.cs:26-40 | the withdraw attempt that completes within the 5-second timeout is the fifth or a later one, and it returns "SUCCESS" without a delay request; the run then completes with the receipt |
| TransferScenarios.InvalidAccountRun | app-dotnet/src/TransferWorkflow.workflow.cs:98-115 | INVALID_ACCOUNT fails with "Invalid Account" and is left "running" at 60%; the calls it returns are the instance's recorded trace: validate, withdraw, deposit and undo with the same amount, in that order |
| TransferScenarios.BugInWorkflowRun | app-dotnet/src/TransferWorkflow.workflow.cs:84-91 | BUG_IN_WORKFLOW aborts with "Simulating workflow bug!"; the calls it returns are the instance's recorded trace: validate and withdraw only |
| TransferScenarios.UnknownScenarioRun | app-dotnet/test/TestMoneyTransferWorkflow.cs:43-48 | a run started with the misspelt "BUG_IN_WORKLOW" fails at once with the not-found error, still "starting" at 10% |

## Left out

- Durable execution is left out: replay, persistence, timers and their durations (the warm-up delay, the 5-, 2- and 6-second pauses, the 30-second wait). Each await is one step that the caller takes whenever it chooses.
- WithdrawAttemptTimesOut: the `/simulateDelay` endpoint is not part of this model. The lemma assumes that the server holds the request for exactly the requested 7 seconds, so that a slowed attempt outlasts the 5-second timeout.
- The engine's retry of activities is not modelled as a loop. `WithdrawAsync` is modelled one attempt at a time, with the attempt number as an input. `WithdrawAttemptTimesOut` states which attempts outlast the 5-second timeout. The run step after withdraw stands for the attempt that completed.
- The reads and upserts of the ADVANCED_VISIBILITY search attributes (`TransferWorkflow.workflow.cs:60-76, 93-96`) are framework calls with no effect on the modelled state. Only the pause they introduce is kept.
- `Workflow.Random` is not modelled. It is deterministic within a run, so the idempotency key is an arbitrary string given when the instance is created.
- Logging is not modelled. The HTTP GET of `SimulateDelay` is not modelled either; only its request path is. `ServerInfo` (the base URL and the warm-up duration) is not part of this model.
- The float `amountDollars` parameters of the activities always receive the int amount. The model keeps amounts as int and leaves the conversion out.
- `Enum.Parse` extras are not modelled: surrounding whitespace, numeric strings and comma-separated names. The one-argument overload called at `DataObjects.cs:25` matches case-sensitively, as the model does.
- How the engine treats exceptions is not modelled. An `InvalidOperationException` or an `ArgumentException` thrown by workflow code fails the workflow task, and the engine retries that task; the model ends the run with `InducedBug` or `InvalidScenario` instead.
- Delivery to a closed workflow is not modelled. The engine rejects signals and updates once a run has completed; the model accepts them, and they can no longer affect the run.
- When the approval wait ends, the model reads `approved` to decide between approval and timeout. A signal and the timeout that land in the same engine activation are not told apart.
- Workflow.TransferWorkflow.ResumeAfterUndo: the run fails with the deposit activity's own message ("Invalid Account"). The text of the engine's `ActivityFailureException`, which wraps that exception, is defined by the engine and is not modelled.
- The records `EchoInput` and `EchoOutput` (`AccountTransferActivities.cs:7-8`) are used nowhere. The Java configuration helper and the Java status record are outside this model.

## Findings

| source | as written | input that shows it | evidently intended | confidence | as-written member | corrected member |
|---|---|---|---|---|---|---|
| app-dotnet/test/TestMoneyTransferWorkflow.cs:46-48 | the parameter test names the bug scenario "BUG_IN_WORKLOW" and expects a member `BUG_IN_WORKLOW`, which the enumeration does not declare | the name "BUG_IN_WORKLOW": parsing fails with the not-found error | the declared name "BUG_IN_WORKFLOW", which parses to the bug scenario | high; not executed | DataObjects.ParseMisspeltBugName | DataObjects.ParseName |
