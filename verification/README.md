# RevenueRescue: a verified model

Dafny proofs about the recovery backend, the agent that works on failed payments, the
feature pipeline and the evaluation arithmetic of RevenueRescue.

- **The agent** (`PolicyEngine`, `AgentGraph`, `AgentSafety`, `AgentTheorems`,
  `AgentAnswers`, `RunOutcomes`, `Verdicts`, `AgentScripts`, `MessageLimit`, `IdempotencyKeys`,
  `RetrySpacing`, `SimulatorProvider`). One run is the compiled graph from `risk_detection` to the end.
  The language model and the payment provider are an adversary: a function that answers
  every node visit with any strategy, confidence, provider result or fault. One invariant
  is shown to survive every visit; the theorems about whole runs follow from it. A limit on
  the steps of the graph counts as a fault from some visit on, so they hold under it.
- **The recovery protocol** (`CaseStore`, `Uuid`, `Letters`, `RecoveryProtocol`,
  `ProtocolTheorems`, `EndpointTheorems`, `ReplayTheorems`, `AppliedRuns`, `TaskTheorems`, `ChargeTheorems`, `ExecutionTheorems`, `LedgerTheorems`,
  `RecoveryBackend`).
  `CaseStore` gives each endpoint call and each execution of a run as a function on a store of
  cases, runs, webhook receipts and an append-only ledger. `RecoveryBackend` is the store as a mutable object whose methods
  assign field by field, commit and roll back as the source does; each is proved to
  compute its function. The theorems are about all histories of such steps.
- **Features and splits** (`Sorting`, `EventHistory`, `PandasHistory`, `SparkHistory`,
  `ChronoSplit`, `LeakageAudit`). `EventHistory` states the point-in-time features once;
  the pandas loops and the Spark windows are proved to compute them, and the two ways of
  finding a cut-off to agree.
- **Evaluation** (`RealSums`, `Calibration`, `WeightedMedian`, `Classification`,
  `Thresholds`), over real numbers and inputs of any length.
- **The reasoning cleaner** (`ReasoningCleaner`), a string transformation the providers
  and the nodes both apply.

Check everything with `dafny verify dfyconfig.toml`.

## Where code and documentation part

The code is followed in each case, and the lemma named says what it does.

- `docs/policy-engine.md:29-30` denies messages past the communication limit. Payment-method updates
  are not among the gated actions (`policies/engine/policy_engine.py:129-133`) yet count as
  messages (`agents/nodes/deterministic_nodes.py:228-229`), so the limit can be passed:
  `MessageLimitHoldsIff` and `MessageLimitUnderStepLimitIff` give the exact condition, a check
  on policy, case and step limit.
- `backend/app/tasks.py:20-23` promises that payment retries reuse their idempotency key across
  attempts, because retry_count is only advanced on success. The key also holds the strategy
  (`agents/nodes/deterministic_nodes.py:166`), which each attempt asks for afresh:
  `SharedKeysIff` and `RepeatedKeysIff` say which keys are reused, `KeyReuseHoldsIff` when all
  are whatever is proposed, and `DefaultTaskUsesTwoKeys` shows a task that uses two.
- `docs/SECURITY_AND_SAFETY.md:56` promises minimum delays between retries. No node updates
  `hours_since_last_attempt`, and `execute_agent_run` never passes it
  (`backend/app/services/recovery_service.py:282-294`): `RetriesAreSpacedIff` says when a run
  makes no second retry, `SettingsWithoutEffect` that the interval changes no execution, and
  `DefaultRunRetriesThrice` shows three retries in a row.
- `docs/SECURITY_AND_SAFETY.md:38-39` calls opt-out a hard constraint. An execution passes neither
  opt-out nor suspension nor an earlier payment, so these bars never fire in it
  (`SettingsWithoutEffect`, `ExecutionsActIff`); nor does it pass the checkout timeout, so the
  recovery message of the repository's `README.md:204` is never sent (`NoCheckoutMessages`).
- `docs/SECURITY_AND_SAFETY.md:55` bounds the retries of a case by three. Attempts that are rolled
  back leave the counter as it was: `TaskRetryBoundIsExact`, `DefaultTaskRetriesNineTimes`. Their
  charges are not undone either: `ChargeBoundIsExact`, `SimulatedTaskChargesThrice`.
- `docs/architecture.md:68` records a REVENUE_RECOVERED event for a verified recovery. For a
  simulated one the audit service parses the `TXN-` transaction id as a uuid and raises:
  `SimulatedRecoveryNeverCompletes`; for any provider `RecoveryIsShownIff`.
- `docs/evaluation.md:48` counts the status ESCALATED as escalated. A case that is recovered while
  its run waits gets that status and stays recovered: `RecoveredCaseIsMarkedEscalated`.
- The audit of the splits compares training with validation and validation with test only:
  `AuditOrdersTrainAndTestIff`.
- An accepted webhook is a stored receipt even when the provider could not be asked, and is
  then never acted on again: `DeliveryIsLostIffUndecided`.
- `evaluation/protocol.py:101-103` promises the highest-precision threshold when no candidate
  meets the targets; the code looks only at candidates with the coverage and falls back to
  the last one: `MinPrecisionKeepsPromiseIff`, with `MinPrecisionBreaksPromise` and
  `LastResortBreaksPromise`.

## Model

| member | source | states |
|---|---|---|
| `PolicyEngine.FirstFiringRuleDecides` | policies/engine/policy_engine.py:88-213 | An action is approved iff none of the fourteen rules fires; otherwise the firing rule that comes first in the pipeline gives the decision and the only violation code. |
| `PolicyEngine.ApprovalIsAntitone` | policies/engine/policy_engine.py:88-213 | Tightening any limit, or having used up more of one, never turns a refusal into an approval; `allowed`, APPROVED and an empty violation list are the same thing. |
| `AgentGraph.VisitSpendsReplans` | agents/nodes/deterministic_nodes.py:377-379 | Only the replan node changes the replan counter, by one, and no node rewrites the facts of the case. |
| `AgentGraph.VisitDecreases` | agents/graph/recovery_graph.py:126-136 | Every edge of the graph lowers the measure `VisitsLeft`, so every run ends, whatever the answers are. |
| `AgentSafety.QuietVisit` | agents/nodes/deterministic_nodes.py:28-84 | Eight of the eleven nodes touch neither the world, the counters, the policy result nor the recovery flag. |
| `AgentSafety.CheckedKeeps` | agents/nodes/deterministic_nodes.py:90-128 | A policy check keeps the run invariant: it records its decision on the current counters and arms exactly the approved strategy. |
| `AgentSafety.ActedKeeps` | agents/nodes/deterministic_nodes.py:134-245 | An approved action keeps the run invariant: one effect, licensed by the approval just before it, counted in the state and within the limits. |
| `AgentSafety.VerifiedKeeps` | agents/nodes/deterministic_nodes.py:260-335 | A verification keeps the run invariant: recovery is set only by a successful fetch, which is then the last effect. |
| `AgentSafety.TraceKept` | agents/nodes/node_utils.py:34-38 | Each visit extends `node_trace` by the visited node along an edge of the graph, within the visit bound. |
| `AgentSafety.VisitKept` | agents/nodes/node_utils.py:81-118 | Every wrapped node visit keeps the whole run invariant, and trace and observation log stay equal. |
| `AgentSafety.RunKept` | agents/graph/recovery_graph.py:121-138 | From any point of a run the invariant holds at its end; if the run raises, what it did until then was still safe. |
| `AgentTheorems.EveryActionIsLicensed` | agents/nodes/deterministic_nodes.py:134-245 | Even in a run that raises, every retry, message or recorded action comes right after an approval of that strategy with the counters of that moment. |
| `AgentAnswers.EffectsFollowTheAnswers` | agents/nodes/deterministic_nodes.py:90-128 | In every run, one that raises included, each decision is made on the facts of the case, the counters of its moment, the confidence of the diagnosis of the run and the strategy proposed in its round; each action carries that strategy out, each fetch reports the retry of its round as the provider answered it. |
| `AgentAnswers.NoActionOnLowConfidence` | policies/engine/policy_engine.py:187-192 | If a run does anything at all, the confidence of its diagnosis reaches the threshold. |
| `AgentAnswers.EveryActionMeetsTheRules` | policies/engine/policy_engine.py:88-213 | No action of any run goes against a bar on the case, the threshold for the confidence of the diagnosis or, at the count reached at that moment, the retry, message and checkout limits. The retry interval is held against the time known at the start of the run only. |
| `AgentTheorems.NoActionWhenBarred` | policies/engine/policy_engine.py:98-117 | Opt-out, suspension, an already successful payment, an amount over the limit or not positive, or an unknown failure reason: no action at all in the whole run. |
| `AgentTheorems.RetryNumbersAreConsecutive` | agents/nodes/deterministic_nodes.py:164-208 | A run makes at most max(0, max_retries - r0) retries, numbered consecutively from r0 + 1, so no two share an idempotency key. |
| `AgentTheorems.CountersAreExact` | agents/nodes/deterministic_nodes.py:199-236 | The final retry and message counters are the initial ones plus exactly the calls and messages of the run; retries and checkout messages stay within max(initial, limit); at most max_replans + 1 actions. |
| `AgentTheorems.RunsAreShortPaths` | agents/graph/recovery_graph.py:124-136 | A run that raises nothing visits at most 6 * max_replans + 10 nodes, along a path of the graph from risk_detection to completion, each action_execution directly after policy_check, trace equal to the log, and ends stopped. |
| `AgentTheorems.RecoveredIffCaptured` | agents/nodes/deterministic_nodes.py:286-330 | A run that starts unrecovered ends recovered iff its last status fetch said SUCCESS; that fetch is the last effect and gives the recorded transaction and amount. |
| `RunOutcomes.FinishedRunReports` | agents/nodes/deterministic_nodes.py:338-372 | A finished run has made decisions iff it passed the risk check; it leaves the policy result and the strategy of the last one, and an escalation reason - the case was recovered already, or what that decision said - unless it recovers the case or was stopped by the risk check. |
| `RunOutcomes.RunsEndThroughTheirGate` | agents/graph/recovery_graph.py:52-85 | A finished run ends right after the risk check that stopped it, the verification of a recovery, a denial, or else an escalation. |
| `Verdicts.VerificationTellsTheLastAction` | agents/nodes/deterministic_nodes.py:260-335 | The verification a finished run reports is that of the last thing it did: what the provider answered to a fetch, with the amount of a success only, a retry without a transaction, a checkout message that waits for the webhook, or a message sent. |
| `AgentTheorems.SimulatorRecoversTheCaseAmount` | backend/app/providers/simulator_provider.py:41-52 | With the simulator the recovered amount is the amount of the case, and the transaction id has 16 characters. |
| `AgentTheorems.SettledCasesAreLeftAlone` | agents/nodes/deterministic_nodes.py:34-42 | A run on a recovered or already paid case has no effect and visits two nodes; on a recovered case it reports an escalation reason. |
| `MessageLimit.MessagesTakeVisits` | agents/graph/recovery_graph.py:124-136 | A finished run of m messages has at most max_replans + 1 of them and at least 6 * m + 6 visits, or 6 * m + 4 when they use up all rounds. |
| `MessageLimit.LimitedFrom` | agents/graph/recovery_graph.py:172-179 | Under a limit on the steps of the graph a run that does not raise has at most that many visits. |
| `MessageLimit.OnlyMethodUpdatesRunsLong` | agents/nodes/deterministic_nodes.py:228-236 | If only payment-method updates are proposed and approvable, every round sends a message and the visit bound is reached, exactly when the step limit allows that many visits. |
| `MessageLimit.MessageLimitUnderStepLimitIff` | policies/engine/policy_engine.py:129-140 | Under any step limit, `max_messages_per_case` bounds communication_count for every behaviour of the language model iff method updates are not approvable, or the rounds, or the steps, do not suffice to pass it. |
| `MessageLimit.MessageLimitHoldsIff` | policies/engine/policy_engine.py:129-140 | Without a step limit it does so iff method updates are not approvable or one message a round stays within it. |
| `IdempotencyKeys.KeysAreNumbered` | agents/nodes/deterministic_nodes.py:164-166 | The keys of the retries of gated effects are numbered from r0 + 1 on, each with the strategy proposed for it. |
| `IdempotencyKeys.RetriesNeedApproval` | policies/engine/policy_engine.py:119-126 | A run makes a retry only if the policy approves one on the initial counters with full confidence. |
| `RetrySpacing.RetriesAreBounded` | agents/graph/recovery_graph.py:68-85 | A run makes at most as many retries as the policy leaves and the rounds allow, and none if the policy approves none. |
| `RetrySpacing.FailedRetriesReachTheBound` | agents/nodes/deterministic_nodes.py:164-208 | Retries that fail one after the other reach that bound, also in a run that raises right after the last of them. |
| `RetrySpacing.RetryBoundIsExact` | policies/engine/policy_engine.py:165-178 | For every number: no run makes more retries, whatever is proposed and answered, iff that bound does not exceed it. |
| `RetrySpacing.RetriesAreSpacedIff` | policies/engine/policy_engine.py:165-178 | No run makes a second retry, which nothing keeps apart from the first, iff no retry is approvable, at most one is left, or there is no replan. |
| `ExecutionTheorems.SettingsWithoutEffect` | backend/app/services/recovery_service.py:282-294 | The settings on opt-out, suspension, earlier payments, retry interval, checkout amount and checkout messages change no execution: runs and stores are the same under any values of them. |
| `ExecutionTheorems.NoCheckoutMessages` | policies/engine/policy_engine.py:142-149 | No execution sends a checkout recovery message, for the checkout timeout is never reported as elapsed. |
| `ExecutionTheorems.RunsActIff` | policies/engine/policy_engine.py:98-117 | Some behaviour of the language model makes a run act iff no bar holds and the case is neither recovered nor paid: the bars are the only ones. |
| `ExecutionTheorems.ExecutionsActIff` | backend/app/services/recovery_service.py:282-294 | An execution can act iff its case is unrecovered, of a positive amount within the limit, and not of an unknown reason that the policy escalates; opt-out, suspension and earlier payments do not bar it. |
| `ExecutionTheorems.ExecutionRetryBound` | agents/schemas/agent_schemas.py:227-227 | An execution can make one retry in each of four rounds, if the policy leaves so many. |
| `ExecutionTheorems.DefaultRunRetriesThrice` | backend/app/services/recovery_service.py:282-294 | With the default policy and any retry interval, the first run of a fresh approvable case can make all three retries one right after the other. |
| `AgentTheorems.ChargedRetryRecovers` | agents/nodes/deterministic_nodes.py:164-208 | A first retry that the simulator charges recovers the case. |
| `SimulatorProvider.SimulatorPaymentProvider.constructor` | backend/app/providers/simulator_provider.py:32-35 | No payment is known at the start. |
| `SimulatorProvider.SimulatorPaymentProvider.RetryPayment` | backend/app/providers/simulator_provider.py:82-128 | Stores under the new transaction id exactly the result it returns, keeping all others, as the run model assumes. |
| `SimulatorProvider.SimulatorPaymentProvider.ScheduleRetry` | backend/app/providers/simulator_provider.py:130-152 | A scheduled retry is a retry at once. |
| `SimulatorProvider.SimulatorPaymentProvider.FetchPayment` | backend/app/providers/simulator_provider.py:41-52 | Returns the stored result, or PENDING with amount 0 for an unknown id, and changes nothing. |
| `SimulatorProvider.UnknownPaymentIsPending` | backend/app/providers/simulator_provider.py:41-52 | A payment that was never retried is pending with amount 0. |
| `SimulatorProvider.FetchReturnsWhatTheRetryStored` | backend/app/providers/simulator_provider.py:118-128 | Read your writes: after a retry its id fetches what it returned and every other id what it did before. |
| `RecoveryProtocol.RowRewritten` | backend/app/services/recovery_service.py:349-359 | Any rewriting of one case row that leaves recorded money, payment and order alone keeps the invariant of the store. |
| `RecoveryProtocol.Recredited` | backend/app/api/v1/endpoints/razorpay_checkout.py:110-145 | A confirmed credit keeps the invariant: case total and ledger total grow by the same amount, payments and orders stay unique. |
| `RecoveryProtocol.ReconcileKeepsInv` | backend/app/api/v1/endpoints/razorpay_checkout.py:64-151 | Reconciliation keeps the invariant whatever the provider answers. |
| `RecoveryProtocol.OpenKeepsInv` | backend/app/api/v1/endpoints/events.py:42-54 | Opening a case keeps the invariant; event keys stay unique. |
| `RecoveryProtocol.OrderKeepsInv` | backend/app/api/v1/endpoints/razorpay_checkout.py:155-220 | Creating an order keeps the invariant; order ids stay unique. |
| `RecoveryProtocol.VerifyKeepsInv` | backend/app/api/v1/endpoints/razorpay_checkout.py:224-279 | The checkout callback keeps the invariant on every path, the committed rejection included. |
| `RecoveryProtocol.WebhookKeepsInv` | backend/app/api/v1/endpoints/webhooks.py:25-101 | A webhook delivery keeps the invariant on every path. |
| `RecoveryProtocol.AgentRow` | backend/app/services/recovery_service.py:282-294 | Whatever a run started from a case row does, the row it leaves keeps the money, payment and order of a settled case and never un-recovers it; a finished run leaves it stopped. |
| `RecoveryProtocol.ExecuteKeepsInv` | backend/app/services/recovery_service.py:249-337 | Executing a run keeps the invariant: applied, rolled back, or marked ERROR after a failed audit. |
| `RecoveryProtocol.EscalationKeepsInv` | backend/app/services/recovery_service.py:405-419 | Escalation by an operator keeps the invariant on recovered cases too. |
| `RecoveryProtocol.HistoryKeepsInv` | backend/app/api/v1/endpoints/razorpay_checkout.py:64-279 | Every history of cases, orders, callbacks, webhooks, agent runs and escalations keeps the invariant. |
| `ProtocolTheorems.StepGrows` | backend/app/services/recovery_service.py:249-268 | No step takes back a recovery, an amount, a payment, an order id, a receipt, a stop, a ledger entry or the status of an ended run. |
| `ProtocolTheorems.RecoveryIsPermanent` | backend/app/api/v1/endpoints/razorpay_checkout.py:110-116 | In every reachable state a recovered case is stopped, an unrecovered one has recovered nothing, a provider payment means the full amount at risk, and all of it stays so for ever. |
| `ProtocolTheorems.CompletedRunStopsItsCase` | backend/app/services/recovery_service.py:349-359 | In every reachable state the case of a completed run is stopped. |
| `ProtocolTheorems.NoRunAfterCompletion` | backend/app/services/recovery_service.py:224-229 | Once a run of a case has completed, no other run ever starts on it. |
| `ProtocolTheorems.EveryCreditWasCaptured` | backend/app/api/v1/endpoints/razorpay_checkout.py:96-109 | Every credit in the ledger was shown to the backend as captured, for that order, in that amount and in the currency of its case, by a signed callback or a signed, well-formed webhook, which the credit names. |
| `ProtocolTheorems.MoneyIsConserved` | backend/app/api/v1/endpoints/razorpay_checkout.py:110-144 | The money recovered through provider payments equals the sum of the credits in the ledger; credits are for pairwise different payments and cases, each captured for the amount at risk in the currency of the case, one for each case with a payment. |
| `ProtocolTheorems.SimulatorHistoriesAreFull` | backend/app/services/recovery_service.py:365-368 | With the simulator behind all runs, a recovered case has recovered exactly its amount at risk. |
| `ProtocolTheorems.RevenueEventIffProviderPayment` | backend/app/services/recovery_service.py:369-377 | With the simulator behind all runs, a case has its one REVENUE_RECOVERED event iff a provider payment is recorded for it: simulated recoveries have none. |
| `ProtocolTheorems.SimulatedRecoveryNeverCompletes` | backend/app/services/audit_service.py:46-51 | A simulated recovery never completes its run, for its transaction id is no uuid: on the final attempt the run ends in ERROR with the recovered case committed and no revenue event, on any other everything is rolled back. |
| `ProtocolTheorems.ChargedAttemptEndsInError` | backend/app/services/recovery_service.py:317-337 | One charged retry under any approvable case drives a final attempt into that state. |
| `ProtocolTheorems.RecoveredWithoutRevenueEvent` | backend/app/services/recovery_service.py:366-377 | For every policy and event whose case may be retried, a three-step history reaches a recovered case without a revenue event. |
| `ProtocolTheorems.DefaultPolicyDecides` | policies/defaults/merchant_default_v1.json:4-30 | What the default policy approves, with its limits written out. |
| `ProtocolTheorems.DefaultPolicyApproves` | policies/defaults/merchant_default_v1.json:4-30 | The default policy approves the first retry of a fresh case iff its reason is known and its amount positive and at most 5000000 paise. |
| `EndpointTheorems.ReconcileSettlesIff` | backend/app/api/v1/endpoints/razorpay_checkout.py:64-151 | Reconciliation settles a case iff it is unrecovered, the fetched payment is captured, for its order, amount and currency, and no other case holds it; otherwise the store is unchanged. Each answer is given under an exact condition. |
| `EndpointTheorems.CallbackSettlesIff` | backend/app/api/v1/endpoints/razorpay_checkout.py:224-279 | A callback settles a case iff it is configured, complete, signed, for its order and no other case, and its payment settles; otherwise no case, run or receipt changes and nothing is credited. |
| `EndpointTheorems.CallbackAnswers` | backend/app/api/v1/endpoints/razorpay_checkout.py:224-279 | The exact condition of each answer to a callback for the order of a case. |
| `EndpointTheorems.RejectionIsRecordedIff` | backend/app/api/v1/endpoints/razorpay_checkout.py:246-259 | A rejected callback is put on record iff it is complete, for the order of a case and no other, and wrongly signed; every other refusal leaves the store as it was. |
| `EndpointTheorems.CallbackOfNoCase` | backend/app/api/v1/endpoints/razorpay_checkout.py:233-240 | A callback for the order of no case changes nothing and is answered 422, 503 or 404. |
| `EndpointTheorems.DeliveryKeepsTheStoreIff` | backend/app/api/v1/endpoints/webhooks.py:36-101 | An accepted delivery is genuine and new and stores exactly its event id; a refused one or a duplicate leaves the whole store as it was. |
| `EndpointTheorems.DeliverySettlesIff` | backend/app/api/v1/endpoints/webhooks.py:66-101 | A delivery settles a case iff it announces a payment that does; otherwise no case, run or event changes. A fresh genuine one is refused iff the provider answers about another payment or another case holds it. |
| `EndpointTheorems.DeliveryOfNoCase` | backend/app/api/v1/endpoints/webhooks.py:72-80 | A genuine delivery for the order of no case is only put on file. |
| `EndpointTheorems.ForgedDeliveriesChangeNothing` | backend/app/api/v1/endpoints/webhooks.py:36-58 | Any number of deliveries that are not genuine leave the store as it was, so a genuine one after them does what it does without them. |
| `EndpointTheorems.RefusedDeliveriesChangeNothing` | backend/app/api/v1/endpoints/webhooks.py:82-89 | Any number of deliveries refused by an error leave the store as it was. |
| `EndpointTheorems.OrderIsStoredIff` | backend/app/api/v1/endpoints/razorpay_checkout.py:155-220 | An order is stored iff the case is open and without one and the provider offers one that no other case has; an order stored before is answered with the terms of the case; otherwise the store is unchanged and the answer an error. |
| `EndpointTheorems.OrderRefusals` | backend/app/api/v1/endpoints/razorpay_checkout.py:163-200 | The exact conditions of 503, 404, 409 and 502. |
| `EndpointTheorems.OpenedCaseIsFresh` | backend/app/api/v1/endpoints/events.py:42-54 | A new case has the data of its event and nothing else, and one CASE_CREATED event; a known key adds nothing. |
| `EndpointTheorems.StartedRunBelongsToItsCase` | backend/app/services/recovery_service.py:217-247 | A run starts iff its case exists and is neither recovered nor stopped; it belongs to that case, is running and has visited nothing. |
| `EndpointTheorems.EscalatedCaseIsClosed` | backend/app/services/recovery_service.py:405-419 | An escalated case is stopped for ever: at any later time no run starts on it and no order is created for it; its money is not touched. |
| `AppliedRuns.ExecutionLeaves` | backend/app/services/recovery_service.py:339-402 | A finished run that is not rolled back leaves in the row of its case, told by its effects: the retries and messages added to the counters, the recovery and its amount, the status, the strategy and decision of the last check, the reason of an escalation and nothing else; with its trace and the events of its end. |
| `AppliedRuns.RaisedExecutionLeaves` | backend/app/services/recovery_service.py:317-337 | An attempt whose run raised leaves every case alone; a final one marks the run ERROR and records its end. |
| `AppliedRuns.LastProposalStays` | backend/app/services/recovery_service.py:357-359 | The strategy on the row is the one proposed in the last round of the run. |
| `AppliedRuns.RecoveredCaseIsMarkedEscalated` | agents/nodes/deterministic_nodes.py:34-42 | A case recovered after its run had started is left recovered, with the status ESCALATED. |
| `AppliedRuns.CountersAreAppliedEffects` | backend/app/services/recovery_service.py:350-351 | Over every history retry_count is the number of provider retries, and communication_count the number of messages, of the executions whose result was applied; those of rolled-back attempts are not in them. |
| `Letters.UpperMeansSameLetters` | backend/app/api/v1/endpoints/razorpay_checkout.py:101-102 | Two strings are equal in upper case iff they have the same letters in whichever case. |
| `Uuid.HyphensDoNotCount` | backend/app/services/audit_service.py:51-51 | Hyphens in a bare text do not count; without them it is a uuid iff it is 32 characters that the conversion accepts. |
| `Uuid.WrittenForms` | backend/app/services/audit_service.py:51-51 | A bare text, the text in braces and its urn form are all read as uuids or none is, whatever the conversion accepts. |
| `LedgerTheorems.ExecutionLogsIff` | backend/app/services/audit_service.py:46-51 | For every provider, an execution adds a revenue event iff it recovers its unrecovered case and the transaction id is empty or parses as a uuid. |
| `LedgerTheorems.ExecutionRecoversIff` | backend/app/services/recovery_service.py:349-368 | An execution recovers a case exactly then or when it was recovered before, and leaves its payment alone. |
| `LedgerTheorems.RecoveryIsShownIff` | backend/app/services/recovery_service.py:366-377 | In every reachable state a case is recovered by exactly one of a payment and an execution, and the ledger shows it, once, iff it was a payment or the transaction id of the execution is empty or a uuid. |
| `ReplayTheorems.PaymentsFollowTheirOrders` | backend/app/api/v1/endpoints/razorpay_checkout.py:96-98 | If the provider files each payment under one order, every recorded payment belongs to the order of its case. |
| `ReplayTheorems.ConfirmedPaymentIsNeverTaken` | backend/app/api/v1/endpoints/razorpay_checkout.py:110-110 | Hence the unique payment column never refuses a credit the provider confirms. |
| `ReplayTheorems.RedeliveryChangesNothing` | backend/app/api/v1/endpoints/webhooks.py:60-65 | Once a delivery was accepted, its event id changes nothing at any later time, whatever it carries and whatever the provider then answers. |
| `ReplayTheorems.DeliveryIsLostIffUndecided` | backend/app/api/v1/endpoints/webhooks.py:60-101 | A fresh delivery is used up without a credit iff the provider cannot be asked or does not yet call the payment captured; a delivery refused by an error stays deliverable. |
| `ReplayTheorems.CallbackOnRecoveredCaseChangesNothing` | backend/app/api/v1/endpoints/razorpay_checkout.py:261-271 | A signed callback on a recovered case changes nothing, then or later, and is answered already_verified or 400 by the payment it names. |
| `ReplayTheorems.RecoveredKeepsPayment` | backend/app/api/v1/endpoints/razorpay_checkout.py:74-80 | The payment of a recovered case, or its absence, is final. |
| `ReplayTheorems.NoticesConverge` | backend/app/api/v1/endpoints/razorpay_checkout.py:74-80 | Callbacks and webhooks for one captured payment, in any order and number, credit the case once, iff one of them is fresh, and add one pair of ledger events. |
| `ReplayTheorems.NoticeOrderDoesNotMatter` | backend/app/api/v1/endpoints/webhooks.py:72-89 | Two such sequences leave the same cases, runs, ledger length, revenue events and recovered total. |
| `ReplayTheorems.RepeatedEventChangesNothing` | backend/app/api/v1/endpoints/events.py:40-51 | The idempotency key of an event names its case for ever: repeated at any later time, with any content, it changes nothing and returns that case. |
| `TaskTheorems.ExecutionAccounting` | backend/app/services/recovery_service.py:262-268 | An ended run is returned untouched; an attempt that raised inside the graph changes no case; an applied result advances retry_count by exactly the retries of that attempt and touches no other case. |
| `TaskTheorems.TaskIsOneAttempt` | backend/app/tasks.py:15-47 | A task ends its run within three attempts and leaves what one attempt on the initial state leaves: the first that does not raise, or the final one. |
| `TaskTheorems.EarlierAttemptsReraise` | backend/app/tasks.py:40-47 | Every attempt before that one raised and left the store as it was. |
| `TaskTheorems.TaskRetriesAreBounded` | backend/app/tasks.py:15-15 | A whole task calls the provider for at most 3 * max(0, max_retries - r0) retries, those of rolled-back attempts included. |
| `TaskTheorems.TaskRetryBoundIsExact` | backend/app/tasks.py:40-47 | For every number: no task makes more retries, whatever is proposed and answered, iff three times the bound of one run does not exceed it. |
| `TaskTheorems.DefaultTaskRetriesNineTimes` | backend/app/tasks.py:40-47 | With the default policy a single task can make nine retries of a fresh approvable case. |
| `ChargeTheorems.OneChargeARun` | agents/nodes/deterministic_nodes.py:286-330 | A run, one that raises included, fetches each retry at most once, at most one of these fetches says SUCCESS, and none does unless the policy approves a retry. |
| `ChargeTheorems.ChargesAreBounded` | backend/app/tasks.py:15-47 | All attempts of a task together, those rolled back included, see at most three successful fetches. |
| `ChargeTheorems.OneChargeUnlessRolledBack` | backend/app/services/agent_dispatch.py:52-63 | A task sees more than one successful fetch only if an attempt that was rolled back saw one. |
| `ChargeTheorems.ChargeBoundIsExact` | backend/app/tasks.py:40-47 | For every number: no task charges its case more often, whatever is proposed and answered, iff the number is at least three or the policy approves no retry; so one charge at most is certain exactly when none is possible. |
| `ChargeTheorems.SimulatedTaskChargesThrice` | backend/app/services/audit_service.py:46-51 | With the simulator no fault is needed: a task whose every attempt is charged charges three times and leaves one recovery of the amount at risk and a run in ERROR. |
| `TaskTheorems.KeysOfAnAttempt` | agents/nodes/deterministic_nodes.py:164-208 | The k-th retry of an attempt has the key of its case, of the strategy proposed for it and of the number retry_count + k. |
| `TaskTheorems.SharedKeysIff` | agents/nodes/deterministic_nodes.py:166-166 | Two attempts at a run share a key exactly where both make a retry of the same number with the same strategy. |
| `TaskTheorems.RepeatedKeysIff` | backend/app/tasks.py:20-23 | An attempt uses only keys of another one iff its retry strategies are the first ones of the other, position by position. |
| `TaskTheorems.KeyReuseHoldsIff` | backend/app/tasks.py:20-23 | Whatever the language model proposes, a retry repeated after a failed attempt reuses its key iff the policy approves no retry of the case at all. |
| `TaskTheorems.TaskUsesTwoKeys` | backend/app/tasks.py:20-23 | For every running run whose case may be retried, a task that calls the provider three times for the same retry number, under two different keys. |
| `TaskTheorems.DefaultTaskUsesTwoKeys` | backend/app/tasks.py:20-23 | The same on a fresh case with the default policy, with the three keys written out. |
| `RecoveryBackend.Backend.constructor` | backend/app/services/recovery_service.py:211-215 | An empty store. |
| `RecoveryBackend.Backend.OpenFailureCase` | backend/app/api/v1/endpoints/events.py:40-54 | A new, unrecovered case with its score and its CASE_CREATED event, or the existing case of a repeated event key. |
| `RecoveryBackend.Backend.ReconcileCapturedPayment` | backend/app/api/v1/endpoints/razorpay_checkout.py:64-151 | The field-by-field update with its two audit events settles the case in full iff the payment does, and changes nothing otherwise. |
| `RecoveryBackend.Backend.CreateCaseOrder` | backend/app/api/v1/endpoints/razorpay_checkout.py:155-220 | Terminal cases are refused, an order id once set is returned with the terms of the case, a new one is stored, unless it is taken, and returned with those of the provider. |
| `RecoveryBackend.Backend.VerifyCallback` | backend/app/api/v1/endpoints/razorpay_checkout.py:224-279 | Answer and new store are those of the specification on every branch; `CallbackSettlesIff` and `CallbackAnswers` say which they are. |
| `RecoveryBackend.Backend.RazorpayWebhook` | backend/app/api/v1/endpoints/webhooks.py:25-101 | The receipt is stored before side effects and rolled back with them on an error: an accepted delivery is genuine and adds its event id, any other leaves the store as it was. |
| `RecoveryBackend.Backend.StartAgentRun` | backend/app/services/recovery_service.py:217-247 | A RUNNING run for an unresolved case, or nothing. |
| `RecoveryBackend.Backend.CopyFinalState` | backend/app/services/recovery_service.py:343-363 | The unconditional copying of the final state into run and case: both counters, both flags, and strategy and decision where the run has them. |
| `RecoveryBackend.Backend.ApplyAgentResult` | backend/app/services/recovery_service.py:339-402 | Row changes and events of an applied result; tells whether recording the recovery raised. |
| `RecoveryBackend.Backend.ExecuteAgentRun` | backend/app/services/agent_dispatch.py:52-63 | One attempt in its own session is committed, and then leaves the row of its case as the effects of its run say, or leaves the store as it was. |
| `RecoveryBackend.Backend.RunRecoveryAgentTask` | backend/app/tasks.py:16-47 | The retry loop computes the specification of a task and always returns. |
| `RecoveryBackend.Backend.EscalateByOperator` | backend/app/services/recovery_service.py:405-419 | Escalates and stops any existing case, a recovered one too. |
| `EventHistory.LatestPriorIsGreatest` | pipeline/pandas_preprocessor.py:9-14 | The time of the immediately prior event is the greatest time of any prior event. |
| `EventHistory.OnePriorEventMore` | pipeline/pandas_preprocessor.py:9-20 | What one more event adds to each feature: field by field if it is prior to e, as written out, and nothing otherwise; without events there is no history. |
| `EventHistory.HistoryPermuted` | pipeline/pandas_preprocessor.py:131-131 | The features of an event do not depend on the order of the data. |
| `EventHistory.FutureAndLabelsDoNotLeak` | pipeline/pandas_preprocessor.py:7-20 | Two datasets that agree on the events prior to e, outcomes aside, give e the same features, whatever else they hold and however e itself is labelled. |
| `EventHistory.OtherEventsAreInvisible` | pipeline/pandas_preprocessor.py:9-20 | An event that is not prior to e can be put in, taken out or replaced anywhere without changing the features of e. |
| `PandasHistory.SortedRowsInSequence` | pipeline/pandas_preprocessor.py:131-131 | With distinct ids the sorted frame lists every customer strictly by (time, id). |
| `PandasHistory.GroupCumSum` | pipeline/pandas_preprocessor.py:139-145 | The running group totals, each row included. |
| `PandasHistory.GroupCumCount` | pipeline/pandas_preprocessor.py:151-153 | The running counts by customer and reason, each row excluded. |
| `PandasHistory.GroupShift` | pipeline/pandas_preprocessor.py:135-138 | The time of the customer's row above, if any. |
| `PandasHistory.RowsAboveArePrior` | pipeline/pandas_preprocessor.py:132-145 | In sequence order the rows above an event are its prior events: running total minus self is the prior total, the shifted time the latest prior one. |
| `PandasHistory.EventTypeColumns` | pipeline/pandas_preprocessor.py:146-150 | The loop makes, for each event type, the column of prior events of that type. |
| `PandasHistory.FeatureRows` | pipeline/pandas_preprocessor.py:128-153 | On sorted rows the columns are the specified features of every row. |
| `PandasHistory.AddHistoryFeatures` | pipeline/pandas_preprocessor.py:128-162 | For any input order the rows are a permutation of the data, each with exactly the specified features of its event, and the closing assertions never raise. |
| `SparkHistory.PartitionKeepsPriors` | pipeline/spark_pipeline.py:227-229 | Partitioning by customer loses nothing of the prior events. |
| `SparkHistory.WindowPriors` | pipeline/spark_pipeline.py:228-229 | The frame strictly above an event in its ordered window holds exactly its prior events. |
| `SparkHistory.CustomerWindow` | pipeline/spark_pipeline.py:236-253 | Row number, sums and lag over the window are the prior count, the prior sums and the latest prior time. |
| `SparkHistory.ReasonWindow` | pipeline/spark_pipeline.py:230-257 | The count over the customer-and-reason window is the number of prior events with that reason. |
| `SparkHistory.SparkComputesTheHistory` | pipeline/spark_pipeline.py:227-258 | For every dataset with distinct ids the window columns are the specified features. |
| `SparkHistory.EnginesAgree` | pipeline/pandas_preprocessor.py:4-5 | Parity: each row of the reference frame carries the features the windows give its event. |
| `ChronoSplit.KthSmallestByCounting` | pipeline/splits.py:36-42 | Element k of the sorted times has at most k times below it and more than k up to it. |
| `ChronoSplit.GroupsCount` | pipeline/spark_pipeline.py:205-207 | The grouped cumulative count at a time is the number of events up to it, and the groups are the times that occur. |
| `ChronoSplit.GroupedCutoffIsKthSmallest` | pipeline/spark_pipeline.py:209-213 | For every rank the smallest time whose cumulative count reaches k + 1 is element k of the sorted times. |
| `ChronoSplit.ExactCutoffs` | pipeline/spark_pipeline.py:199-214 | The Spark cut-offs are the reference cut-offs, fail on the empty column only, and stand at floor(0.70 N) and floor(0.85 N): no more times below and more up to them. |
| `ChronoSplit.SplitSizes` | pipeline/splits.py:45-49 | The split sizes are counts of times below the cut-offs and add up to the data. |
| `ChronoSplit.SplitGuarantee` | pipeline/splits.py:6-15 | For any ranks k70 <= k85 < N: at most k70 training events, at most k85 with validation, and a test split of at least N - k85. |
| `ChronoSplit.CutoffsHoldFractions` | pipeline/splits.py:36-42 | At most floor(0.70 N) times are below the first cut-off and more than that up to it; the second stands at floor(0.85 N). |
| `ChronoSplit.SplitFractions` | pipeline/splits.py:6-15 | Training takes at most floor(0.70 N) events and training with validation at most floor(0.85 N); with pairwise distinct times exactly that many. |
| `ChronoSplit.SplitsFollowInTime` | pipeline/splits.py:6-15 | Training is strictly before validation, both strictly before test, and equal times share a split. |
| `LeakageAudit.AuditFeaturesAndSplits` | pipeline/leakage_audit.py:57-130 | A kind of violation is reported iff some name, row or pair of rows shows it; the report is empty iff there is none. |
| `LeakageAudit.ForbiddenInAnyCase` | pipeline/leakage_audit.py:48-70 | The audit forbids the five names that tell the outcome, in whatever letter case. |
| `LeakageAudit.CleanAuditOrdersTrainAndTest` | pipeline/leakage_audit.py:93-107 | A clean audit orders training before test, provided there is a validation row. |
| `LeakageAudit.AuditIsBlindWithoutValidation` | pipeline/leakage_audit.py:93-107 | Without validation rows the audit compares no times at all. |
| `LeakageAudit.AuditAcceptsTrainTestOverlap` | pipeline/leakage_audit.py:93-107 | A two-row frame whose test event precedes its training event passes the audit under any allowed names. |
| `LeakageAudit.AuditOrdersTrainAndTestIff` | pipeline/leakage_audit.py:93-107 | Every clean frame with rows in just the given splits has training before test iff one of them is validation, or training or test is not among them. |
| `LeakageAudit.OwnOutputIsClean` | pipeline/pandas_preprocessor.py:179-188 | The audit never fires on features and splits the preprocessor computed itself. |
| `LeakageAudit.Transform` | pipeline/pandas_preprocessor.py:172-188 | On distinct event ids the gated pipeline fails only on an empty dataset; otherwise all rows come out with the specified features, in splits by two cut-offs at floor(0.70 N) and floor(0.85 N), strictly ordered in time, never larger than these fractions and exactly as large when no two times are equal. |
| `Calibration.BinHoldsProbability` | evaluation/metrics.py:319-320 | Every probability lies inside the edges of its bin; the last bin includes 1. |
| `Calibration.EdgesAreEven` | evaluation/metrics.py:319-320 | The edges cut the unit interval into equal parts. |
| `Calibration.CalibrationBins` | evaluation/metrics.py:321-340 | One row a bin, in order: edges, number and weight of its samples, and, if it has any, their weighted mean prediction, observed rate and the gap between these. |
| `Calibration.BinsPartitionSums` | evaluation/metrics.py:322-324 | Summing any term bin by bin is summing it over all rows. |
| `Calibration.BinContribution` | evaluation/metrics.py:336-338 | Weight times gap of a bin is the absolute value of its summed signed error; empty bins contribute nothing. |
| `Calibration.SumsMean` | evaluation/metrics.py:246-261 | The observed sum is the weight of the positives, the signed sum the excess of the predictions over it, the absolute sum adds up 1 - p of the positives and p of the negatives. |
| `Calibration.ExpectedErrorAddsUpBins` | evaluation/metrics.py:355-358 | ECE times the total weight is the sum of the rectified signed errors of the bins. |
| `Calibration.MaximumErrorIsGreatestGap` | evaluation/metrics.py:359-359 | MCE is the greatest gap of a bin, and undefined iff no bin has one. |
| `Calibration.CalibrationChain` | evaluation/metrics.py:343-360 | abs(mean_error) <= ECE <= MAE and ECE <= MCE, for every valid input and number of bins. |
| `WeightedMedian.MedianHalves` | evaluation/metrics.py:235-240 | At most half of the weight lies strictly below the result and at most half strictly above it. |
| `WeightedMedian.EqualWeightsGiveTheMidpoint` | evaluation/metrics.py:236-237 | With equal weights the result is half way between the two middle values. |
| `WeightedMedian.UnequalWeightsGiveTheLeast` | evaluation/metrics.py:238-240 | With unequal weights it is the least value of the sample up to which lies half of the weight. |
| `WeightedMedian.MedianMinimisesDeviation` | evaluation/metrics.py:235-240 | No other value has a smaller weighted sum of absolute deviations. |
| `Classification.MccIdentity` | evaluation/metrics.py:397-401 | Where mcc is defined its square is informedness times markedness and at most 1. |
| `Classification.AgreementGap` | evaluation/metrics.py:402-403 | p_o - p_e is twice the cross product over n squared. |
| `Classification.KappaHasTheSignOfMcc` | evaluation/metrics.py:402-407 | Where kappa is defined it has the sign of TP*TN - FP*FN, hence of mcc. |
| `Classification.KappaIsChanceCorrected` | evaluation/metrics.py:402-407 | Kappa is the agreement beyond chance as a share of what is possible beyond chance, and 1 where nothing is misclassified. |
| `Classification.RatesAreShares` | evaluation/metrics.py:384-408 | Each rate is the share its name says, of the predicted or actual class or of all samples, and undefined iff that is empty. |
| `Classification.F1IsHarmonicMean` | evaluation/metrics.py:385-391 | F1 is the harmonic mean of precision and recall, 0 without a true positive, undefined iff there is neither a positive nor a predicted one. |
| `Classification.F1IsBetween` | evaluation/metrics.py:385-391 | F1 lies between precision and recall. |
| `Classification.BalancedAccuracyIsYouden` | evaluation/metrics.py:392-396 | Balanced accuracy is defined iff both classes occur, and is (TPR - FPR + 1) / 2. |
| `Classification.SignedSquareOrdersMcc` | evaluation/metrics.py:397-401 | The signed square by which the model ranks confusion matrices orders them as mcc does, ties included. |
| `Thresholds.CountsValid` | evaluation/protocol.py:41-48 | The four cells add up to the class sizes and to the data at every threshold. |
| `Thresholds.RaisingTheThreshold` | evaluation/protocol.py:41-48 | Raising the threshold never raises TP or FP, so recall, false positive rate and coverage never rise. |
| `Thresholds.ThresholdTable` | evaluation/protocol.py:51-62 | One row a threshold, in order, from a single confusion matrix. |
| `Thresholds.MaximumIsLowestBest` | evaluation/protocol.py:110-122 | The selection fails iff its metric is undefined everywhere, and otherwise returns the lowest threshold of the greatest value. |
| `Thresholds.YoudenIsOptimal` | evaluation/protocol.py:116-118 | `youden` fails iff a class or every candidate is missing, and otherwise returns the lowest threshold that maximises TPR - FPR. |
| `Thresholds.MaxMccIsOptimal` | evaluation/protocol.py:121-122 | `max_mcc` fails iff mcc is undefined everywhere, and otherwise returns the lowest threshold that maximises mcc itself. |
| `Thresholds.MinPrecisionIsSound` | evaluation/protocol.py:123-142 | `min_precision` is feasible iff some candidate meets both targets, and then returns the lowest; otherwise the lowest of the most precise with the coverage, or the last candidate. |
| `Thresholds.HighestPrecisionIsHighest` | evaluation/protocol.py:101-104 | The documented fallback: the lowest threshold of the highest precision over all candidates that have one. |
| `Thresholds.MinPrecisionKeepsPromiseIff` | evaluation/protocol.py:101-104 | When no candidate meets both targets, the documented fallback is returned iff its row has the coverage, or no candidate with a precision has it and that threshold is the last. |
| `Thresholds.MinPrecisionBreaksPromise` | evaluation/protocol.py:134-135 | On two samples the threshold of precision 1 and half the coverage is passed over for one of precision one half. |
| `Thresholds.LastResortBreaksPromise` | evaluation/protocol.py:134-135 | On the same samples, with no covered candidate, the last threshold is chosen although it predicts nothing. |
| `ReasoningCleaner.NoTagIsLeft` | agents/nodes/llm_provider.py:68-74 | After the three tag steps no opening and no closing tag is left, even where removing a block joins the halves of one. |
| `ReasoningCleaner.FencedObjectHoldsNoFence` | agents/nodes/llm_provider.py:79-81 | The shortest fenced object holds no fenced object itself. |
| `ReasoningCleaner.PayloadShape` | agents/nodes/llm_provider.py:78-89 | The payload of stripped text holds no fence; it is braced if the text has an opening brace before a closing one, and otherwise the text itself. |
| `ReasoningCleaner.SpaceCodes` | agents/nodes/llm_provider.py:78-83 | The white space that is stripped and skipped, by code. |
| `ReasoningCleaner.CleanIsIdempotent` | agents/nodes/llm_provider.py:59-89 | Cleaning twice is cleaning once, for every string. |
| `ReasoningCleaner.FixedIffCanonical` | agents/nodes/llm_provider.py:59-89 | The replies left as they are, which are the possible results, are exactly those without tags, outer white space and fenced object that are braced if they have a brace pair. |
| `ReasoningCleaner.CleanFindsTheObject` | agents/nodes/llm_provider.py:83-89 | The result has no tags, is a contiguous part of the tag-free text, and is a braced object iff that text has an opening brace before a closing one. |
| `ReasoningCleaner.ReasoningIsDropped` | agents/nodes/llm_provider.py:67-72 | Reasoning in front of an answer changes nothing, and reasoning that is cut off leaves nothing. |
| `ReasoningCleaner.BlockIsCutOut` | agents/nodes/llm_provider.py:67-68 | A block of reasoning is cut out of the text around it, and nothing else is. |
| `ReasoningCleaner.ReasoningInTheMiddle` | agents/nodes/llm_provider.py:67-72 | Reasoning in the middle of an answer is as good as not there. |
| `ReasoningCleaner.UnclosedReasoningIsDropped` | agents/nodes/llm_provider.py:69-72 | Reasoning that is cut off is dropped and the text in front of it stays. |
| `ReasoningCleaner.UnopenedReasoningIsDropped` | agents/nodes/llm_provider.py:73-74 | Reasoning whose opening tag is missing is dropped too. |
| `ReasoningCleaner.ProseAnswer` | agents/nodes/llm_provider.py:83-87 | From an answer in prose the object is recovered unchanged, whatever the reasoning. |
| `ReasoningCleaner.FencedAnswer` | agents/nodes/llm_provider.py:78-81 | From a fenced answer the first fenced object is recovered unchanged, whatever the reasoning and whatever follows. |

## Left out

- Floating point: amounts of arithmetic are exact reals, so the int16 casts of the features and the rounding of 0.70 * n in the split ranks are not modelled; `SplitGuarantee` holds for any ranks, `GroupedCutoffIsKthSmallest` for every rank.
- SimulatorRecoversTheCaseAmount: speaks of the simulator only; another provider may report any amount.
- CalibrationChain: requires a positive weight in every occupied bin, where the source would otherwise divide by zero.
- MccIdentity: takes the square root of the margins as a parameter, as `MaxMccIsOptimal` takes the square root function.
- SparkComputesTheHistory: timestamps are whole seconds, as Spark casts them.
- NoticesConverge: the provider gives the same answer to every notice; `DeliveryIsLostIffUndecided` covers a changing answer.
- ConfirmedPaymentIsNeverTaken: assumes that the provider files each payment under one order; without it the unique column answers 500 and the invariant still holds.
- MoneyIsConserved: covers credits of the reconcile path; recoveries by agent runs are covered by `SimulatorHistoriesAreFull` and `RecoveryIsShownIff`.
- ExecutionLogsIff: what Python's `int(_, 16)` accepts among 32 characters is a parameter of every attempt, so the claims hold for any such test.
- KeysAreNumbered: the Razorpay provider sends the first 40 characters of a key as its receipt (backend/app/providers/razorpay_test_provider.py:168-172), which cuts off the retry number after a case id of 36 characters; receipts are not modelled.
- CheckedKeeps: says nothing about the diagnosis; `EffectsFollowTheAnswers` ties its confidence and the proposed strategy to every decision.
- UpperMeansSameLetters: other letters than A to Z have one case in this model.
- RetriesAreSpacedIff: there is no clock in the model, so retries of different runs of a case are not compared in time; the 60 seconds between the attempts of a task are left out for the same reason.
- RunsAreShortPaths: the value of LangGraph's step limit is not part of this model; it is a parameter of `MessageLimitUnderStepLimitIff` and `OnlyMethodUpdatesRunsLong`, whose longest run has 28 visits for the three replans of `make_initial_state`. Checkpoints of runs are left out.
- TaskIsOneAttempt: assumes that no flush, commit or rollback of the session fails, as do all steps of the protocol.
- MinPrecisionKeepsPromiseIff: where no candidate has a precision there is no highest one, and the documentation promises nothing.
- KeyReuseHoldsIff: what the payment provider does with a repeated key is not part of this model.
- FirstFiringRuleDecides: the fail-closed ESCALATE on an exception inside the engine is left out, since the modelled pipeline cannot raise.
- The language model, LightGBM, prompts and the fallback diagnosis and strategy: any strategy and confidence at each visit covers them.
- HMAC signatures, JSON parsing and configuration checks: booleans of the request.
- Interleavings inside one request or one run execution: each is one atomic step; requests lock the case row, `execute_agent_run` does not. Concurrent attempts of one run are left out for the same reason.
- A case row missing behind a run, malformed case ids and unknown threshold methods: the model's values exclude them.
- OpenFailureCase: the recovery score is a parameter, and the customer behind the event is left out.
- AddHistoryFeatures: event ids are distinct, which the validation of the raw data demands.
- Customer data, diagnosis JSON, payload and processed flag of receipts, provider timestamps, currencies and actors of audit events: copied through without a decision.
- Identifiers of events and customers are integers: only equality and the order of event ids matter.
- Strings are sequences of Unicode scalar values: lone surrogates in a reply are left out.
- Validation and cleaning of the raw data, calendar features, the supplied split and the manifest: they look at one row or value at a time and add nothing to the claims about histories and splits.
- ROC AUC, PR AUC, log loss, bootstrap intervals and calibrators: computed by numpy, scikit-learn or a random generator, whose code is not part of the repository. Brier score, R2 and MAPE are single quotients of sums.
- The scoring services, simulation batches, metrics service, demo seeds, authentication and front end: they neither move recovered money nor decide about retries.
