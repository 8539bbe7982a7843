/** The durable state of the recovery backend and what one committed request or
    task execution does to it, as functions from state to state
    (razorpay_checkout.py, webhooks.py, recovery_service.py, agent_dispatch.py). */
module CaseStore {
  import opened Wrappers
  import opened PolicyEngine
  import opened Letters
  import Agent = AgentGraph
  import Uuid

  datatype CaseStatus =
    | Detected | Diagnosing | StrategyProposed | PolicyChecking | ExecutingAction | Waiting | Verifying
    | Recovered | RetryEligible | Escalated | Stopped | Failed

  datatype Cause = ByAgent(reason: Agent.Reason) | ByOperator(note: string)

  /** `source` is the idempotency key of the event behind the case. */
  datatype Case = Case(
    source: string, score: real, amountAtRisk: int, amountRecovered: int, currency: string,
    reason: FailureReason, status: CaseStatus,
    retryCount: int, communicationCount: int, recovered: bool, stopped: bool, escalation: Option<Cause>,
    strategy: Option<Strategy>, policyDecision: Option<Decision>,
    orderId: Option<string>, paymentId: Option<string>, providerStatus: Option<string>)

  datatype RunStatus = Running | Completed | Error
  datatype AgentRun = AgentRun(caseId: nat, status: RunStatus, trace: seq<Agent.Node>)

  datatype AuditKind =
    | CaseCreated | AgentRunStarted | AgentRunCompleted | PaymentSuccess | RevenueRecovered | CaseEscalated
    | UnauthorizedAttempt
  datatype Source = CheckoutCallback | ProviderWebhook(eventId: string)
  datatype Reference = Reference(orderId: string, paymentId: string, source: Source)
  datatype AuditEvent = AuditEvent(kind: AuditKind, caseId: nat, amount: int, reference: Option<Reference>)

  /** Cases and runs are numbered by their position; `receipts` are the stored event ids. */
  datatype Db = Db(cases: seq<Case>, runs: seq<AgentRun>, receipts: set<string>, ledger: seq<AuditEvent>)

  const EMPTY := Db([], [], {}, [])

  // ----- Reconciliation

  /** `provider.get_payment`: an exception, or what the provider says now. */
  datatype Fetch =
    | Unreachable
    | Fetch(orderId: Option<string>, amount: int, currency: string, status: Agent.PaymentStatus, rawStatus: string)

  datatype VerifyStatus = AlreadyVerified | VerificationFailed | PaymentPending | RecoveredNow
  datatype Response =
    | OrderCreated(orderId: string, amount: int, currency: string)
    | Verification(status: VerifyStatus, caseId: nat, amount: int)
    | Accepted | Duplicate | HttpError(code: nat)

  predicate HasOrder(k: Case, order: string) {
    k.orderId == Some(order)
  }

  /** `select ... where razorpay_order_id == order`; the column is unique. */
  function FindByOrder(cases: seq<Case>, order: string): (r: Option<nat>)
    ensures r.Some? ==> r.value < |cases| && HasOrder(cases[r.value], order)
    ensures r.None? ==> forall i :: 0 <= i < |cases| ==> !HasOrder(cases[i], order)
  {
    if cases == [] then None
    else if HasOrder(cases[|cases| - 1], order) then Some(|cases| - 1)
    else FindByOrder(cases[..|cases| - 1], order)
  }

  predicate OrderTaken(cases: seq<Case>, order: string, c: nat) {
    exists i :: 0 <= i < |cases| && i != c && HasOrder(cases[i], order)
  }

  predicate PaymentTaken(cases: seq<Case>, payment: string, c: nat) {
    exists i :: 0 <= i < |cases| && i != c && cases[i].paymentId == Some(payment)
  }

  function Credited(k: Case, payment: string, fetch: Fetch): Case
    requires fetch.Fetch?
  {
    k.(paymentId := Some(payment), providerStatus := Some(fetch.rawStatus), amountRecovered := fetch.amount,
       status := Recovered, recovered := true, stopped := true)
  }

  function CreditEvents(c: nat, amount: int, reference: Reference): seq<AuditEvent> {
    [AuditEvent(PaymentSuccess, c, amount, Some(reference)), AuditEvent(RevenueRecovered, c, amount, Some(reference))]
  }

  /** The provider confirms that `payment` is captured for this case. */
  predicate Confirms(fetch: Fetch, k: Case, order: string) {
    && fetch.Fetch? && fetch.orderId == Some(order) && fetch.amount == k.amountAtRisk
    && Upper(fetch.currency) == Upper(k.currency) && fetch.status.Success?
  }

  /** `_reconcile_captured_payment`. The unique payment column answers 500. */
  function Reconcile(db: Db, c: nat, payment: string, order: string, source: Source, fetch: Fetch): (Db, Response)
    requires c < |db.cases|
  {
    var k := db.cases[c];
    if k.recovered then (db, Verification(AlreadyVerified, c, k.amountRecovered))
    else if fetch.Unreachable? then (db, Verification(VerificationFailed, c, 0))
    else if fetch.orderId != Some(order) then (db, HttpError(400))
    else if fetch.amount != k.amountAtRisk then (db, HttpError(400))
    else if Upper(fetch.currency) != Upper(k.currency) then (db, HttpError(400))
    else if !fetch.status.Success? then
      (db, Verification(if fetch.status.Pending? then PaymentPending else VerificationFailed, c, 0))
    else if PaymentTaken(db.cases, payment, c) then (db, HttpError(500))
    else
      (db.(cases := db.cases[c := Credited(k, payment, fetch)],
           ledger := db.ledger + CreditEvents(c, fetch.amount, Reference(order, payment, source))),
       Verification(RecoveredNow, c, fetch.amount))
  }

  datatype ProviderOrder = ProviderOrder(id: string, amount: int, currency: string)

  /** `offered` is the order of the provider, `None` if it refuses. */
  function CreateOrder(db: Db, ready: bool, c: nat, offered: Option<ProviderOrder>): (Db, Response) {
    if !ready then (db, HttpError(503))
    else if c >= |db.cases| then (db, HttpError(404))
    else
      var k := db.cases[c];
      if k.status.Recovered? || k.status.Stopped? || k.status.Escalated? || k.recovered || k.stopped then
        (db, HttpError(409))
      else if k.orderId.Some? && k.orderId.value != "" then
        (db, OrderCreated(k.orderId.value, k.amountAtRisk, k.currency))
      else if offered.None? then (db, HttpError(502))
      else if OrderTaken(db.cases, offered.value.id, c) then (db, HttpError(500))
      else
        (db.(cases := db.cases[c := k.(orderId := Some(offered.value.id))]),
         OrderCreated(offered.value.id, offered.value.amount, offered.value.currency))
  }

  datatype CallbackRequest =
    CallbackRequest(order: string, payment: string, signatureValid: bool, claimedCase: Option<nat>)

  /** `verify_payment`. An invalid signature is the one error that still commits. */
  function VerifyPayment(db: Db, ready: bool, q: CallbackRequest, fetch: Fetch): (Db, Response) {
    if q.order == "" || q.payment == "" then (db, HttpError(422))
    else if !ready then (db, HttpError(503))
    else
      match FindByOrder(db.cases, q.order)
      case None => (db, HttpError(404))
      case Some(c) =>
        var k := db.cases[c];
        if q.claimedCase.Some? && q.claimedCase.value != c then (db, HttpError(400))
        else if !q.signatureValid then
          (db.(ledger := db.ledger + [AuditEvent(UnauthorizedAttempt, c, 0, None)]), HttpError(400))
        else if k.recovered then
          if k.paymentId != Some(q.payment) then (db, HttpError(400))
          else (db, Verification(AlreadyVerified, c, k.amountRecovered))
        else Reconcile(db, c, q.payment, q.order, CheckoutCallback, fetch)
  }

  /** `captured`: the event type is payment.captured. Missing ids are empty strings. */
  datatype WebhookRequest =
    WebhookRequest(eventId: string, signed: bool, signatureValid: bool, wellFormed: bool,
                   captured: bool, order: string, payment: string)

  /** `razorpay_webhook`: the receipt is stored before any side effect, and an HTTP
      error rolls it back with everything else. */
  function ReceiveWebhook(db: Db, configured: bool, q: WebhookRequest, fetch: Fetch): (Db, Response) {
    if !configured then (db, HttpError(503))
    else if !q.signed || q.eventId == "" then (db, HttpError(400))
    else if !q.signatureValid then (db, HttpError(400))
    else if !q.wellFormed then (db, HttpError(400))
    else if q.eventId in db.receipts then (db, Duplicate)
    else
      var stored := db.(receipts := db.receipts + {q.eventId});
      if q.captured && q.payment != "" && q.order != "" then
        match FindByOrder(db.cases, q.order)
        case None => (stored, Accepted)
        case Some(c) =>
          var (reconciled, answer) := Reconcile(stored, c, q.payment, q.order, ProviderWebhook(q.eventId), fetch);
          if answer.HttpError? then (db, answer) else (reconciled, Accepted)
      else (stored, Accepted)
  }

  // ----- Agent runs

  function StartRun(db: Db, c: nat): (Db, Option<nat>) {
    if c >= |db.cases| || db.cases[c].recovered || db.cases[c].stopped then (db, None)
    else
      (db.(runs := db.runs + [AgentRun(c, Running, [])],
           ledger := db.ledger + [AuditEvent(AgentRunStarted, c, 0, None)]),
       Some(|db.runs|))
  }

  /** `make_initial_state` with the arguments `execute_agent_run` passes. */
  function StartState(k: Case): Agent.AgentState {
    Agent.AgentState(
      Agent.Facts(k.amountAtRisk, k.reason, false, false, false, None, false, 3),
      k.retryCount, k.communicationCount, 0, k.recovered, false,
      None, None, None, None, None, false, None, 0, [], [])
  }

  /** The case row after the field-by-field copy of the final state. */
  function Updated(k: Case, s: Agent.AgentState): Case {
    k.(retryCount := s.retryCount, communicationCount := s.communicationCount,
       recovered := s.recovered, stopped := s.stopped,
       strategy := if s.strategy.Some? then s.strategy else k.strategy,
       policyDecision := if s.policyResult.Some? then Some(s.policyResult.value.decision) else k.policyDecision)
  }

  predicate ReportsRecovery(s: Agent.AgentState) {
    s.recovered && s.verification.Some?
  }

  /** Recording the recovery parses the transaction id as a uuid. */
  predicate AuditRaises(s: Agent.AgentState, base16: string -> bool) {
    && ReportsRecovery(s) && s.verification.value.transactionId.Some?
    && s.verification.value.transactionId.value != ""
    && !Uuid.Parses(s.verification.value.transactionId.value, base16)
  }

  function Applied(k: Case, s: Agent.AgentState): Case {
    if ReportsRecovery(s) then
      Updated(k, s).(amountRecovered := s.verification.value.amountRecovered, status := Recovered)
    else if s.escalationReason.Some? then
      Updated(k, s).(status := Escalated, escalation := Some(ByAgent(s.escalationReason.value)))
    else if s.stopped then Updated(k, s).(status := Stopped)
    else Updated(k, s)
  }

  function AppliedEvents(c: nat, s: Agent.AgentState, base16: string -> bool): seq<AuditEvent> {
    if AuditRaises(s, base16) then []
    else
      (if ReportsRecovery(s) then [AuditEvent(RevenueRecovered, c, s.verification.value.amountRecovered, None)]
       else if s.escalationReason.Some? then [AuditEvent(CaseEscalated, c, 0, None)]
       else [])
      + [AuditEvent(AgentRunCompleted, c, 0, None)]
  }

  /** `_apply_agent_result`; when the audit raises, the row changes stay in the session. */
  function ApplyResult(db: Db, r: nat, s: Agent.AgentState, base16: string -> bool): Db
    requires r < |db.runs| && db.runs[r].caseId < |db.cases|
  {
    var c := db.runs[r].caseId;
    db.(cases := db.cases[c := Applied(db.cases[c], s)],
        runs := db.runs[r := AgentRun(c, Completed, s.log)],
        ledger := db.ledger + AppliedEvents(c, s, base16))
  }

  /** The error path of `execute_agent_run` on a final attempt. */
  function MarkError(db: Db, r: nat): Db
    requires r < |db.runs|
  {
    db.(runs := db.runs[r := db.runs[r].(status := Error)],
        ledger := db.ledger + [AuditEvent(AgentRunCompleted, db.runs[r].caseId, 0, None)])
  }

  /** One attempt: the worker's configuration and everything outside its control. `base16`
      is what the uuid library makes of 32 characters. */
  datatype Attempt = Attempt(policy: Policy, mode: Agent.Mode, env: Agent.Environment, base16: string -> bool)

  function RunOf(db: Db, r: nat, a: Attempt): Agent.RunResult
    requires r < |db.runs| && db.runs[r].caseId < |db.cases|
  {
    Agent.Run(a.policy, a.mode, a.env, StartState(db.cases[db.runs[r].caseId]), map[])
  }

  predicate RunsHaveCases(db: Db) {
    forall r :: 0 <= r < |db.runs| ==> db.runs[r].caseId < |db.cases|
  }

  datatype Execution = NotFound | Ended(status: RunStatus) | Reraised

  /** `execute_agent_run_in_new_session`: commit, or roll everything back and re-raise. */
  function ExecuteRun(db: Db, r: nat, finalAttempt: bool, a: Attempt): (Db, Execution)
    requires RunsHaveCases(db)
  {
    if r >= |db.runs| then (db, NotFound)
    else if !db.runs[r].status.Running? then (db, Ended(db.runs[r].status))
    else
      match RunOf(db, r, a)
      case Raised(_) => if finalAttempt then (MarkError(db, r), Ended(Error)) else (db, Reraised)
      case Finished(s, _) =>
        if !AuditRaises(s, a.base16) then (ApplyResult(db, r, s, a.base16), Ended(Completed))
        else if finalAttempt then (MarkError(ApplyResult(db, r, s, a.base16), r), Ended(Error))
        else (db, Reraised)
  }

  datatype TaskResult = Returned(status: Execution) | GaveUp

  /** `run_recovery_agent_task`: three attempts, the last one final. */
  function RunTask(db: Db, r: nat, retries: nat, attempts: nat -> Attempt): (Db, TaskResult)
    requires RunsHaveCases(db) && retries <= 2
    decreases 2 - retries
  {
    var (db', answer) := ExecuteRun(db, r, retries >= 2, attempts(retries));
    if answer.Reraised? then if retries < 2 then RunTask(db', r, retries + 1, attempts) else (db', GaveUp)
    else (db', Returned(answer))
  }

  function EscalateCase(db: Db, c: nat, note: string): Db {
    if c >= |db.cases| then db
    else
      var k := db.cases[c];
      db.(cases := db.cases[c := k.(status := Escalated, escalation := Some(ByOperator(note)), stopped := true)],
          ledger := db.ledger + [AuditEvent(CaseEscalated, c, 0, None)])
  }

  // ----- Events

  /** A payment failure or an abandoned checkout. */
  datatype FailureEvent = FailureEvent(key: string, amount: int, currency: string, reason: FailureReason)

  /** `get_case_by_idempotency_key`; the column is unique. */
  function FindBySource(cases: seq<Case>, key: string): (r: Option<nat>)
    ensures r.Some? ==> r.value < |cases| && cases[r.value].source == key
    ensures r.None? ==> forall i :: 0 <= i < |cases| ==> cases[i].source != key
  {
    if cases == [] then None
    else if cases[|cases| - 1].source == key then Some(|cases| - 1)
    else FindBySource(cases[..|cases| - 1], key)
  }

  function FreshCase(event: FailureEvent, score: real): Case {
    Case(event.key, score, event.amount, 0, event.currency, event.reason, Detected, 0, 0, false, false,
         None, None, None, None, None, None)
  }

  function NewCase(db: Db, event: FailureEvent, score: real): Db {
    db.(cases := db.cases + [FreshCase(event, score)],
        ledger := db.ledger + [AuditEvent(CaseCreated, |db.cases|, event.amount, None)])
  }

  datatype Opened = Opened(caseId: nat, duplicate: bool)

  /** `payment_failed` and `checkout_abandoned`, up to the dispatch of the agent;
      `score` is what the scoring service answers. */
  function OpenCase(db: Db, event: FailureEvent, score: real): (Db, Opened) {
    match FindBySource(db.cases, event.key)
    case Some(c) => (db, Opened(c, true))
    case None => (NewCase(db, event, score), Opened(|db.cases|, false))
  }

  // ----- Histories

  datatype Step =
    | Open(event: FailureEvent, score: real)
    | Order(ready: bool, c: nat, offered: Option<ProviderOrder>)
    | Callback(ready: bool, callback: CallbackRequest, fetch: Fetch)
    | Webhook(configured: bool, webhook: WebhookRequest, fetch: Fetch)
    | Start(c: nat)
    | Execute(r: nat, finalAttempt: bool, attempt: Attempt)
    | Escalation(c: nat, note: string)

  function Apply(db: Db, step: Step): (r: Db)
    requires RunsHaveCases(db)
    ensures RunsHaveCases(r)
  {
    match step
    case Open(event, score) => OpenCase(db, event, score).0
    case Order(ready, c, offered) => CreateOrder(db, ready, c, offered).0
    case Callback(ready, q, fetch) => VerifyPayment(db, ready, q, fetch).0
    case Webhook(configured, q, fetch) => ReceiveWebhook(db, configured, q, fetch).0
    case Start(c) => StartRun(db, c).0
    case Execute(r, finalAttempt, attempt) => ExecuteRun(db, r, finalAttempt, attempt).0
    case Escalation(c, note) => EscalateCase(db, c, note)
  }

  /** The state after a history of steps, oldest first. */
  function After(db: Db, steps: seq<Step>): (r: Db)
    requires RunsHaveCases(db)
    ensures RunsHaveCases(r)
  {
    if steps == [] then db else Apply(After(db, steps[..|steps| - 1]), steps[|steps| - 1])
  }
}
