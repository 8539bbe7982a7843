/** The deterministic authorization gate (policies/engine/policy_engine.py). */
module PolicyEngine {
  import opened Wrappers

  datatype FailureReason =
    | InsufficientFunds | ExpiredMethod | GatewayTemporary | BankDecline | AuthFailure
    | MandateFailure | SubscriptionGrace | CheckoutAbandoned | UnknownFailure

  datatype Strategy =
    | RetryNow | ScheduleRetry | PaymentMethodUpdate | Reminder | CheckoutRecovery
    | PromiseToPay | EscalateToHuman

  datatype ActionType =
    | RetryPayment | ScheduledRetry | RequestMethodUpdate | SendReminder | SendCheckoutRecovery
    | CreatePromise | HumanEscalation | ChangeChannel

  function ActionOf(s: Strategy): ActionType {
    match s
    case RetryNow => RetryPayment
    case ScheduleRetry => ScheduledRetry
    case PaymentMethodUpdate => RequestMethodUpdate
    case Reminder => SendReminder
    case CheckoutRecovery => SendCheckoutRecovery
    case PromiseToPay => CreatePromise
    case EscalateToHuman => HumanEscalation
  }

  predicate IsRetryStrategy(strategy: Strategy) {
    strategy.RetryNow? || strategy.ScheduleRetry?
  }

  /** `Field(ge=0.0, le=1.0)` on every diagnosis. */
  type Confidence = r: real | 0.0 <= r <= 1.0 witness 0.0

  datatype Policy = Policy(
    maxRetries: int, maxAutoAmount: int, minRetryIntervalHours: int,
    maxMessagesPerCase: int, maxRecoveryMessages: int, minCheckoutAmount: int,
    escalateUnknown: bool, lowConfidence: Confidence,
    stopOnSuccess: bool, stopOnOptOut: bool, stopOnSuspension: bool)

  datatype Context = Context(
    action: ActionType, amount: int, retryCount: int, communicationCount: int,
    optedOut: bool, suspended: bool, recovered: bool, alreadyPaid: bool,
    reason: FailureReason, hoursSinceLast: Option<real>, confidence: Option<Confidence>,
    timeoutElapsed: bool, checkoutMessages: int)

  datatype Decision = Approved | Denied | Escalate | Stop

  datatype Violation =
    | CaseAlreadyRecovered | PaymentAlreadySucceeded | CustomerOptOut | CustomerSuspended
    | AmountExceedsAutoLimit | InvalidAmount | MaxRetriesExceeded | MaxCommunicationsExceeded
    | CheckoutTimeoutNotReached | CheckoutAmountTooLow | MaxCheckoutMessages
    | RetryIntervalNotSatisfied | UnknownFailureReason | LowDiagnosisConfidence

  datatype Evaluation = Evaluation(allowed: bool, decision: Decision, violations: seq<Violation>)

  function Refuse(d: Decision, code: Violation): Evaluation {
    Evaluation(false, d, [code])
  }

  predicate IsRetry(a: ActionType) {
    a.RetryPayment? || a.ScheduledRetry?
  }

  predicate IsGatedMessage(a: ActionType) {
    a.SendReminder? || a.SendCheckoutRecovery? || a.ChangeChannel?
  }

  /** The early-return pipeline; the first rule that fires decides. */
  function Authorize(p: Policy, c: Context): Evaluation {
    if c.recovered then Refuse(Stop, CaseAlreadyRecovered)
    else if p.stopOnSuccess && c.alreadyPaid then Refuse(Stop, PaymentAlreadySucceeded)
    else if p.stopOnOptOut && c.optedOut then Refuse(Denied, CustomerOptOut)
    else if p.stopOnSuspension && c.suspended then Refuse(Denied, CustomerSuspended)
    else if c.amount > p.maxAutoAmount then Refuse(Escalate, AmountExceedsAutoLimit)
    else if c.amount <= 0 then Refuse(Denied, InvalidAmount)
    else if IsRetry(c.action) && c.retryCount >= p.maxRetries then Refuse(Escalate, MaxRetriesExceeded)
    else if IsGatedMessage(c.action) && c.communicationCount >= p.maxMessagesPerCase then
      Refuse(Denied, MaxCommunicationsExceeded)
    else if c.action.SendCheckoutRecovery? && !c.timeoutElapsed then Refuse(Denied, CheckoutTimeoutNotReached)
    else if c.action.SendCheckoutRecovery? && c.amount < p.minCheckoutAmount then
      Refuse(Denied, CheckoutAmountTooLow)
    else if c.action.SendCheckoutRecovery? && c.checkoutMessages >= p.maxRecoveryMessages then
      Refuse(Denied, MaxCheckoutMessages)
    else if IsRetry(c.action) && c.hoursSinceLast.Some?
      && c.hoursSinceLast.value < p.minRetryIntervalHours as real then
      Refuse(Denied, RetryIntervalNotSatisfied)
    else if c.reason.UnknownFailure? && p.escalateUnknown then Refuse(Escalate, UnknownFailureReason)
    else if c.confidence.Some? && c.confidence.value < p.lowConfidence then
      Refuse(Escalate, LowDiagnosisConfidence)
    else Evaluation(true, Approved, [])
  }

  // ----- The rules in their order

  /** When the rule behind a violation code applies. */
  predicate Fires(p: Policy, c: Context, code: Violation) {
    match code
    case CaseAlreadyRecovered => c.recovered
    case PaymentAlreadySucceeded => p.stopOnSuccess && c.alreadyPaid
    case CustomerOptOut => p.stopOnOptOut && c.optedOut
    case CustomerSuspended => p.stopOnSuspension && c.suspended
    case AmountExceedsAutoLimit => c.amount > p.maxAutoAmount
    case InvalidAmount => c.amount <= 0
    case MaxRetriesExceeded => IsRetry(c.action) && c.retryCount >= p.maxRetries
    case MaxCommunicationsExceeded => IsGatedMessage(c.action) && c.communicationCount >= p.maxMessagesPerCase
    case CheckoutTimeoutNotReached => c.action.SendCheckoutRecovery? && !c.timeoutElapsed
    case CheckoutAmountTooLow => c.action.SendCheckoutRecovery? && c.amount < p.minCheckoutAmount
    case MaxCheckoutMessages => c.action.SendCheckoutRecovery? && c.checkoutMessages >= p.maxRecoveryMessages
    case RetryIntervalNotSatisfied =>
      IsRetry(c.action) && c.hoursSinceLast.Some? && c.hoursSinceLast.value < p.minRetryIntervalHours as real
    case UnknownFailureReason => p.escalateUnknown && c.reason.UnknownFailure?
    case LowDiagnosisConfidence => c.confidence.Some? && c.confidence.value < p.lowConfidence
  }

  function DecisionFor(code: Violation): Decision {
    match code
    case CaseAlreadyRecovered | PaymentAlreadySucceeded => Stop
    case AmountExceedsAutoLimit | MaxRetriesExceeded | UnknownFailureReason | LowDiagnosisConfidence => Escalate
    case _ => Denied
  }

  /** The numbered steps of the pipeline: a lower rank goes first. */
  function Rank(code: Violation): nat {
    match code
    case CaseAlreadyRecovered => 0
    case PaymentAlreadySucceeded => 1
    case CustomerOptOut => 2
    case CustomerSuspended => 3
    case AmountExceedsAutoLimit => 4
    case InvalidAmount => 5
    case MaxRetriesExceeded => 6
    case MaxCommunicationsExceeded => 7
    case CheckoutTimeoutNotReached => 8
    case CheckoutAmountTooLow => 9
    case MaxCheckoutMessages => 10
    case RetryIntervalNotSatisfied => 11
    case UnknownFailureReason => 12
    case LowDiagnosisConfidence => 13
  }

  lemma RefusalsGiveTheirRule(p: Policy, c: Context)
    requires !Authorize(p, c).decision.Approved?
    ensures
      var r := Authorize(p, c);
      |r.violations| == 1 && Fires(p, c, r.violations[0]) && r.decision == DecisionFor(r.violations[0])
  {
  }

  lemma FiringRuleRefuses(p: Policy, c: Context, code: Violation)
    requires Fires(p, c, code)
    ensures
      var r := Authorize(p, c);
      !r.decision.Approved? && |r.violations| == 1 && Rank(r.violations[0]) <= Rank(code)
  {
  }

  /** An action is approved iff no rule fires; otherwise the firing rule of lowest rank
      gives the decision and the only violation. */
  lemma FirstFiringRuleDecides(p: Policy, c: Context)
    ensures
      var r := Authorize(p, c);
      && (r.decision.Approved? <==> forall code :: !Fires(p, c, code))
      && (!r.decision.Approved? ==>
            && |r.violations| == 1 && Fires(p, c, r.violations[0]) && r.decision == DecisionFor(r.violations[0])
            && forall code :: Fires(p, c, code) ==> Rank(r.violations[0]) <= Rank(code))
  {
    var r := Authorize(p, c);
    if !r.decision.Approved? {
      RefusalsGiveTheirRule(p, c);
    }
    forall code | Fires(p, c, code)
      ensures !r.decision.Approved? && |r.violations| == 1 && Rank(r.violations[0]) <= Rank(code)
    {
      FiringRuleRefuses(p, c, code);
    }
  }

  /** Every limit of `p` is at least as strict as that of `q`. */
  predicate Tighter(p: Policy, q: Policy) {
    && p.maxRetries <= q.maxRetries && p.maxAutoAmount <= q.maxAutoAmount
    && p.minRetryIntervalHours >= q.minRetryIntervalHours
    && p.maxMessagesPerCase <= q.maxMessagesPerCase
    && p.maxRecoveryMessages <= q.maxRecoveryMessages && p.minCheckoutAmount >= q.minCheckoutAmount
    && (q.escalateUnknown ==> p.escalateUnknown) && p.lowConfidence >= q.lowConfidence
    && (q.stopOnSuccess ==> p.stopOnSuccess) && (q.stopOnOptOut ==> p.stopOnOptOut)
    && (q.stopOnSuspension ==> p.stopOnSuspension)
  }

  /** `c` has used up no less than `d` and is otherwise the same request. */
  predicate Spent(c: Context, d: Context) {
    && c.retryCount >= d.retryCount && c.communicationCount >= d.communicationCount
    && c.checkoutMessages >= d.checkoutMessages
    && d == c.(retryCount := d.retryCount, communicationCount := d.communicationCount,
               checkoutMessages := d.checkoutMessages)
  }

  /** Specific restriction beats general permission: tightening any rule, or having
      used up more of a limit, never turns a refusal into an approval. */
  lemma ApprovalIsAntitone(p: Policy, q: Policy, c: Context, d: Context)
    requires Tighter(p, q) && Spent(c, d)
    ensures Authorize(p, c).decision.Approved? ==> Authorize(q, d).decision.Approved?
    ensures Authorize(p, c).allowed <==> Authorize(p, c).decision.Approved?
    ensures Authorize(p, c).allowed <==> Authorize(p, c).violations == []
  {
  }
}
