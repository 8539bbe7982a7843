/** One run of the recovery agent: state, nodes, routes and the run itself
    (agents/graph/recovery_graph.py, agents/nodes/deterministic_nodes.py,
    agents/nodes/node_utils.py). The language model and the payment provider are
    an adversary: an `Environment` that answers every node visit as it likes. */
module AgentGraph {
  import opened Wrappers
  import opened PolicyEngine

  datatype Node =
    | RiskDetection | ContextBuilder | Diagnosis | Strategise | PolicyCheck | ActionExecution
    | Observation | Verification | Escalation | Completion | Replan

  datatype PaymentStatus = Pending | Success | Failed | Cancelled
  datatype Payment = Payment(id: string, status: PaymentStatus, amount: int)

  datatype Reason =
    | AlreadyRecovered | NoStrategy | EscalationTriggered | AllChecksPassed | Violated(code: Violation)
  datatype PolicyResult = PolicyResult(decision: Decision, reason: Reason)

  datatype Execution = Blocked | PaymentRetry(transactionId: string) | CheckoutMessage | Communication | Recorded
  datatype VerificationOutcome =
    | NotExecuted | PendingWebhook | NoTransaction | Recovered | ProviderAnswered(status: PaymentStatus)
    | CommunicationSent
  datatype VerificationResult =
    VerificationResult(outcome: VerificationOutcome, transactionId: Option<string>, amountRecovered: int)

  /** The part of the state no node writes. */
  datatype Facts = Facts(
    amount: int, reason: FailureReason, optedOut: bool, suspended: bool, alreadyPaid: bool,
    hoursSinceLast: Option<real>, timeoutElapsed: bool, maxReplans: int)

  datatype AgentState = AgentState(
    facts: Facts, retryCount: int, communicationCount: int, checkoutMessages: int,
    recovered: bool, stopped: bool, confidence: Option<Confidence>, strategy: Option<Strategy>,
    policyResult: Option<PolicyResult>, execution: Option<Execution>, verification: Option<VerificationResult>,
    error: bool, escalationReason: Option<Reason>, replans: int,
    trace: seq<Node>, log: seq<Node>)

  /** What an observer outside the agent sees: every policy decision, every call
      to the provider and every message. */
  datatype Effect =
    | Decided(ctx: Context, decision: Decision)
    | RetryCalled(strategy: Strategy, number: int)
    | MessageSent(strategy: Strategy)
    | ActionRecorded(strategy: Strategy)
    | Fetched(id: string, status: PaymentStatus, amount: int)

  /** `payments` is the simulator's `_payment_results`. */
  datatype World = World(payments: map<string, Payment>, effects: seq<Effect>)

  datatype Mode = Simulator | External
  datatype Fault = NoFault | FaultBefore | FaultAfter

  /** Twelve hexadecimal digits of a fresh uuid. */
  type Token = s: string | |s| == 12 witness "000000000000"

  datatype Input = Input(
    fault: Fault, confidence: Confidence, strategy: Strategy,
    token: Token, charged: bool, retryId: string, fetched: Payment)

  /** The adversary's answer at the n-th node visit. */
  type Environment = nat -> Input

  // ----- Nodes

  function AddTrace(s: AgentState, n: Node): AgentState {
    s.(trace := s.trace + [n])
  }

  function RiskNode(s: AgentState): AgentState {
    var t := AddTrace(s, RiskDetection);
    if s.recovered then t.(stopped := true, escalationReason := Some(AlreadyRecovered))
    else if s.facts.alreadyPaid then t.(stopped := true)
    else if s.facts.amount <= 0 then t.(error := true, stopped := true)
    else t
  }

  function ContextOf(s: AgentState, strategy: Strategy): Context {
    Context(ActionOf(strategy), s.facts.amount, s.retryCount, s.communicationCount, s.facts.optedOut, s.facts.suspended,
            s.recovered, s.facts.alreadyPaid, s.facts.reason, s.facts.hoursSinceLast, s.confidence,
            s.facts.timeoutElapsed, s.checkoutMessages)
  }

  function ReasonOf(e: Evaluation): Reason {
    if e.violations == [] then AllChecksPassed else Violated(e.violations[0])
  }

  function PolicyNode(policy: Policy, s: AgentState, w: World): (AgentState, World) {
    var t := AddTrace(s, PolicyCheck);
    match s.strategy
    case None => (t.(policyResult := Some(PolicyResult(Escalate, NoStrategy))), w)
    case Some(strategy) =>
      var ctx := ContextOf(s, strategy);
      var e := Authorize(policy, ctx);
      (t.(policyResult := Some(PolicyResult(e.decision, ReasonOf(e)))),
       w.(effects := w.effects + [Decided(ctx, e.decision)]))
  }

  /** `SimulatorPaymentProvider.retry_payment` stores what it returns; any other
      provider answers with an identifier of its choice. */
  function CallRetry(mode: Mode, w: World, amount: int, input: Input): (string, World) {
    match mode
    case Simulator =>
      var id := "TXN-" + input.token;
      var status := if input.charged then Success else Failed;
      (id, w.(payments := w.payments[id := Payment(id, status, amount)]))
    case External => (input.retryId, w)
  }

  function GetPayment(mode: Mode, w: World, id: string, input: Input): Payment {
    match mode
    case Simulator => if id in w.payments then w.payments[id] else Payment(id, Pending, 0)
    case External => input.fetched
  }

  function ActionNode(mode: Mode, s: AgentState, w: World, input: Input): (AgentState, World) {
    var t := AddTrace(s, ActionExecution);
    if s.policyResult.None? || !s.policyResult.value.decision.Approved? then
      (t.(execution := Some(Blocked)), w)
    else
      var strategy := if s.strategy.Some? then s.strategy.value else EscalateToHuman;
      match strategy
      case RetryNow | ScheduleRetry =>
        var (id, w') := CallRetry(mode, w, s.facts.amount, input);
        (t.(execution := Some(PaymentRetry(id)), retryCount := s.retryCount + 1),
         w'.(effects := w.effects + [RetryCalled(strategy, s.retryCount + 1)]))
      case CheckoutRecovery =>
        (t.(execution := Some(CheckoutMessage), communicationCount := s.communicationCount + 1,
            checkoutMessages := s.checkoutMessages + 1),
         w.(effects := w.effects + [MessageSent(strategy)]))
      case Reminder | PaymentMethodUpdate =>
        (t.(execution := Some(Communication), communicationCount := s.communicationCount + 1),
         w.(effects := w.effects + [MessageSent(strategy)]))
      case PromiseToPay | EscalateToHuman =>
        (t.(execution := Some(Recorded)), w.(effects := w.effects + [ActionRecorded(strategy)]))
  }

  function VerifyNode(mode: Mode, s: AgentState, w: World, input: Input): (AgentState, World) {
    var t := AddTrace(s, Verification);
    match if s.execution.Some? then s.execution.value else Blocked
    case Blocked => (t.(verification := Some(VerificationResult(NotExecuted, None, 0))), w)
    case CheckoutMessage => (t.(verification := Some(VerificationResult(PendingWebhook, None, 0))), w)
    case PaymentRetry(id) =>
      if id == "" then (t.(verification := Some(VerificationResult(NoTransaction, None, 0))), w)
      else
        var payment := GetPayment(mode, w, id, input);
        var w' := w.(effects := w.effects + [Fetched(id, payment.status, payment.amount)]);
        if payment.status.Success? then
          (t.(verification := Some(VerificationResult(Recovered, Some(id), payment.amount)),
              recovered := true, stopped := true), w')
        else
          (t.(verification := Some(VerificationResult(ProviderAnswered(payment.status), Some(id), 0))), w')
    case Communication | Recorded =>
      (t.(verification := Some(VerificationResult(CommunicationSent, None, 0))), w)
  }

  function EscalationNode(s: AgentState): AgentState {
    var reason :=
      if s.escalationReason.Some? then s.escalationReason.value
      else if s.policyResult.Some? then s.policyResult.value.reason
      else EscalationTriggered;
    AddTrace(s, Escalation).(escalationReason := Some(reason), stopped := true)
  }

  function CompletionNode(s: AgentState): AgentState {
    var t := AddTrace(s, Completion);
    if s.policyResult.Some? && s.policyResult.value.decision.Denied? && !s.recovered then
      t.(stopped := true,
         escalationReason :=
           if s.escalationReason.Some? then s.escalationReason else Some(s.policyResult.value.reason))
    else t
  }

  /** `increment_replan` does not add itself to the trace; the wrapper does. */
  function ReplanNode(s: AgentState): AgentState {
    s.(replans := s.replans + 1)
  }

  function RunNode(policy: Policy, mode: Mode, n: Node, s: AgentState, w: World, input: Input): (AgentState, World) {
    match n
    case RiskDetection => (RiskNode(s), w)
    case ContextBuilder => (AddTrace(s, ContextBuilder), w)
    case Diagnosis => (AddTrace(s, Diagnosis).(confidence := Some(input.confidence)), w)
    case Strategise => (AddTrace(s, Strategise).(strategy := Some(input.strategy)), w)
    case PolicyCheck => PolicyNode(policy, s, w)
    case ActionExecution => ActionNode(mode, s, w, input)
    case Observation => (AddTrace(s, Observation), w)
    case Verification => VerifyNode(mode, s, w, input)
    case Escalation => (EscalationNode(s), w)
    case Completion => (CompletionNode(s), w)
    case Replan => (ReplanNode(s), w)
  }

  /** `_wrap_node`: one log record per visit, and a trace entry if the node made none. */
  function Visit(policy: Policy, mode: Mode, n: Node, s: AgentState, w: World, input: Input): (AgentState, World) {
    var (out, w') := RunNode(policy, mode, n, s, w, input);
    var trace := if n.Replan? then s.trace + [n] else out.trace;
    (out.(log := s.log + [n], trace := trace), w')
  }

  // ----- Routes

  function RouteAfterRisk(s: AgentState): Node {
    if s.stopped || s.error then Completion else ContextBuilder
  }

  function RouteAfterPolicy(s: AgentState): Node {
    if s.policyResult.Some? && s.policyResult.value.decision.Approved? then ActionExecution
    else if s.policyResult.Some? && (s.policyResult.value.decision.Escalate? || s.policyResult.value.decision.Stop?)
    then Escalation
    else Completion
  }

  function RouteAfterVerification(s: AgentState): Node {
    if s.recovered then Completion
    else if s.replans < s.facts.maxReplans then Replan
    else Escalation
  }

  /** `None` is the graph's END. */
  function Route(n: Node, s: AgentState): Option<Node> {
    match n
    case RiskDetection => Some(RouteAfterRisk(s))
    case ContextBuilder => Some(Diagnosis)
    case Diagnosis => Some(Strategise)
    case Strategise => Some(PolicyCheck)
    case PolicyCheck => Some(RouteAfterPolicy(s))
    case ActionExecution => Some(Observation)
    case Observation => Some(Verification)
    case Verification => Some(RouteAfterVerification(s))
    case Replan => Some(Strategise)
    case Escalation => Some(Completion)
    case Completion => None
  }

  // ----- Runs

  function ReplansLeft(s: AgentState): nat {
    Max(0, s.facts.maxReplans - s.replans)
  }

  /** An upper bound on the visits left when the run is about to visit `n`; it
      falls with every visit, so it is also the termination measure. */
  function VisitsLeft(n: Node, s: AgentState): nat {
    var rounds := 6 * ReplansLeft(s);
    match n
    case RiskDetection => rounds + 10
    case ContextBuilder => rounds + 9
    case Diagnosis => rounds + 8
    case Strategise => rounds + 7
    case PolicyCheck => rounds + 6
    case ActionExecution => rounds + 5
    case Observation => rounds + 4
    case Verification => rounds + 3
    case Replan => rounds + 2
    case Escalation => 2
    case Completion => 1
  }

  datatype RunResult = Raised(world: World) | Finished(state: AgentState, world: World)

  predicate WellPlaced(n: Node, s: AgentState) {
    n.Replan? ==> s.replans < s.facts.maxReplans
  }

  /** Only `Replan` spends the replan budget, and no node rewrites the facts. */
  predicate KeepsPlan(s: AgentState, s': AgentState) {
    s'.facts == s.facts && s'.replans == s.replans
  }

  lemma PolicyKeepsPlan(policy: Policy, s: AgentState, w: World)
    ensures KeepsPlan(s, PolicyNode(policy, s, w).0)
  {
  }

  lemma ActionKeepsPlan(mode: Mode, s: AgentState, w: World, input: Input)
    ensures KeepsPlan(s, ActionNode(mode, s, w, input).0)
  {
  }

  lemma VerifyKeepsPlan(mode: Mode, s: AgentState, w: World, input: Input)
    ensures KeepsPlan(s, VerifyNode(mode, s, w, input).0)
  {
  }

  lemma VisitSpendsReplans(policy: Policy, mode: Mode, n: Node, s: AgentState, w: World, input: Input)
    ensures
      var s' := Visit(policy, mode, n, s, w, input).0;
      s'.facts == s.facts && s'.replans == s.replans + if n.Replan? then 1 else 0
  {
    match n
    case PolicyCheck => PolicyKeepsPlan(policy, s, w);
    case ActionExecution => ActionKeepsPlan(mode, s, w, input);
    case Verification => VerifyKeepsPlan(mode, s, w, input);
    case _ =>
  }

  lemma VisitDecreases(policy: Policy, mode: Mode, n: Node, s: AgentState, w: World, input: Input)
    requires WellPlaced(n, s)
    ensures
      var s' := Visit(policy, mode, n, s, w, input).0;
      var next := Route(n, s');
      next.Some? ==> WellPlaced(next.value, s') && VisitsLeft(next.value, s') < VisitsLeft(n, s)
  {
    var s' := Visit(policy, mode, n, s, w, input).0;
    VisitSpendsReplans(policy, mode, n, s, w, input);
    RouteDecreases(n, s, s');
  }

  lemma RouteDecreases(n: Node, s: AgentState, s': AgentState)
    requires WellPlaced(n, s)
    requires s'.facts.maxReplans == s.facts.maxReplans && s'.replans == s.replans + if n.Replan? then 1 else 0
    ensures
      var next := Route(n, s');
      next.Some? ==> WellPlaced(next.value, s') && VisitsLeft(next.value, s') < VisitsLeft(n, s)
  {
  }

  /** The compiled graph from node `n` on. A fault before or after a node's own
      work raises out of the whole run. */
  function RunFrom(policy: Policy, mode: Mode, env: Environment, n: Node, s: AgentState, w: World): RunResult
    requires WellPlaced(n, s)
    decreases VisitsLeft(n, s)
  {
    var input := env(|s.trace|);
    if input.fault.FaultBefore? then Raised(w)
    else
      var (s', w') := Visit(policy, mode, n, s, w, input);
      if input.fault.FaultAfter? then Raised(w')
      else
        match Route(n, s')
        case None => Finished(s', w')
        case Some(next) =>
          VisitDecreases(policy, mode, n, s, w, input);
          RunFrom(policy, mode, env, next, s', w')
  }

  /** The defaults of `make_initial_state`; the rest of the state is the caller's. */
  predicate Initial(s: AgentState) {
    && !s.stopped && !s.error && s.replans == 0
    && s.confidence.None? && s.strategy.None? && s.policyResult.None?
    && s.execution.None? && s.verification.None? && s.escalationReason.None?
    && s.trace == [] && s.log == []
  }

  function Run(policy: Policy, mode: Mode, env: Environment, s: AgentState, payments: map<string, Payment>): RunResult {
    RunFrom(policy, mode, env, RiskDetection, s, World(payments, []))
  }
}
