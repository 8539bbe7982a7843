/** What the verification of a run says, told by the last thing the run did. */
module Verdicts {
  import opened Wrappers
  import opened PolicyEngine
  import opened AgentGraph
  import opened AgentSafety
  import opened AgentTheorems

  function Unverified(outcome: VerificationOutcome): VerificationResult {
    VerificationResult(outcome, None, 0)
  }

  /** A fetch is reported as the provider answered, with the amount of a success; a retry
      without a fetch has no transaction; a checkout message waits for the webhook; everything
      else has been communicated. Decisions verify nothing. */
  function Verdict(e: seq<Effect>): Option<VerificationResult> {
    if e == [] then None
    else
      match e[|e| - 1]
      case Decided(_, _) => Verdict(e[..|e| - 1])
      case Fetched(id, status, amount) =>
        Some(if status.Success? then VerificationResult(Recovered, Some(id), amount)
             else VerificationResult(ProviderAnswered(status), Some(id), 0))
      case RetryCalled(_, _) => Some(Unverified(NoTransaction))
      case MessageSent(strategy) =>
        Some(Unverified(if strategy.CheckoutRecovery? then PendingWebhook else CommunicationSent))
      case ActionRecorded(_) => Some(Unverified(CommunicationSent))
  }

  lemma VerdictSnoc(e: seq<Effect>, x: Effect)
    ensures x.Decided? ==> Verdict(e + [x]) == Verdict(e)
    ensures !x.Decided? ==> Verdict(e + [x]) == Verdict([x])
  {
  }

  /** The execution result is that of the action `x`. */
  predicate Fits(execution: Execution, x: Effect) {
    match x
    case RetryCalled(_, _) => execution.PaymentRetry?
    case MessageSent(strategy) =>
      if strategy.CheckoutRecovery? then execution.CheckoutMessage? else execution.Communication?
    case ActionRecorded(_) => execution.Recorded?
    case _ => false
  }

  predicate Judged(next: Option<Node>, s: AgentState, e: seq<Effect>) {
    if next == Some(Observation) || next == Some(Verification) then
      e != [] && s.execution.Some? && Fits(s.execution.value, e[|e| - 1])
    else s.verification == Verdict(e)
  }

  // ----- One visit

  lemma QuietJudges(p: Policy, mode: Mode, n: Node, s: AgentState, w: World, input: Input)
    requires Judged(Some(n), s, w.effects) && Quiet(n)
    ensures var (s', w') := Visit(p, mode, n, s, w, input); Judged(Route(n, s'), s', w'.effects)
  {
    QuietVisit(p, mode, n, s, w, input);
  }

  lemma CheckJudges(p: Policy, mode: Mode, s: AgentState, w: World, input: Input)
    requires Judged(Some(PolicyCheck), s, w.effects)
    ensures
      var (s', w') := Visit(p, mode, PolicyCheck, s, w, input);
      Judged(Route(PolicyCheck, s'), s', w'.effects)
  {
    PolicyChecks(p, s, w);
    var w' := Visit(p, mode, PolicyCheck, s, w, input).1;
    if s.strategy.Some? {
      VerdictSnoc(w.effects, w'.effects[|w.effects|]);
    }
  }

  lemma ActionFits(mode: Mode, s: AgentState, w: World, input: Input)
    requires s.strategy.Some? && s.policyResult.Some? && s.policyResult.value.decision.Approved?
    ensures
      var s' := ActionNode(mode, s, w, input).0;
      s'.execution.Some? && Fits(s'.execution.value, ActionEffect(s))
  {
  }

  lemma ActionJudges(p: Policy, mode: Mode, s: AgentState, w: World, input: Input)
    requires s.strategy.Some? && s.policyResult.Some? && s.policyResult.value.decision.Approved?
    ensures
      var (s', w') := Visit(p, mode, ActionExecution, s, w, input);
      Judged(Some(Observation), s', w'.effects)
  {
    ActionActs(mode, s, w, input);
    ActionFits(mode, s, w, input);
  }

  lemma FetchedVerdict(mode: Mode, s: AgentState, w: World, input: Input, id: string)
    requires s.execution == Some(PaymentRetry(id)) && w.effects != [] && w.effects[|w.effects| - 1].RetryCalled?
    ensures var (s', w') := VerifyNode(mode, s, w, input); s'.verification == Verdict(w'.effects)
  {
    var payment := GetPayment(mode, w, id, input);
    VerdictSnoc(w.effects, Fetched(id, payment.status, payment.amount));
  }

  lemma OtherVerdict(mode: Mode, s: AgentState, w: World, input: Input)
    requires Judged(Some(Verification), s, w.effects) && !s.execution.value.PaymentRetry?
    ensures var (s', w') := VerifyNode(mode, s, w, input); s'.verification == Verdict(w'.effects)
  {
  }

  lemma VerificationJudges(p: Policy, mode: Mode, s: AgentState, w: World, input: Input)
    requires Judged(Some(Verification), s, w.effects)
    ensures
      var (s', w') := Visit(p, mode, Verification, s, w, input);
      Judged(Route(Verification, s'), s', w'.effects)
  {
    if s.execution.value.PaymentRetry? {
      FetchedVerdict(mode, s, w, input, s.execution.value.transactionId);
    } else {
      OtherVerdict(mode, s, w, input);
    }
  }

  lemma VisitJudges(p: Policy, mode: Mode, n: Node, s: AgentState, w: World, input: Input)
    requires Armed(p, Some(n), s, w.effects) && Judged(Some(n), s, w.effects)
    ensures var (s', w') := Visit(p, mode, n, s, w, input); Judged(Route(n, s'), s', w'.effects)
  {
    match n
    case PolicyCheck => CheckJudges(p, mode, s, w, input);
    case ActionExecution => ActionJudges(p, mode, s, w, input);
    case Verification => VerificationJudges(p, mode, s, w, input);
    case _ => QuietJudges(p, mode, n, s, w, input);
  }

  lemma {:induction false} RunJudges(
      p: Policy, mode: Mode, env: Environment, s0: AgentState, n: Node, s: AgentState, w: World)
    requires Inv(p, mode, s0, Some(n), s, w) && Judged(Some(n), s, w.effects)
    ensures
      var r := RunFrom(p, mode, env, n, s, w);
      r.Finished? ==> Judged(None, r.state, r.world.effects)
    decreases VisitsLeft(n, s)
  {
    var input := env(|s.trace|);
    if !input.fault.FaultBefore? {
      var (s', w') := Visit(p, mode, n, s, w, input);
      VisitKept(p, mode, s0, n, s, w, input);
      VisitJudges(p, mode, n, s, w, input);
      if Route(n, s').Some? && !input.fault.FaultAfter? {
        VisitDecreases(p, mode, n, s, w, input);
        RunJudges(p, mode, env, s0, Route(n, s').value, s', w');
      }
    }
  }

  // ----- Whole runs

  /** The verification a finished run reports is the verdict on its effects. */
  lemma VerificationTellsTheLastAction(
      p: Policy, mode: Mode, env: Environment, s0: AgentState, payments: map<string, Payment>)
    requires Initial(s0)
    ensures
      var r := Run(p, mode, env, s0, payments);
      r.Finished? ==> r.state.verification == Verdict(EffectsOf(r))
  {
    InvInitially(p, mode, s0, payments);
    RunJudges(p, mode, env, s0, RiskDetection, s0, World(payments, []));
  }
}
