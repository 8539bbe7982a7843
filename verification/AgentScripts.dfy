/** Driving a run along a script: what the visits do while no fault strikes. */
module AgentScripts {
  import opened Wrappers
  import opened PolicyEngine
  import opened AgentGraph
  import opened AgentSafety

  lemma Step(p: Policy, mode: Mode, env: Environment, n: Node, s: AgentState, w: World)
    requires WellPlaced(n, s) && env(|s.trace|).fault.NoFault?
    ensures
      var (s', w') := Visit(p, mode, n, s, w, env(|s.trace|));
      && (Route(n, s').Some? ==> WellPlaced(Route(n, s').value, s'))
      && RunFrom(p, mode, env, n, s, w)
         == match Route(n, s')
            case None => Finished(s', w')
            case Some(next) => RunFrom(p, mode, env, next, s', w')
  {
  }

  ghost predicate NoFaultUntil(env: Environment, n: nat) {
    forall i: nat :: i < n ==> env(i).fault.NoFault?
  }

  /** The state in which the first strategy is asked for. */
  function Diagnosed(s0: AgentState, confidence: Confidence): AgentState {
    s0.(trace := [RiskDetection, ContextBuilder, Diagnosis], log := [RiskDetection, ContextBuilder, Diagnosis],
        confidence := Some(confidence))
  }

  function Visited(s: AgentState, n: Node): AgentState {
    s.(trace := s.trace + [n], log := s.log + [n])
  }

  lemma RiskPasses(p: Policy, mode: Mode, env: Environment, s: AgentState, w: World)
    requires !s.recovered && !s.facts.alreadyPaid && s.facts.amount > 0 && !s.stopped && !s.error
    requires env(|s.trace|).fault.NoFault?
    ensures RunFrom(p, mode, env, RiskDetection, s, w)
         == RunFrom(p, mode, env, ContextBuilder, Visited(s, RiskDetection), w)
  {
    Step(p, mode, env, RiskDetection, s, w);
  }

  lemma ContextPasses(p: Policy, mode: Mode, env: Environment, s: AgentState, w: World)
    requires env(|s.trace|).fault.NoFault?
    ensures RunFrom(p, mode, env, ContextBuilder, s, w)
         == RunFrom(p, mode, env, Diagnosis, Visited(s, ContextBuilder), w)
  {
    Step(p, mode, env, ContextBuilder, s, w);
  }

  lemma DiagnosisPasses(p: Policy, mode: Mode, env: Environment, s: AgentState, w: World)
    requires env(|s.trace|).fault.NoFault?
    ensures RunFrom(p, mode, env, Diagnosis, s, w)
         == RunFrom(p, mode, env, Strategise, Visited(s, Diagnosis).(confidence := Some(env(|s.trace|).confidence)), w)
  {
    Step(p, mode, env, Diagnosis, s, w);
  }

  lemma Preamble(p: Policy, mode: Mode, env: Environment, s0: AgentState, w: World)
    requires Initial(s0) && !s0.recovered && !s0.facts.alreadyPaid && s0.facts.amount > 0
    requires NoFaultUntil(env, 3)
    ensures RunFrom(p, mode, env, RiskDetection, s0, w)
         == RunFrom(p, mode, env, Strategise, Diagnosed(s0, env(2).confidence), w)
  {
    var s1 := Visited(s0, RiskDetection);
    var s2 := Visited(s1, ContextBuilder);
    RiskPasses(p, mode, env, s0, w);
    ContextPasses(p, mode, env, s1, w);
    DiagnosisPasses(p, mode, env, s2, w);
    assert Visited(s2, Diagnosis).(confidence := Some(env(2).confidence)) == Diagnosed(s0, env(2).confidence);
  }

  predicate PaysNow(s: AgentState) {
    s.execution.Some? && s.execution.value.PaymentRetry?
  }

  /** The state that goes into the next round. */
  function Replanned(s: AgentState): AgentState {
    Visited(s, Replan).(replans := s.replans + 1)
  }

  lemma {:induction false} ReplanGoesOn(p: Policy, mode: Mode, env: Environment, s: AgentState, w: World)
    requires s.replans < s.facts.maxReplans && env(|s.trace|).fault.NoFault?
    ensures RunFrom(p, mode, env, Replan, s, w) == RunFrom(p, mode, env, Strategise, Replanned(s), w)
  {
    Step(p, mode, env, Replan, s, w);
  }

  /** Nothing but strategy, policy result and trace changed. */
  predicate OnlyProposed(s: AgentState, s': AgentState) {
    && s'.facts == s.facts && s'.retryCount == s.retryCount && s'.communicationCount == s.communicationCount
    && s'.checkoutMessages == s.checkoutMessages && s'.recovered == s.recovered
    && s'.confidence == s.confidence && s'.replans == s.replans
  }

  /** A strategy is proposed and goes through the policy check. */
  lemma Propose(p: Policy, mode: Mode, env: Environment, s: AgentState, w: World)
    returns (s': AgentState, w': World)
    requires env(|s.trace|).fault.NoFault? && env(|s.trace| + 1).fault.NoFault?
    ensures
      var strategy := env(|s.trace|).strategy;
      var decision := Authorize(p, ContextOf(s, strategy)).decision;
      && OnlyProposed(s, s') && |s'.trace| == |s.trace| + 2
      && s'.strategy == Some(strategy) && s'.policyResult.Some? && s'.policyResult.value.decision == decision
      && w'.effects == w.effects + [Decided(ContextOf(s, strategy), decision)]
    ensures RunFrom(p, mode, env, Strategise, s, w) == RunFrom(p, mode, env, RouteAfterPolicy(s'), s', w')
  {
    var (s1, w1) := Visit(p, mode, Strategise, s, w, env(|s.trace|));
    Step(p, mode, env, Strategise, s, w);
    var input := env(|s1.trace|);
    s', w' := Visit(p, mode, PolicyCheck, s1, w1, input).0, Visit(p, mode, PolicyCheck, s1, w1, input).1;
    PolicyChecks(p, s1, w1);
    Step(p, mode, env, PolicyCheck, s1, w1);
    assert ContextOf(s1, env(|s.trace|).strategy) == ContextOf(s, env(|s.trace|).strategy);
  }

  predicate HasApproval(s: AgentState) {
    s.strategy.Some? && s.policyResult.Some? && s.policyResult.value.decision.Approved?
  }

  lemma ObservationPasses(p: Policy, mode: Mode, env: Environment, s: AgentState, w: World)
    requires env(|s.trace|).fault.NoFault?
    ensures RunFrom(p, mode, env, Observation, s, w) == RunFrom(p, mode, env, Verification, Visited(s, Observation), w)
  {
    Step(p, mode, env, Observation, s, w);
  }

  /** What is known of the transaction of a retry: the simulator has stored its outcome, any
      other provider has named it. */
  predicate Answered(mode: Mode, s: AgentState, w: World, input: Input) {
    PaysNow(s) ==>
      var id := s.execution.value.transactionId;
      match mode
      case Simulator => id != "" && id in w.payments && w.payments[id].status.Success? == input.charged
      case External => id == input.retryId
  }

  lemma ActionAnswers(mode: Mode, s: AgentState, w: World, input: Input)
    requires HasApproval(s)
    ensures var (s', w') := ActionNode(mode, s, w, input); Answered(mode, s', w', input)
  {
  }

  /** An approved strategy is carried out and observed. */
  lemma CarryOut(p: Policy, mode: Mode, env: Environment, s: AgentState, w: World)
    returns (s': AgentState, w': World)
    requires HasApproval(s) && env(|s.trace|).fault.NoFault? && env(|s.trace| + 1).fault.NoFault?
    ensures Acted(mode, s, w, s', w') && s'.confidence == s.confidence && |s'.trace| == |s.trace| + 2
    ensures s'.execution.value.PaymentRetry? <==> ActionEffect(s).RetryCalled?
    ensures Answered(mode, s', w', env(|s.trace|))
    ensures RunFrom(p, mode, env, ActionExecution, s, w) == RunFrom(p, mode, env, Verification, s', w')
  {
    var (s1, w1) := Visit(p, mode, ActionExecution, s, w, env(|s.trace|));
    ActionActs(mode, s, w, env(|s.trace|));
    ActionAnswers(mode, s, w, env(|s.trace|));
    RetriesArePaymentRetries(mode, s, w, env(|s.trace|));
    ActionTraces(mode, s, w, env(|s.trace|));
    Step(p, mode, env, ActionExecution, s, w);
    ObservationPasses(p, mode, env, s1, w1);
    s', w' := Visited(s1, Observation), w1;
  }

  lemma RetryEffect(s: AgentState)
    requires s.strategy.Some? && IsRetryStrategy(s.strategy.value)
    ensures ActionEffect(s) == RetryCalled(s.strategy.value, s.retryCount + 1)
  {
  }

  /** A retry is carried out, and the run fails before its verification. */
  lemma RetryUnverified(p: Policy, mode: Mode, env: Environment, s: AgentState, w: World) returns (w': World)
    requires HasApproval(s) && env(|s.trace|).fault.NoFault? && env(|s.trace| + 1).fault.NoFault?
    requires env(|s.trace| + 2).fault.FaultBefore?
    ensures RunFrom(p, mode, env, ActionExecution, s, w) == Raised(w') && w'.effects == w.effects + [ActionEffect(s)]
  {
    var s';
    s', w' := CarryOut(p, mode, env, s, w);
    FaultAtVerification(p, mode, env, s', w');
  }

  lemma FaultAtVerification(p: Policy, mode: Mode, env: Environment, s: AgentState, w: World)
    requires env(|s.trace|).fault.FaultBefore?
    ensures RunFrom(p, mode, env, Verification, s, w) == Raised(w)
  {
  }
}
