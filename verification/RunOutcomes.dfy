/** How a finished run ends: the strategy, the policy decision and the escalation it leaves,
    told by the last decision among its effects. */
module RunOutcomes {
  import opened Wrappers
  import opened PolicyEngine
  import opened AgentGraph
  import opened AgentSafety
  import opened AgentTheorems

  /** The last decision of the policy engine, if there was one. */
  function LastDecision(e: seq<Effect>): (r: Option<Effect>)
    ensures r.Some? ==> r.value.Decided?
  {
    if e == [] then None
    else if e[|e| - 1].Decided? then Some(e[|e| - 1])
    else LastDecision(e[..|e| - 1])
  }

  lemma LastDecisionSnoc(e: seq<Effect>, x: Effect)
    ensures LastDecision(e + [x]) == if x.Decided? then Some(x) else LastDecision(e)
  {
  }

  /** The run goes past the risk check. */
  predicate Enters(s0: AgentState) {
    !s0.recovered && !s0.facts.alreadyPaid && s0.facts.amount > 0
  }

  predicate BeforeDecisions(n: Node) {
    n.ContextBuilder? || n.Diagnosis? || n.Strategise? || n.PolicyCheck?
  }

  /** The state remembers the last decision and the strategy it was about. */
  predicate Remembers(p: Policy, next: Option<Node>, s: AgentState, e: seq<Effect>) {
    && (next == Some(PolicyCheck) ==> s.strategy.Some?)
    && match LastDecision(e)
       case None => s.policyResult.None? && (s.strategy.None? || next == Some(PolicyCheck))
       case Some(x) =>
         && s.policyResult == Some(PolicyResult(x.decision, ReasonOf(Authorize(p, x.ctx))))
         && (next != Some(PolicyCheck) ==> s.strategy.Some? && ActionOf(s.strategy.value) == x.ctx.action)
  }

  /** Where a run can be with and without decisions. */
  predicate Entered(s0: AgentState, next: Option<Node>, s: AgentState) {
    match next
    case Some(RiskDetection) => s == s0 && Initial(s0)
    case Some(n) => if n.Completion? && s.policyResult.None? then !Enters(s0)
                    else Enters(s0) && (BeforeDecisions(n) || s.policyResult.Some?)
    case None => if s.policyResult.None? then !Enters(s0) else Enters(s0)
  }

  /** Why the run has escalated so far. */
  predicate Excused(s0: AgentState, next: Option<Node>, s: AgentState) {
    if s0.recovered then next != Some(RiskDetection) ==> s.escalationReason == Some(AlreadyRecovered)
    else
      match next
      case None =>
        s.escalationReason
        == if s.recovered || s.policyResult.None? then None else Some(s.policyResult.value.reason)
      case Some(Completion) =>
        if s.escalationReason.None? then
          s.recovered || s.policyResult.None? || s.policyResult.value.decision.Denied?
        else !s.recovered && s.policyResult.Some? && s.escalationReason == Some(s.policyResult.value.reason)
      case Some(n) => s.escalationReason.None? && !s.recovered
  }

  predicate Reported(p: Policy, s0: AgentState, next: Option<Node>, s: AgentState, e: seq<Effect>) {
    Remembers(p, next, s, e) && Entered(s0, next, s) && Excused(s0, next, s)
  }

  // ----- One visit

  lemma RiskReports(p: Policy, mode: Mode, s0: AgentState, s: AgentState, w: World, input: Input)
    requires Reported(p, s0, Some(RiskDetection), s, w.effects)
    ensures
      var (s', w') := Visit(p, mode, RiskDetection, s, w, input);
      Reported(p, s0, Route(RiskDetection, s'), s', w'.effects)
  {
  }

  lemma CompletionReports(p: Policy, mode: Mode, s0: AgentState, s: AgentState, w: World, input: Input)
    requires Reported(p, s0, Some(Completion), s, w.effects)
    ensures
      var (s', w') := Visit(p, mode, Completion, s, w, input);
      Reported(p, s0, None, s', w'.effects)
  {
  }

  lemma QuietReports(p: Policy, mode: Mode, s0: AgentState, n: Node, s: AgentState, w: World, input: Input)
    requires Reported(p, s0, Some(n), s, w.effects) && Quiet(n) && !n.RiskDetection? && !n.Completion?
    ensures
      var (s', w') := Visit(p, mode, n, s, w, input);
      Reported(p, s0, Route(n, s'), s', w'.effects)
  {
  }

  lemma CheckReports(p: Policy, mode: Mode, s0: AgentState, s: AgentState, w: World, input: Input)
    requires Reported(p, s0, Some(PolicyCheck), s, w.effects)
    ensures
      var (s', w') := Visit(p, mode, PolicyCheck, s, w, input);
      Reported(p, s0, Route(PolicyCheck, s'), s', w'.effects)
  {
    var ctx := ContextOf(s, s.strategy.value);
    LastDecisionSnoc(w.effects, Decided(ctx, Authorize(p, ctx).decision));
  }

  /** Actions and verifications leave what is reported alone. */
  predicate KeepsReport(s: AgentState, s': AgentState) {
    s'.strategy == s.strategy && s'.policyResult == s.policyResult && s'.escalationReason == s.escalationReason
  }

  lemma KeptReport(p: Policy, s0: AgentState, s: AgentState, e: seq<Effect>, s': AgentState, e': seq<Effect>)
    requires Reported(p, s0, Some(ActionExecution), s, e) && KeepsReport(s, s')
    requires LastDecision(e') == LastDecision(e) && !s'.recovered
    ensures Reported(p, s0, Some(Observation), s', e')
  {
  }

  lemma ActionReports(p: Policy, mode: Mode, s0: AgentState, s: AgentState, w: World, input: Input)
    requires Reported(p, s0, Some(ActionExecution), s, w.effects)
    requires s.policyResult.Some? && s.policyResult.value.decision.Approved?
    ensures
      var (s', w') := Visit(p, mode, ActionExecution, s, w, input);
      Reported(p, s0, Some(Observation), s', w'.effects)
  {
    var (s', w') := Visit(p, mode, ActionExecution, s, w, input);
    ActionActs(mode, s, w, input);
    LastDecisionSnoc(w.effects, ActionEffect(s));
    ActionKeepsReport(mode, s, w, input);
    KeptReport(p, s0, s, w.effects, s', w'.effects);
  }

  lemma ActionKeepsReport(mode: Mode, s: AgentState, w: World, input: Input)
    ensures
      var s' := ActionNode(mode, s, w, input).0;
      KeepsReport(s, s') && s'.recovered == s.recovered
  {
  }

  lemma VerificationKeepsReport(mode: Mode, s: AgentState, w: World, input: Input)
    ensures
      var (s', w') := VerifyNode(mode, s, w, input);
      KeepsReport(s, s') && LastDecision(w'.effects) == LastDecision(w.effects)
  {
    VerificationVerifies(mode, s, w, input);
    var w' := VerifyNode(mode, s, w, input).1;
    if w'.effects != w.effects {
      LastDecisionSnoc(w.effects, w'.effects[|w.effects|]);
    }
  }

  lemma VerifiedReport(p: Policy, s0: AgentState, s: AgentState, e: seq<Effect>, s': AgentState, e': seq<Effect>)
    requires Reported(p, s0, Some(Verification), s, e) && KeepsReport(s, s') && LastDecision(e') == LastDecision(e)
    ensures Reported(p, s0, Some(RouteAfterVerification(s')), s', e')
  {
  }

  lemma VerificationReports(p: Policy, mode: Mode, s0: AgentState, s: AgentState, w: World, input: Input)
    requires Reported(p, s0, Some(Verification), s, w.effects)
    ensures
      var (s', w') := Visit(p, mode, Verification, s, w, input);
      Reported(p, s0, Some(RouteAfterVerification(s')), s', w'.effects)
  {
    var (s', w') := Visit(p, mode, Verification, s, w, input);
    VerificationKeepsReport(mode, s, w, input);
    VerifiedReport(p, s0, s, w.effects, s', w'.effects);
  }

  lemma VisitReports(p: Policy, mode: Mode, s0: AgentState, n: Node, s: AgentState, w: World, input: Input)
    requires Armed(p, Some(n), s, w.effects) && Reported(p, s0, Some(n), s, w.effects)
    ensures
      var (s', w') := Visit(p, mode, n, s, w, input);
      Reported(p, s0, Route(n, s'), s', w'.effects)
  {
    match n
    case RiskDetection => RiskReports(p, mode, s0, s, w, input);
    case PolicyCheck => CheckReports(p, mode, s0, s, w, input);
    case ActionExecution => ActionReports(p, mode, s0, s, w, input);
    case Verification => VerificationReports(p, mode, s0, s, w, input);
    case Completion => CompletionReports(p, mode, s0, s, w, input);
    case _ => QuietReports(p, mode, s0, n, s, w, input);
  }

  ghost predicate Standing(p: Policy, mode: Mode, s0: AgentState, next: Option<Node>, s: AgentState, w: World) {
    Inv(p, mode, s0, next, s, w) && Reported(p, s0, next, s, w.effects)
  }

  lemma VisitStands(p: Policy, mode: Mode, s0: AgentState, n: Node, s: AgentState, w: World, input: Input)
    requires Standing(p, mode, s0, Some(n), s, w)
    ensures WellPlaced(n, s)
    ensures
      var (s', w') := Visit(p, mode, n, s, w, input);
      && Standing(p, mode, s0, Route(n, s'), s', w')
      && (Route(n, s').Some? ==>
            WellPlaced(Route(n, s').value, s') && VisitsLeft(Route(n, s').value, s') < VisitsLeft(n, s))
  {
    VisitKept(p, mode, s0, n, s, w, input);
    VisitReports(p, mode, s0, n, s, w, input);
    VisitDecreases(p, mode, n, s, w, input);
  }

  lemma {:induction false} RunStands(
      p: Policy, mode: Mode, env: Environment, s0: AgentState, n: Node, s: AgentState, w: World)
    requires Standing(p, mode, s0, Some(n), s, w) && WellPlaced(n, s)
    ensures
      var r := RunFrom(p, mode, env, n, s, w);
      r.Finished? ==> Standing(p, mode, s0, None, r.state, r.world)
    decreases VisitsLeft(n, s)
  {
    var input := env(|s.trace|);
    if !input.fault.FaultBefore? {
      var (s', w') := Visit(p, mode, n, s, w, input);
      VisitStands(p, mode, s0, n, s, w, input);
      if Route(n, s').Some? && !input.fault.FaultAfter? {
        RunStands(p, mode, env, s0, Route(n, s').value, s', w');
      }
    }
  }

  // ----- Whole runs

  /** The reason of a policy result: no rule fires, or the first one that does. */
  ghost predicate Explains(p: Policy, ctx: Context, reason: Reason) {
    match reason
    case AllChecksPassed => forall code :: !Fires(p, ctx, code)
    case Violated(code) => Fires(p, ctx, code) && forall other :: Fires(p, ctx, other) ==> Rank(code) <= Rank(other)
    case _ => false
  }

  lemma ReasonExplains(p: Policy, ctx: Context)
    ensures Explains(p, ctx, ReasonOf(Authorize(p, ctx)))
    ensures ReasonOf(Authorize(p, ctx)).AllChecksPassed? <==> Authorize(p, ctx).decision.Approved?
  {
    FirstFiringRuleDecides(p, ctx);
  }

  /** A finished run has made decisions iff it went past the risk check; it leaves the policy
      result of the last one and the strategy that one was about, and escalates - on a case
      already recovered, or for the reason of that decision - unless it recovers the case or
      was stopped by the risk check. */
  lemma FinishedRunReports(p: Policy, mode: Mode, env: Environment, s0: AgentState, payments: map<string, Payment>)
    requires Initial(s0)
    ensures
      var r := Run(p, mode, env, s0, payments);
      var last := LastDecision(EffectsOf(r));
      r.Finished? ==>
        && (last.Some? <==> Enters(s0))
        && (last.None? ==> r.state.policyResult.None? && r.state.strategy.None?)
        && (last.Some? ==>
              && r.state.policyResult.Some? && r.state.policyResult.value.decision == last.value.decision
              && Explains(p, last.value.ctx, r.state.policyResult.value.reason)
              && r.state.strategy.Some? && ActionOf(r.state.strategy.value) == last.value.ctx.action)
        && r.state.escalationReason
           == if s0.recovered then Some(AlreadyRecovered)
              else if r.state.recovered || last.None? then None
              else Some(r.state.policyResult.value.reason)
  {
    var last := LastDecision(EffectsOf(Run(p, mode, env, s0, payments)));
    if last.Some? {
      ReasonExplains(p, last.value.ctx);
    }
    InvInitially(p, mode, s0, payments);
    RunStands(p, mode, env, s0, RiskDetection, s0, World(payments, []));
  }

  // ----- The way to the end

  function DecisionOf(s: AgentState): Option<Decision> {
    if s.policyResult.None? then None else Some(s.policyResult.value.decision)
  }

  /** The node visited last before the end: a denial ends the run at once, a refusal of another
      kind and an action without a recovery by way of the escalation. */
  function Gate(s: AgentState): Node {
    if s.policyResult.None? then RiskDetection
    else if s.recovered then Verification
    else if DecisionOf(s) == Some(Denied) then PolicyCheck
    else Escalation
  }

  predicate Led(next: Option<Node>, s: AgentState) {
    match next
    case Some(RiskDetection) => s.policyResult.None?
    case Some(ActionExecution) => DecisionOf(s) == Some(Approved)
    case Some(Observation) => DecisionOf(s) == Some(Approved)
    case Some(Verification) => DecisionOf(s) == Some(Approved)
    case Some(Escalation) => s.policyResult.Some? && DecisionOf(s) != Some(Denied) && !s.recovered
    case Some(Completion) => s.trace != [] && s.trace[|s.trace| - 1] == Gate(s)
    case None => |s.trace| >= 2 && s.trace[|s.trace| - 2] == Gate(s)
    case _ => true
  }

  lemma VisitKeepsDecision(p: Policy, mode: Mode, n: Node, s: AgentState, w: World, input: Input)
    ensures
      var s' := Visit(p, mode, n, s, w, input).0;
      && (!n.PolicyCheck? ==> DecisionOf(s') == DecisionOf(s))
      && (n.PolicyCheck? ==> s'.policyResult.Some?)
      && (!n.Verification? ==> s'.recovered == s.recovered)
  {
    match n
    case PolicyCheck => PolicyChecks(p, s, w);
    case ActionExecution => ActionKeepsReport(mode, s, w, input);
    case Verification => VerificationKeepsReport(mode, s, w, input);
    case _ => QuietVisit(p, mode, n, s, w, input);
  }

  lemma VisitLeads(p: Policy, mode: Mode, n: Node, s: AgentState, w: World, input: Input)
    requires Led(Some(n), s) && (s.recovered ==> n.RiskDetection? || n.Completion?)
    ensures var s' := Visit(p, mode, n, s, w, input).0; Led(Route(n, s'), s')
  {
    VisitTraces(p, mode, n, s, w, input);
    VisitKeepsDecision(p, mode, n, s, w, input);
  }

  lemma {:induction false} RunLeads(
      p: Policy, mode: Mode, env: Environment, s0: AgentState, n: Node, s: AgentState, w: World)
    requires Inv(p, mode, s0, Some(n), s, w) && Led(Some(n), s)
    ensures
      var r := RunFrom(p, mode, env, n, s, w);
      r.Finished? ==> Led(None, r.state)
    decreases VisitsLeft(n, s)
  {
    var input := env(|s.trace|);
    if !input.fault.FaultBefore? {
      var (s', w') := Visit(p, mode, n, s, w, input);
      VisitKept(p, mode, s0, n, s, w, input);
      VisitLeads(p, mode, n, s, w, input);
      if Route(n, s').Some? && !input.fault.FaultAfter? {
        VisitDecreases(p, mode, n, s, w, input);
        RunLeads(p, mode, env, s0, Route(n, s').value, s', w');
      }
    }
  }

  /** How a finished run ends: after the risk check that stopped it, after the verification of
      a recovery, after a denial, or after an escalation. */
  lemma RunsEndThroughTheirGate(
      p: Policy, mode: Mode, env: Environment, s0: AgentState, payments: map<string, Payment>)
    requires Initial(s0)
    ensures
      var r := Run(p, mode, env, s0, payments);
      r.Finished? ==> |r.state.trace| >= 2 && r.state.trace[|r.state.trace| - 2] == Gate(r.state)
  {
    InvInitially(p, mode, s0, payments);
    RunLeads(p, mode, env, s0, RiskDetection, s0, World(payments, []));
  }
}
