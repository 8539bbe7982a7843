/** What the policy decides in the runs the backend executes: `execute_agent_run` passes on
    neither opt-out, suspension and earlier payment nor the time of the last attempt and the
    checkout timeout (backend/app/services/recovery_service.py:282-294). */
module ExecutionTheorems {
  import opened Wrappers
  import opened PolicyEngine
  import opened CaseStore
  import opened AgentGraph
  import opened AgentSafety
  import opened AgentScripts
  import opened AgentTheorems
  import opened RetrySpacing
  import ProtocolTheorems

  // ----- Settings without effect

  /** The policies agree on the five settings an execution depends on. */
  predicate SameInExecutions(p: Policy, q: Policy) {
    && p.maxRetries == q.maxRetries && p.maxAutoAmount == q.maxAutoAmount
    && p.maxMessagesPerCase == q.maxMessagesPerCase
    && p.escalateUnknown == q.escalateUnknown && p.lowConfidence == q.lowConfidence
  }

  /** The facts `make_initial_state` fills with its defaults. */
  predicate NothingKnown(f: Facts) {
    !f.optedOut && !f.suspended && !f.alreadyPaid && f.hoursSinceLast.None? && !f.timeoutElapsed
  }

  lemma SameDecision(p: Policy, q: Policy, s: AgentState, strategy: Strategy)
    requires SameInExecutions(p, q) && NothingKnown(s.facts)
    ensures Authorize(p, ContextOf(s, strategy)) == Authorize(q, ContextOf(s, strategy))
  {
  }

  lemma SameVisit(p: Policy, q: Policy, mode: Mode, n: Node, s: AgentState, w: World, input: Input)
    requires SameInExecutions(p, q) && NothingKnown(s.facts)
    ensures Visit(p, mode, n, s, w, input) == Visit(q, mode, n, s, w, input)
  {
    if n.PolicyCheck? && s.strategy.Some? {
      SameDecision(p, q, s, s.strategy.value);
    }
  }

  lemma {:induction false} SameRun(
      p: Policy, q: Policy, mode: Mode, env: Environment, n: Node, s: AgentState, w: World)
    requires SameInExecutions(p, q) && NothingKnown(s.facts) && WellPlaced(n, s)
    ensures RunFrom(p, mode, env, n, s, w) == RunFrom(q, mode, env, n, s, w)
    decreases VisitsLeft(n, s)
  {
    var input := env(|s.trace|);
    if !input.fault.FaultBefore? {
      var (s', w') := Visit(p, mode, n, s, w, input);
      SameVisit(p, q, mode, n, s, w, input);
      VisitSpendsReplans(p, mode, n, s, w, input);
      VisitDecreases(p, mode, n, s, w, input);
      if Route(n, s').Some? && !input.fault.FaultAfter? {
        SameRun(p, q, mode, env, Route(n, s').value, s', w');
      }
    }
  }

  /** Whatever a policy says on opt-out, suspension, earlier payments, the retry interval,
      the checkout amount and the checkout messages, executions do not depend on it. */
  lemma SettingsWithoutEffect(db: Db, r: nat, finalAttempt: bool, a: Attempt, q: Policy)
    requires RunsHaveCases(db) && r < |db.runs| && SameInExecutions(a.policy, q)
    ensures RunOf(db, r, a) == RunOf(db, r, a.(policy := q))
    ensures ExecuteRun(db, r, finalAttempt, a) == ExecuteRun(db, r, finalAttempt, a.(policy := q))
  {
    SameRun(a.policy, q, a.mode, a.env, RiskDetection, StartState(db.cases[db.runs[r].caseId]), World(map[], []));
  }

  /** No execution sends a checkout recovery message. */
  lemma NoCheckoutMessages(db: Db, r: nat, a: Attempt)
    requires RunsHaveCases(db) && r < |db.runs|
    ensures Count(RunOf(db, r, a).world.effects, CheckoutKind) == 0
  {
    var s0 := StartState(db.cases[db.runs[r].caseId]);
    if Count(RunOf(db, r, a).world.effects, CheckoutKind) > 0 {
      var i := CountedSomewhere(RunOf(db, r, a).world.effects, CheckoutKind);
      ActionMeetsTheRules(a.policy, a.mode, a.env, s0, map[], i);
    }
  }

  // ----- When there is an action at all

  function OnlyEscalations(): Environment {
    n => Input(NoFault, 1.0, EscalateToHuman, "000000000000", false, "", Payment("", Pending, 0))
  }

  lemma ApprovedMeansActed(p: Policy, mode: Mode, env: Environment, s: AgentState, w: World)
    requires HasApproval(s) && NoFaultUntil(env, |s.trace| + 2)
    ensures Count(RunFrom(p, mode, env, ActionExecution, s, w).world.effects, AnyAction) > 0
  {
    var s', w' := CarryOut(p, mode, env, s, w);
    CountSnoc(w.effects, ActionEffect(s));
    CountGrows(p, mode, env, Node.Verification, s', w', AnyAction);
  }

  lemma EscalationPasses(p: Policy, s: AgentState)
    requires s.confidence == Some(1.0) && !Barred(p, s.facts) && !s.recovered
    ensures Authorize(p, ContextOf(s, EscalateToHuman)).decision.Approved?
  {
  }

  lemma EscalationIsRecorded(p: Policy, mode: Mode, env: Environment, s: AgentState, w: World)
    requires s.confidence == Some(1.0) && !Barred(p, s.facts) && !s.recovered
    requires NoFaultUntil(env, |s.trace| + 4) && env(|s.trace|).strategy.EscalateToHuman?
    ensures Count(RunFrom(p, mode, env, Strategise, s, w).world.effects, AnyAction) > 0
  {
    EscalationPasses(p, s);
    var s', w' := Propose(p, mode, env, s, w);
    ApprovedMeansActed(p, mode, env, s', w');
  }

  /** The case and the policy leave room for an action. */
  predicate Actionable(p: Policy, s0: AgentState) {
    !Barred(p, s0.facts) && !s0.recovered && !s0.facts.alreadyPaid
  }

  /** The bars are the only ones: without them there is a run that acts. */
  lemma RunsActIff(p: Policy, mode: Mode, s0: AgentState, payments: map<string, Payment>)
    requires Initial(s0)
    ensures
      (exists env: Environment :: Count(EffectsOf(Run(p, mode, env, s0, payments)), AnyAction) > 0)
      <==> Actionable(p, s0)
  {
    if Actionable(p, s0) {
      var env := OnlyEscalations();
      Preamble(p, mode, env, s0, World(payments, []));
      EscalationIsRecorded(p, mode, env, Diagnosed(s0, 1.0), World(payments, []));
      assert Count(EffectsOf(Run(p, mode, env, s0, payments)), AnyAction) > 0;
    } else {
      forall env: Environment ensures Count(EffectsOf(Run(p, mode, env, s0, payments)), AnyAction) == 0 {
        NothingToDo(p, mode, env, s0, payments);
      }
    }
  }

  lemma NothingToDo(p: Policy, mode: Mode, env: Environment, s0: AgentState, payments: map<string, Payment>)
    requires Initial(s0) && !Actionable(p, s0)
    ensures Count(EffectsOf(Run(p, mode, env, s0, payments)), AnyAction) == 0
  {
    if Barred(p, s0.facts) {
      NoActionWhenBarred(p, mode, env, s0, payments);
    } else {
      SettledCasesAreLeftAlone(p, mode, env, s0, payments);
    }
    if Count(EffectsOf(Run(p, mode, env, s0, payments)), AnyAction) > 0 {
      var i := CountedSomewhere(EffectsOf(Run(p, mode, env, s0, payments)), AnyAction);
    }
  }

  /** An execution can act on any unrecovered case of a known reason whose amount is positive
      and within the limit: opt-out, suspension and earlier payments do not bar it. */
  lemma ExecutionsActIff(db: Db, r: nat, p: Policy, mode: Mode, base16: string -> bool)
    requires RunsHaveCases(db) && r < |db.runs|
    ensures
      var k := db.cases[db.runs[r].caseId];
      (exists env: Environment ::
         Count(RunOf(db, r, Attempt(p, mode, env, base16)).world.effects, AnyAction) > 0)
      <==> && !k.recovered && 0 < k.amountAtRisk <= p.maxAutoAmount
           && !(p.escalateUnknown && k.reason.UnknownFailure?)
  {
    var s0 := StartState(db.cases[db.runs[r].caseId]);
    RunsActIff(p, mode, s0, map[]);
    forall env: Environment
      ensures RunOf(db, r, Attempt(p, mode, env, base16)) == Run(p, mode, env, s0, map[])
    {
    }
  }

  // ----- The retries of one execution

  /** An execution can make four retries, one in each of its rounds, if the policy leaves it so
      many. */
  lemma ExecutionRetryBound(k: Case, p: Policy)
    ensures MostRetries(p, StartState(k))
         == if RetryApprovable(p, StartState(k)) then Min(p.maxRetries - k.retryCount, 4) else 0
  {
  }

  /** With the default policy and any retry interval the first run of a fresh case can make
      all three retries, one right after the other. */
  lemma DefaultRunRetriesThrice(mode: Mode, event: FailureEvent, score: real, hours: int, limit: nat)
    requires limit >= 19 && 0 < event.amount <= 5000000 && !event.reason.UnknownFailure?
    ensures
      var p := ProtocolTheorems.DEFAULT_POLICY.(minRetryIntervalHours := hours);
      var s0 := StartState(FreshCase(event, score));
      Count(EffectsOf(Run(p, mode, FailedRetries(limit), s0, map[])), AnyRetry) == 3
  {
    var p := ProtocolTheorems.DEFAULT_POLICY.(minRetryIntervalHours := hours);
    var s0 := StartState(FreshCase(event, score));
    ProtocolTheorems.DefaultPolicyApproves(event, score);
    SameDecision(p, ProtocolTheorems.DEFAULT_POLICY, s0.(confidence := Some(1.0)), RetryNow);
    FailedRetriesReachTheBound(p, mode, limit, s0, map[]);
  }
}
