/** How far `max_messages_per_case` limits the messages of a run, and what a limit on the
    steps of the graph, as LangGraph sets one, changes about that. */
module MessageLimit {
  import opened Wrappers
  import opened PolicyEngine
  import opened AgentGraph
  import opened AgentSafety
  import opened AgentScripts
  import opened AgentTheorems

  /** The run raises when it has taken `limit` steps without reaching the end. */
  ghost predicate StepLimited(env: Environment, limit: nat) {
    forall n: nat :: n >= limit ==> env(n).fault.FaultBefore?
  }

  lemma {:induction false} LimitedFrom(
      p: Policy, mode: Mode, env: Environment, limit: nat, n: Node, s: AgentState, w: World)
    requires StepLimited(env, limit) && WellPlaced(n, s)
    ensures
      var r := RunFrom(p, mode, env, n, s, w);
      r.Finished? ==> |r.state.trace| <= limit
    decreases VisitsLeft(n, s)
  {
    var input := env(|s.trace|);
    if !input.fault.FaultBefore? {
      var (s', w') := Visit(p, mode, n, s, w, input);
      VisitTraces(p, mode, n, s, w, input);
      VisitDecreases(p, mode, n, s, w, input);
      if Route(n, s').Some? && !input.fault.FaultAfter? {
        LimitedFrom(p, mode, env, limit, Route(n, s').value, s', w');
      }
    }
  }

  // ----- Messages take their time

  function Rounds(s0: AgentState): nat {
    Max(0, s0.facts.maxReplans)
  }

  /** How long a run must be by the time its messages are sent: a round of five visits and
      a replan for each, and what it takes to end. */
  predicate Slow(s0: AgentState, next: Option<Node>, s: AgentState, e: seq<Effect>) {
    var m, n, r := Count(e, AnyMessage), |s.trace|, s.replans;
    && r >= 0
    && match next
       case None => m == 0 || (n >= 6 * r + 6 && m <= r) || (n >= 6 * r + 10 && m <= r + 1 && r >= Rounds(s0))
       case Some(RiskDetection) => m == 0 && r == 0
       case Some(ContextBuilder) => m == 0 && r == 0 && n >= 1
       case Some(Diagnosis) => m == 0 && r == 0 && n >= 2
       case Some(Strategise) => m <= r && n >= 6 * r + 3
       case Some(PolicyCheck) => m <= r && n >= 6 * r + 4
       case Some(ActionExecution) => m <= r && n >= 6 * r + 5
       case Some(Observation) => m <= r + 1 && n >= 6 * r + 6 && (PaysNow(s) ==> m <= r)
       case Some(Verification) => m <= r + 1 && n >= 6 * r + 7 && (PaysNow(s) ==> m <= r)
       case Some(Replan) => m <= r + 1 && n >= 6 * r + 8
       case Some(Escalation) => (m <= r && n >= 6 * r + 5) || (m <= r + 1 && n >= 6 * r + 8 && r >= Rounds(s0))
       case Some(Completion) =>
         m == 0 || (m <= r && n >= 6 * r + 5) || (m <= r + 1 && n >= 6 * r + 9 && r >= Rounds(s0))
  }

  lemma QuietIsSlow(p: Policy, mode: Mode, s0: AgentState, n: Node, s: AgentState, w: World, input: Input)
    requires Inv(p, mode, s0, Some(n), s, w) && Slow(s0, Some(n), s, w.effects) && Quiet(n)
    ensures var (s', w') := Visit(p, mode, n, s, w, input); Slow(s0, Route(n, s'), s', w'.effects)
  {
    QuietVisit(p, mode, n, s, w, input);
    VisitTraces(p, mode, n, s, w, input);
    VisitSpendsReplans(p, mode, n, s, w, input);
  }

  lemma CheckIsSlow(p: Policy, mode: Mode, s0: AgentState, s: AgentState, w: World, input: Input)
    requires Slow(s0, Some(PolicyCheck), s, w.effects)
    ensures
      var (s', w') := Visit(p, mode, PolicyCheck, s, w, input);
      Slow(s0, Route(PolicyCheck, s'), s', w'.effects)
  {
    PolicyChecks(p, s, w);
    VisitTraces(p, mode, PolicyCheck, s, w, input);
    if s.strategy.Some? {
      var ctx := ContextOf(s, s.strategy.value);
      CountSnoc(w.effects, Decided(ctx, Authorize(p, ctx).decision));
    }
  }

  lemma ActionIsSlow(p: Policy, mode: Mode, s0: AgentState, s: AgentState, w: World, input: Input)
    requires Inv(p, mode, s0, Some(ActionExecution), s, w) && Slow(s0, Some(ActionExecution), s, w.effects)
    ensures
      var (s', w') := Visit(p, mode, ActionExecution, s, w, input);
      Slow(s0, Some(Observation), s', w'.effects)
  {
    ActionActs(mode, s, w, input);
    RetriesArePaymentRetries(mode, s, w, input);
    VisitTraces(p, mode, ActionExecution, s, w, input);
    CountSnoc(w.effects, ActionEffect(s));
  }

  lemma {:induction false} VerificationIsSlow(
      p: Policy, mode: Mode, s0: AgentState, s: AgentState, w: World, input: Input)
    requires Inv(p, mode, s0, Some(Verification), s, w) && Slow(s0, Some(Verification), s, w.effects)
    ensures
      var (s', w') := Visit(p, mode, Verification, s, w, input);
      Slow(s0, Route(Verification, s'), s', w'.effects)
  {
    VerificationVerifies(mode, s, w, input);
    VisitTraces(p, mode, Verification, s, w, input);
    var w' := Visit(p, mode, Verification, s, w, input).1;
    if w'.effects != w.effects {
      CountSnoc(w.effects, w'.effects[|w.effects|]);
    }
  }

  lemma {:induction false} SlowFrom(
      p: Policy, mode: Mode, env: Environment, s0: AgentState, n: Node, s: AgentState, w: World)
    requires Inv(p, mode, s0, Some(n), s, w) && Slow(s0, Some(n), s, w.effects)
    ensures
      var r := RunFrom(p, mode, env, n, s, w);
      r.Finished? ==> Slow(s0, None, r.state, r.world.effects)
    decreases VisitsLeft(n, s)
  {
    var input := env(|s.trace|);
    if !input.fault.FaultBefore? {
      var (s', w') := Visit(p, mode, n, s, w, input);
      VisitKept(p, mode, s0, n, s, w, input);
      VisitDecreases(p, mode, n, s, w, input);
      VisitIsSlow(p, mode, s0, n, s, w, input);
      if Route(n, s').Some? && !input.fault.FaultAfter? {
        SlowFrom(p, mode, env, s0, Route(n, s').value, s', w');
      }
    }
  }

  lemma VisitIsSlow(p: Policy, mode: Mode, s0: AgentState, n: Node, s: AgentState, w: World, input: Input)
    requires Inv(p, mode, s0, Some(n), s, w) && Slow(s0, Some(n), s, w.effects)
    ensures var (s', w') := Visit(p, mode, n, s, w, input); Slow(s0, Route(n, s'), s', w'.effects)
  {
    match n
    case PolicyCheck => CheckIsSlow(p, mode, s0, s, w, input);
    case ActionExecution => ActionIsSlow(p, mode, s0, s, w, input);
    case Verification => VerificationIsSlow(p, mode, s0, s, w, input);
    case _ => QuietIsSlow(p, mode, s0, n, s, w, input);
  }

  /** The least number of visits of a finished run with `m` messages: with replans left it
      takes a refusal to end it, and without an escalation. */
  function VisitsFor(m: nat, rounds: nat): nat {
    if m <= rounds then 6 * m + 6 else 6 * m + 4
  }

  /** A finished run of `m` messages has replanned after all but the last of them. */
  lemma MessagesTakeVisits(p: Policy, mode: Mode, env: Environment, s0: AgentState, payments: map<string, Payment>)
    requires Initial(s0)
    ensures
      var r := Run(p, mode, env, s0, payments);
      var m := Count(EffectsOf(r), AnyMessage);
      r.Finished? && m > 0 ==> m <= Rounds(s0) + 1 && |r.state.trace| >= VisitsFor(m, Rounds(s0))
  {
    RunInv(p, mode, env, s0, payments);
    InvInitially(p, mode, s0, payments);
    SlowFrom(p, mode, env, s0, RiskDetection, s0, World(payments, []));
  }

  // ----- Method updates pass the gate

  /** Payment-method-update messages pass the gate whatever the message count. */
  predicate UpdateApprovable(p: Policy, s0: AgentState) {
    && !s0.facts.alreadyPaid
    && Authorize(p, ContextOf(s0.(confidence := Some(1.0)), PaymentMethodUpdate)).decision.Approved?
  }

  predicate WithinMessageLimit(
      p: Policy, mode: Mode, env: Environment, s0: AgentState, payments: map<string, Payment>)
  {
    var r := Run(p, mode, env, s0, payments);
    r.Finished? ==> r.state.communicationCount <= Max(s0.communicationCount, p.maxMessagesPerCase)
  }

  lemma UpdatesNeedApproval(p: Policy, mode: Mode, env: Environment, s0: AgentState, payments: map<string, Payment>)
    requires Initial(s0)
    ensures Count(EffectsOf(Run(p, mode, env, s0, payments)), MethodUpdateKind) > 0 ==> UpdateApprovable(p, s0)
  {
    var e := EffectsOf(Run(p, mode, env, s0, payments));
    if s0.facts.alreadyPaid || s0.recovered {
      SettledCasesAreLeftAlone(p, mode, env, s0, payments);
    } else if Count(e, MethodUpdateKind) > 0 {
      RunInv(p, mode, env, s0, payments);
      var i := CountedSomewhere(e, MethodUpdateKind);
      assert Licensed(p, s0, e, i);
    }
  }

  /** `k` method updates, and reminders from then on. */
  function UpdatesThenReminders(k: nat, limit: nat): Environment {
    n => Input(if n < limit then NoFault else FaultBefore, 1.0,
               if n < 6 * k + 3 then PaymentMethodUpdate else Reminder,
               "000000000000", false, "", Payment("", Pending, 0))
  }

  lemma MessageNotFetched(mode: Mode, s: AgentState, w: World, input: Input)
    requires s.execution.Some? && !PaysNow(s)
    ensures var (s', w') := VerifyNode(mode, s, w, input); OnlyProposed(s, s') && w' == w
  {
  }

  /** A message is observed without a recovery. */
  lemma MessageVerified(p: Policy, mode: Mode, env: Environment, s: AgentState, w: World)
    returns (s': AgentState, w': World)
    requires NoFaultUntil(env, |s.trace| + 1) && !s.recovered && s.execution.Some? && !PaysNow(s)
    ensures
      && OnlyProposed(s, s') && |s'.trace| == |s.trace| + 1 && w' == w
      && RunFrom(p, mode, env, Verification, s, w) == RunFrom(p, mode, env, RouteAfterVerification(s'), s', w')
  {
    s', w' := Visit(p, mode, Verification, s, w, env(|s.trace|)).0, w;
    MessageNotFetched(mode, s, w, env(|s.trace|));
    VerifyTraces(mode, s, w, env(|s.trace|));
    Step(p, mode, env, Verification, s, w);
  }

  lemma UpdateSent(p: Policy, mode: Mode, env: Environment, s: AgentState, w: World)
    returns (s': AgentState, w': World)
    requires HasApproval(s) && s.strategy == Some(PaymentMethodUpdate) && !s.recovered
    requires NoFaultUntil(env, |s.trace| + 3)
    ensures
      && s'.confidence == s.confidence && s'.facts == s.facts && !s'.recovered && s'.replans == s.replans
      && s'.communicationCount == s.communicationCount + 1 && |s'.trace| == |s.trace| + 3
      && s'.retryCount == s.retryCount && s'.checkoutMessages == s.checkoutMessages
    ensures RunFrom(p, mode, env, ActionExecution, s, w) == RunFrom(p, mode, env, RouteAfterVerification(s'), s', w')
  {
    var s1, w1 := CarryOut(p, mode, env, s, w);
    s', w' := MessageVerified(p, mode, env, s1, w1);
  }

  /** The gate looks at the case and the retry and checkout counters of an update only. */
  lemma UpdatesStayApprovable(p: Policy, s: AgentState, s': AgentState)
    requires s.confidence == Some(1.0) && UpdateApprovable(p, s) && s'.facts == s.facts && !s'.recovered
    requires s'.confidence == s.confidence
    ensures UpdateApprovable(p, s') && Authorize(p, ContextOf(s, PaymentMethodUpdate)).decision.Approved?
  {
    assert ContextOf(s, PaymentMethodUpdate) == ContextOf(s.(confidence := Some(1.0)), PaymentMethodUpdate);
  }

  lemma UpdateRound(p: Policy, mode: Mode, env: Environment, s: AgentState, w: World)
    returns (s': AgentState, w': World)
    requires s.confidence == Some(1.0) && UpdateApprovable(p, s) && !s.recovered
    requires env(|s.trace|).strategy.PaymentMethodUpdate? && NoFaultUntil(env, |s.trace| + 5)
    ensures
      && s'.confidence == s.confidence && s'.facts == s.facts && !s'.recovered && s'.replans == s.replans
      && s'.communicationCount == s.communicationCount + 1 && |s'.trace| == |s.trace| + 5
    ensures UpdateApprovable(p, s')
    ensures RunFrom(p, mode, env, Strategise, s, w) == RunFrom(p, mode, env, RouteAfterVerification(s'), s', w')
  {
    UpdatesStayApprovable(p, s, s);
    var s1, w1 := Propose(p, mode, env, s, w);
    s', w' := UpdateSent(p, mode, env, s1, w1);
    UpdatesStayApprovable(p, s, s');
  }

  /** Past the message limit a reminder is denied where an update would pass. */
  lemma ReminderIsDenied(p: Policy, s: AgentState)
    requires s.confidence == Some(1.0) && UpdateApprovable(p, s) && s.communicationCount >= p.maxMessagesPerCase
    ensures Authorize(p, ContextOf(s, Reminder)).decision.Denied? && !s.recovered
  {
  }

  lemma RefusedReminder(p: Policy, mode: Mode, env: Environment, s: AgentState, w: World)
    requires s.confidence == Some(1.0) && UpdateApprovable(p, s) && s.communicationCount >= p.maxMessagesPerCase
    requires env(|s.trace|).strategy.Reminder? && NoFaultUntil(env, |s.trace| + 3)
    ensures
      var r := RunFrom(p, mode, env, Strategise, s, w);
      r.Finished? && r.state.communicationCount == s.communicationCount && |r.state.trace| == |s.trace| + 3
  {
    ReminderIsDenied(p, s);
    var s1, w1 := Propose(p, mode, env, s, w);
    Step(p, mode, env, Completion, s1, w1);
  }

  lemma EscalationEnds(p: Policy, mode: Mode, env: Environment, s: AgentState, w: World)
    requires env(|s.trace|).fault.NoFault? && env(|s.trace| + 1).fault.NoFault?
    ensures
      var r := RunFrom(p, mode, env, Escalation, s, w);
      r.Finished? && r.state.communicationCount == s.communicationCount && |r.state.trace| == |s.trace| + 2
  {
    var (s1, w1) := Visit(p, mode, Escalation, s, w, env(|s.trace|));
    Step(p, mode, env, Escalation, s, w);
    Step(p, mode, env, Completion, s1, w1);
  }

  /** From the round after `s.replans` on, `k` updates are sent in all. */
  lemma {:induction false} UpdateRounds(p: Policy, mode: Mode, k: nat, limit: nat, s: AgentState, w: World)
    requires s.confidence == Some(1.0) && UpdateApprovable(p, s) && !s.recovered
    requires 0 <= s.replans < k <= Rounds(s) + 1 && |s.trace| == 6 * s.replans + 3
    requires VisitsFor(k, Rounds(s)) <= limit && s.communicationCount + k - s.replans >= p.maxMessagesPerCase
    ensures
      var r := RunFrom(p, mode, UpdatesThenReminders(k, limit), Strategise, s, w);
      && r.Finished? && r.state.communicationCount == s.communicationCount + k - s.replans
      && |r.state.trace| == VisitsFor(k, Rounds(s))
    decreases k - s.replans
  {
    var env := UpdatesThenReminders(k, limit);
    var s1, w1 := UpdateRound(p, mode, env, s, w);
    if s.replans < s.facts.maxReplans {
      ReplanGoesOn(p, mode, env, s1, w1);
      var s2 := Replanned(s1);
      UpdatesStayApprovable(p, s1, s2);
      if s2.replans < k {
        UpdateRounds(p, mode, k, limit, s2, w1);
      } else {
        RefusedReminder(p, mode, env, s2, w1);
      }
    } else {
      EscalationEnds(p, mode, env, s1, w1);
    }
  }

  lemma UpdateRun(p: Policy, mode: Mode, k: nat, limit: nat, s0: AgentState, payments: map<string, Payment>)
    requires Initial(s0) && UpdateApprovable(p, s0)
    requires 0 < k <= Rounds(s0) + 1 && VisitsFor(k, Rounds(s0)) <= limit
    requires s0.communicationCount + k >= p.maxMessagesPerCase
    ensures
      var r := Run(p, mode, UpdatesThenReminders(k, limit), s0, payments);
      && r.Finished? && r.state.communicationCount == s0.communicationCount + k
      && |r.state.trace| == VisitsFor(k, Rounds(s0))
  {
    Preamble(p, mode, UpdatesThenReminders(k, limit), s0, World(payments, []));
    var s := Diagnosed(s0, 1.0);
    assert ContextOf(s.(confidence := Some(1.0)), PaymentMethodUpdate)
        == ContextOf(s0.(confidence := Some(1.0)), PaymentMethodUpdate);
    UpdateRounds(p, mode, k, limit, s, World(payments, []));
  }

  /** With only method updates proposed the agent uses every round it has: the visit bound
      is reached exactly when the step limit allows it. */
  lemma OnlyMethodUpdatesRunsLong(p: Policy, mode: Mode, limit: nat, s0: AgentState, payments: map<string, Payment>)
    requires Initial(s0) && UpdateApprovable(p, s0)
    requires s0.communicationCount + Rounds(s0) + 1 >= p.maxMessagesPerCase
    ensures
      var r := Run(p, mode, UpdatesThenReminders(Rounds(s0) + 1, limit), s0, payments);
      && (r.Finished? && |r.state.trace| == VisitBound(s0) <==> limit >= VisitBound(s0))
      && (limit >= VisitBound(s0) ==> r.state.communicationCount == s0.communicationCount + Rounds(s0) + 1)
  {
    if limit >= VisitBound(s0) {
      UpdateRun(p, mode, Rounds(s0) + 1, limit, s0, payments);
    } else {
      LimitedFrom(p, mode, UpdatesThenReminders(Rounds(s0) + 1, limit), limit, RiskDetection, s0, World(payments, []));
    }
  }

  // ----- When the limit holds

  /** The least number of messages that passes the limit. */
  function Excess(p: Policy, s0: AgentState): nat {
    Max(1, p.maxMessagesPerCase - s0.communicationCount + 1)
  }

  lemma ExcessTakesVisits(p: Policy, mode: Mode, env: Environment, s0: AgentState, payments: map<string, Payment>)
    requires Initial(s0) && !WithinMessageLimit(p, mode, env, s0, payments)
    ensures UpdateApprovable(p, s0) && Excess(p, s0) <= Rounds(s0) + 1
    ensures |Run(p, mode, env, s0, payments).state.trace| >= VisitsFor(Excess(p, s0), Rounds(s0))
  {
    RunInv(p, mode, env, s0, payments);
    MessagesTakeVisits(p, mode, env, s0, payments);
    UpdatesNeedApproval(p, mode, env, s0, payments);
  }

  /** Under a step limit, `max_messages_per_case` bounds `communication_count` for every
      behaviour of the language model exactly when method updates are not approvable, when
      the rounds do not suffice to pass it, or when the steps do not. */
  lemma MessageLimitUnderStepLimitIff(
      p: Policy, mode: Mode, limit: nat, s0: AgentState, payments: map<string, Payment>)
    requires Initial(s0)
    ensures
      (forall env: Environment :: StepLimited(env, limit) ==> WithinMessageLimit(p, mode, env, s0, payments)) <==>
      (|| !UpdateApprovable(p, s0) || Excess(p, s0) > Rounds(s0) + 1
       || limit < VisitsFor(Excess(p, s0), Rounds(s0)))
  {
    var k := Excess(p, s0);
    if UpdateApprovable(p, s0) && k <= Rounds(s0) + 1 && VisitsFor(k, Rounds(s0)) <= limit {
      UpdateRun(p, mode, k, limit, s0, payments);
      assert StepLimited(UpdatesThenReminders(k, limit), limit);
      assert !WithinMessageLimit(p, mode, UpdatesThenReminders(k, limit), s0, payments);
    } else {
      forall env: Environment | StepLimited(env, limit) ensures WithinMessageLimit(p, mode, env, s0, payments) {
        if !WithinMessageLimit(p, mode, env, s0, payments) {
          ExcessTakesVisits(p, mode, env, s0, payments);
          LimitedFrom(p, mode, env, limit, RiskDetection, s0, World(payments, []));
        }
      }
    }
  }

  /** Without a step limit the number of rounds alone decides. */
  lemma MessageLimitHoldsIff(p: Policy, mode: Mode, s0: AgentState, payments: map<string, Payment>)
    requires Initial(s0)
    ensures
      (forall env: Environment :: WithinMessageLimit(p, mode, env, s0, payments)) <==>
      (!UpdateApprovable(p, s0) || s0.communicationCount + Rounds(s0) + 1 <= p.maxMessagesPerCase)
  {
    if UpdateApprovable(p, s0) && s0.communicationCount + Rounds(s0) + 1 > p.maxMessagesPerCase {
      MessageLimitUnderStepLimitIff(p, mode, VisitBound(s0), s0, payments);
    } else {
      forall env: Environment ensures WithinMessageLimit(p, mode, env, s0, payments) {
        if !WithinMessageLimit(p, mode, env, s0, payments) {
          ExcessTakesVisits(p, mode, env, s0, payments);
        }
      }
    }
  }
}
