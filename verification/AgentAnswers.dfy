/** What the effects of a run owe to the answers its visits got: the diagnosis and the
    strategies of the language model and the answers of the payment provider, each by the
    number of the visit it was given at. */
module AgentAnswers {
  import opened Wrappers
  import opened PolicyEngine
  import opened AgentGraph
  import opened AgentSafety
  import opened AgentTheorems

  // ----- Effects and answers

  /** The visit that asks for the strategy of round `k`; a round has six visits. */
  function RoundStart(k: nat): nat {
    3 + 6 * k
  }

  /** What a status fetch in round `k` must say: the simulator's retry of that round, or the
      provider's answers at the retry and at the fetch. */
  function FetchIn(mode: Mode, env: Environment, s0: AgentState, k: nat): (x: Effect)
    ensures x.Fetched?
  {
    var retry, fetch := env(RoundStart(k) + 2), env(RoundStart(k) + 4);
    match mode
    case Simulator => Fetched("TXN-" + retry.token, if retry.charged then Success else Failed, s0.facts.amount)
    case External => Fetched(retry.retryId, fetch.fetched.status, fetch.fetched.amount)
  }

  /** The effect `x` after the effects `e` is what the answers ask for: decisions are made on
      the case, the counters of that moment, the diagnosis of the run and the strategy of the
      round; actions carry that strategy out, and fetches report its retry. */
  predicate Told(p: Policy, mode: Mode, env: Environment, s0: AgentState, e: seq<Effect>, x: Effect) {
    var k := Count(e, AnyDecision);
    match x
    case Decided(ctx, decision) =>
      && Current(s0, e, ctx) && !ctx.recovered && ctx.confidence == Some(env(2).confidence)
      && ctx.action == ActionOf(env(RoundStart(k)).strategy) && decision == Authorize(p, ctx).decision
    case Fetched(id, _, _) => k > 0 && x == FetchIn(mode, env, s0, k - 1) && id != ""
    case RetryCalled(strategy, number) =>
      && k > 0 && strategy == env(RoundStart(k - 1)).strategy && number == s0.retryCount + Count(e, AnyRetry) + 1
    case MessageSent(strategy) => k > 0 && strategy == env(RoundStart(k - 1)).strategy
    case ActionRecorded(strategy) => k > 0 && strategy == env(RoundStart(k - 1)).strategy
  }

  ghost predicate AllTold(p: Policy, mode: Mode, env: Environment, s0: AgentState, e: seq<Effect>) {
    forall i :: 0 <= i < |e| ==> Told(p, mode, env, s0, e[..i], e[i])
  }

  lemma AllToldSnoc(p: Policy, mode: Mode, env: Environment, s0: AgentState, e: seq<Effect>, x: Effect)
    requires AllTold(p, mode, env, s0, e) && Told(p, mode, env, s0, e, x)
    ensures AllTold(p, mode, env, s0, e + [x])
    ensures Count(e + [x], AnyDecision) == Count(e, AnyDecision) + if x.Decided? then 1 else 0
  {
    CountSnoc(e, x);
    forall i | 0 <= i < |e + [x]| ensures Told(p, mode, env, s0, (e + [x])[..i], (e + [x])[i]) {
      assert (e + [x])[..i] == if i < |e| then e[..i] else e;
    }
  }

  // ----- Where the run is

  /** The number of the visit to come, when `k` decisions have been made. */
  predicate Placed(next: Option<Node>, s: AgentState, k: nat) {
    var n := |s.trace|;
    match next
    case Some(RiskDetection) => n == 0 && k == 0
    case Some(ContextBuilder) => n == 1 && k == 0
    case Some(Diagnosis) => n == 2 && k == 0
    case Some(Strategise) => n == RoundStart(k)
    case Some(PolicyCheck) => n == RoundStart(k) + 1
    case Some(ActionExecution) => k > 0 && n == RoundStart(k - 1) + 2
    case Some(Observation) => k > 0 && n == RoundStart(k - 1) + 3
    case Some(Verification) => k > 0 && n == RoundStart(k - 1) + 4
    case Some(Replan) => k > 0 && n == RoundStart(k - 1) + 5
    case _ => true
  }

  predicate AfterDiagnosis(n: Node) {
    !n.RiskDetection? && !n.ContextBuilder? && !n.Diagnosis? && !n.Completion?
  }

  /** The diagnosis and the strategy at hand are those the run was answered with. */
  predicate Informed(env: Environment, next: Option<Node>, s: AgentState, k: nat) {
    && (next.Some? && AfterDiagnosis(next.value) ==> s.confidence == Some(env(2).confidence))
    && (next == Some(PolicyCheck) ==> s.strategy == Some(env(RoundStart(k)).strategy))
    && (next == Some(ActionExecution) ==> k > 0 && s.strategy == Some(env(RoundStart(k - 1)).strategy))
  }

  /** What a retry leaves for its verification. */
  predicate Retried(mode: Mode, env: Environment, s0: AgentState, s: AgentState, w: World, k: nat)
    requires k > 0
  {
    s.execution.Some? && s.execution.value.PaymentRetry? ==>
      var id, retry := s.execution.value.transactionId, env(RoundStart(k - 1) + 2);
      match mode
      case Simulator =>
        && id == "TXN-" + retry.token && id in w.payments
        && w.payments[id] == Payment(id, if retry.charged then Success else Failed, s0.facts.amount)
      case External => id == retry.retryId
  }

  ghost predicate Heard(
      p: Policy, mode: Mode, env: Environment, s0: AgentState, next: Option<Node>, s: AgentState, w: World)
  {
    var k := Count(w.effects, AnyDecision);
    && AllTold(p, mode, env, s0, w.effects) && Placed(next, s, k) && Informed(env, next, s, k)
    && (next == Some(Observation) || next == Some(Verification) ==> k > 0 && Retried(mode, env, s0, s, w, k))
  }

  // ----- One visit

  lemma QuietHears(
      p: Policy, mode: Mode, env: Environment, s0: AgentState, n: Node, s: AgentState, w: World)
    requires Heard(p, mode, env, s0, Some(n), s, w) && Quiet(n)
    ensures
      var (s', w') := Visit(p, mode, n, s, w, env(|s.trace|));
      Heard(p, mode, env, s0, Route(n, s'), s', w')
  {
    QuietVisit(p, mode, n, s, w, env(|s.trace|));
    VisitTraces(p, mode, n, s, w, env(|s.trace|));
  }

  lemma CheckIsTold(p: Policy, mode: Mode, env: Environment, s0: AgentState, s: AgentState, w: World)
    requires Inv(p, mode, s0, Some(PolicyCheck), s, w)
    requires Informed(env, Some(PolicyCheck), s, Count(w.effects, AnyDecision))
    ensures s.strategy.Some?
    ensures
      var ctx := ContextOf(s, s.strategy.value);
      Told(p, mode, env, s0, w.effects, Decided(ctx, Authorize(p, ctx).decision))
  {
  }

  lemma CheckTold(p: Policy, mode: Mode, env: Environment, s0: AgentState, s: AgentState, w: World)
    requires Inv(p, mode, s0, Some(PolicyCheck), s, w) && AllTold(p, mode, env, s0, w.effects)
    requires Informed(env, Some(PolicyCheck), s, Count(w.effects, AnyDecision))
    ensures
      var (s', w') := PolicyNode(p, s, w);
      && AllTold(p, mode, env, s0, w'.effects) && s'.confidence == s.confidence && s'.strategy == s.strategy
      && Count(w'.effects, AnyDecision) == Count(w.effects, AnyDecision) + 1
  {
    CheckIsTold(p, mode, env, s0, s, w);
    PolicyChecks(p, s, w);
    var ctx := ContextOf(s, s.strategy.value);
    AllToldSnoc(p, mode, env, s0, w.effects, Decided(ctx, Authorize(p, ctx).decision));
  }

  lemma CheckIsPlaced(
      p: Policy, mode: Mode, env: Environment, s0: AgentState, s: AgentState, w: World, s': AgentState, w': World)
    requires Placed(Some(PolicyCheck), s, Count(w.effects, AnyDecision))
    requires Informed(env, Some(PolicyCheck), s, Count(w.effects, AnyDecision))
    requires AllTold(p, mode, env, s0, w'.effects) && s'.confidence == s.confidence && s'.strategy == s.strategy
    requires Count(w'.effects, AnyDecision) == Count(w.effects, AnyDecision) + 1 && |s'.trace| == |s.trace| + 1
    ensures Heard(p, mode, env, s0, Some(RouteAfterPolicy(s')), s', w')
  {
  }

  lemma CheckHears(p: Policy, mode: Mode, env: Environment, s0: AgentState, s: AgentState, w: World)
    requires Inv(p, mode, s0, Some(PolicyCheck), s, w) && Heard(p, mode, env, s0, Some(PolicyCheck), s, w)
    ensures
      var (s', w') := Visit(p, mode, PolicyCheck, s, w, env(|s.trace|));
      Heard(p, mode, env, s0, Route(PolicyCheck, s'), s', w')
  {
    CheckTold(p, mode, env, s0, s, w);
    PolicyTraces(p, s, w);
    var (s', w') := Visit(p, mode, PolicyCheck, s, w, env(|s.trace|));
    CheckIsPlaced(p, mode, env, s0, s, w, s', w');
  }

  lemma ActionRetries(mode: Mode, env: Environment, s0: AgentState, s: AgentState, w: World, k: nat)
    requires k > 0 && |s.trace| == RoundStart(k - 1) + 2 && s.facts.amount == s0.facts.amount
    ensures
      var (s', w') := ActionNode(mode, s, w, env(|s.trace|));
      Retried(mode, env, s0, s', w', k) && s'.confidence == s.confidence
  {
  }

  lemma ActionIsTold(p: Policy, mode: Mode, env: Environment, s0: AgentState, s: AgentState, e: seq<Effect>)
    requires Informed(env, Some(ActionExecution), s, Count(e, AnyDecision)) && Accounted(s0, s, e)
    ensures s.strategy.Some? && Told(p, mode, env, s0, e, ActionEffect(s)) && !ActionEffect(s).Decided?
  {
  }

  lemma ActionHears(p: Policy, mode: Mode, env: Environment, s0: AgentState, s: AgentState, w: World)
    requires Inv(p, mode, s0, Some(ActionExecution), s, w) && Heard(p, mode, env, s0, Some(ActionExecution), s, w)
    ensures
      var (s', w') := Visit(p, mode, ActionExecution, s, w, env(|s.trace|));
      Heard(p, mode, env, s0, Some(Observation), s', w')
  {
    var k := Count(w.effects, AnyDecision);
    ActionIsTold(p, mode, env, s0, s, w.effects);
    ActionAdds(mode, s, w, env(|s.trace|));
    ActionTraces(mode, s, w, env(|s.trace|));
    ActionRetries(mode, env, s0, s, w, k);
    AllToldSnoc(p, mode, env, s0, w.effects, ActionEffect(s));
  }

  lemma ActionAdds(mode: Mode, s: AgentState, w: World, input: Input)
    requires s.strategy.Some? && s.policyResult.Some? && s.policyResult.value.decision.Approved?
    ensures ActionNode(mode, s, w, input).1.effects == w.effects + [ActionEffect(s)]
  {
    ActionActs(mode, s, w, input);
  }

  lemma FetchIsTold(mode: Mode, env: Environment, s0: AgentState, s: AgentState, w: World, k: nat)
    requires k > 0 && |s.trace| == RoundStart(k - 1) + 4 && Retried(mode, env, s0, s, w, k)
    ensures
      var (s', w') := VerifyNode(mode, s, w, env(|s.trace|));
      && s'.confidence == s.confidence
      && (w'.effects == w.effects
          || (w'.effects == w.effects + [FetchIn(mode, env, s0, k - 1)] && FetchIn(mode, env, s0, k - 1).id != ""))
  {
  }

  lemma FetchTold(p: Policy, mode: Mode, env: Environment, s0: AgentState, e: seq<Effect>, k: nat)
    requires AllTold(p, mode, env, s0, e) && k > 0 && k == Count(e, AnyDecision)
    requires FetchIn(mode, env, s0, k - 1).id != ""
    ensures AllTold(p, mode, env, s0, e + [FetchIn(mode, env, s0, k - 1)])
    ensures Count(e + [FetchIn(mode, env, s0, k - 1)], AnyDecision) == k
  {
    AllToldSnoc(p, mode, env, s0, e, FetchIn(mode, env, s0, k - 1));
  }

  lemma VerificationTold(
      p: Policy, mode: Mode, env: Environment, s0: AgentState, s: AgentState, w: World, k: nat)
    requires AllTold(p, mode, env, s0, w.effects) && k > 0 && k == Count(w.effects, AnyDecision)
    requires |s.trace| == RoundStart(k - 1) + 4 && Retried(mode, env, s0, s, w, k)
    ensures
      var (s', w') := VerifyNode(mode, s, w, env(|s.trace|));
      && AllTold(p, mode, env, s0, w'.effects) && s'.confidence == s.confidence
      && Count(w'.effects, AnyDecision) == k
  {
    FetchIsTold(mode, env, s0, s, w, k);
    if VerifyNode(mode, s, w, env(|s.trace|)).1.effects != w.effects {
      FetchTold(p, mode, env, s0, w.effects, k);
    }
  }

  lemma VerificationHears(p: Policy, mode: Mode, env: Environment, s0: AgentState, s: AgentState, w: World)
    requires Heard(p, mode, env, s0, Some(Verification), s, w)
    ensures
      var (s', w') := Visit(p, mode, Verification, s, w, env(|s.trace|));
      Heard(p, mode, env, s0, Route(Verification, s'), s', w')
  {
    VerificationTold(p, mode, env, s0, s, w, Count(w.effects, AnyDecision));
    VerifyTraces(mode, s, w, env(|s.trace|));
  }

  lemma VisitHears(
      p: Policy, mode: Mode, env: Environment, s0: AgentState, n: Node, s: AgentState, w: World)
    requires Inv(p, mode, s0, Some(n), s, w) && Heard(p, mode, env, s0, Some(n), s, w)
    ensures
      var (s', w') := Visit(p, mode, n, s, w, env(|s.trace|));
      Heard(p, mode, env, s0, Route(n, s'), s', w')
  {
    match n
    case PolicyCheck => CheckHears(p, mode, env, s0, s, w);
    case ActionExecution => ActionHears(p, mode, env, s0, s, w);
    case Verification => VerificationHears(p, mode, env, s0, s, w);
    case _ => QuietHears(p, mode, env, s0, n, s, w);
  }

  lemma {:induction false} RunHears(
      p: Policy, mode: Mode, env: Environment, s0: AgentState, n: Node, s: AgentState, w: World)
    requires Inv(p, mode, s0, Some(n), s, w) && Heard(p, mode, env, s0, Some(n), s, w)
    ensures AllTold(p, mode, env, s0, RunFrom(p, mode, env, n, s, w).world.effects)
    decreases VisitsLeft(n, s)
  {
    var input := env(|s.trace|);
    if !input.fault.FaultBefore? {
      var (s', w') := Visit(p, mode, n, s, w, input);
      VisitKept(p, mode, s0, n, s, w, input);
      VisitHears(p, mode, env, s0, n, s, w);
      if Route(n, s').Some? && !input.fault.FaultAfter? {
        VisitDecreases(p, mode, n, s, w, input);
        RunHears(p, mode, env, s0, Route(n, s').value, s', w');
      }
    }
  }

  // ----- Whole runs

  /** Every decision of a run, one that raises included, sees the confidence of the run's
      diagnosis, the strategy proposed in its round, the facts of the case and the counters of
      its moment; every action carries that strategy out, every fetch reports its retry. */
  lemma EffectsFollowTheAnswers(
      p: Policy, mode: Mode, env: Environment, s0: AgentState, payments: map<string, Payment>, i: nat)
    requires Initial(s0) && i < |EffectsOf(Run(p, mode, env, s0, payments))|
    ensures
      var e := EffectsOf(Run(p, mode, env, s0, payments));
      Told(p, mode, env, s0, e[..i], e[i])
  {
    InvInitially(p, mode, s0, payments);
    RunHears(p, mode, env, s0, RiskDetection, s0, World(payments, []));
  }

  /** No action goes against a rule of the policy, the confidence being that of the diagnosis. */
  lemma EveryActionMeetsTheRules(
      p: Policy, mode: Mode, env: Environment, s0: AgentState, payments: map<string, Payment>, i: nat)
    requires Initial(s0)
    requires i < |EffectsOf(Run(p, mode, env, s0, payments))|
    requires IsAction(EffectsOf(Run(p, mode, env, s0, payments))[i])
    ensures
      var e := EffectsOf(Run(p, mode, env, s0, payments));
      MeetsTheRules(p, s0, e[..i], e[i], Some(env(2).confidence))
  {
    ActionMeetsTheRules(p, mode, env, s0, payments, i);
    EffectsFollowTheAnswers(p, mode, env, s0, payments, i - 1);
  }

  /** No run acts on a diagnosis below the threshold of the policy. */
  lemma NoActionOnLowConfidence(
      p: Policy, mode: Mode, env: Environment, s0: AgentState, payments: map<string, Payment>)
    requires Initial(s0) && Count(EffectsOf(Run(p, mode, env, s0, payments)), AnyAction) > 0
    ensures env(2).confidence >= p.lowConfidence
  {
    var i := CountedSomewhere(EffectsOf(Run(p, mode, env, s0, payments)), AnyAction);
    EveryActionMeetsTheRules(p, mode, env, s0, payments, i);
  }
}
