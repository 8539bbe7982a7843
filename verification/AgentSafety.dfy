/** What every run of the agent keeps, whatever the language model proposes and the
    provider answers. `Inv` relates the start `s0` to the point before the visit of
    `next` (`None` once the graph has ended); one lemma shows that a visit keeps it. */
module AgentSafety {
  import opened Wrappers
  import opened PolicyEngine
  import opened AgentGraph

  // ----- Counting effects

  datatype Kind =
    | AnyAction | AnyRetry | AnyMessage | CheckoutKind | MethodUpdateKind | AnyFetch | AnyCapture | AnyDecision

  predicate IsKind(k: Kind, x: Effect) {
    match k
    case AnyAction => IsAction(x)
    case AnyRetry => x.RetryCalled?
    case AnyMessage => x.MessageSent?
    case CheckoutKind => x.MessageSent? && x.strategy.CheckoutRecovery?
    case MethodUpdateKind => x.MessageSent? && x.strategy.PaymentMethodUpdate?
    case AnyFetch => x.Fetched?
    case AnyCapture => IsCapture(x)
    case AnyDecision => x.Decided?
  }

  predicate IsAction(x: Effect) {
    x.RetryCalled? || x.MessageSent? || x.ActionRecorded?
  }

  function Count(e: seq<Effect>, k: Kind): nat {
    if e == [] then 0
    else Count(e[..|e| - 1], k) + if IsKind(k, e[|e| - 1]) then 1 else 0
  }

  lemma CountSnoc(e: seq<Effect>, x: Effect)
    ensures forall k :: Count(e + [x], k) == Count(e, k) + if IsKind(k, x) then 1 else 0
  {
  }

  lemma {:induction false} CountedSomewhere(e: seq<Effect>, k: Kind) returns (i: nat)
    requires Count(e, k) > 0
    ensures i < |e| && IsKind(k, e[i])
  {
    if IsKind(k, e[|e| - 1]) {
      i := |e| - 1;
    } else {
      i := CountedSomewhere(e[..|e| - 1], k);
    }
  }

  lemma {:induction false} CountMonotone(e: seq<Effect>, i: nat, j: nat, k: Kind)
    requires i <= j <= |e|
    ensures Count(e[..i], k) <= Count(e[..j], k)
    ensures i < j && IsKind(k, e[i]) ==> Count(e[..i], k) < Count(e[..j], k)
    decreases j
  {
    if i < j {
      CountMonotone(e, i, j - 1, k);
      assert e[..j][..j - 1] == e[..j - 1];
    }
  }

  lemma {:induction false} CountIncluded(e: seq<Effect>, k: Kind, l: Kind)
    requires forall x :: IsKind(k, x) ==> IsKind(l, x)
    ensures Count(e, k) <= Count(e, l)
  {
    if e != [] {
      CountIncluded(e[..|e| - 1], k, l);
    }
  }

  // ----- The effects of a run

  /** `ctx` describes the case of `s0` with the counters after the effects `e`. */
  predicate Current(s0: AgentState, e: seq<Effect>, ctx: Context) {
    && ctx.amount == s0.facts.amount && ctx.reason == s0.facts.reason
    && ctx.optedOut == s0.facts.optedOut && ctx.suspended == s0.facts.suspended
    && ctx.alreadyPaid == s0.facts.alreadyPaid && ctx.hoursSinceLast == s0.facts.hoursSinceLast
    && ctx.timeoutElapsed == s0.facts.timeoutElapsed
    && ctx.retryCount == s0.retryCount + Count(e, AnyRetry)
    && ctx.communicationCount == s0.communicationCount + Count(e, AnyMessage)
    && ctx.checkoutMessages == s0.checkoutMessages + Count(e, CheckoutKind)
  }

  /** Retries, messages and records stand for the strategies that call for them. */
  predicate FitsStrategy(x: Effect)
    requires IsAction(x)
  {
    match x.strategy
    case RetryNow | ScheduleRetry => x.RetryCalled?
    case CheckoutRecovery | Reminder | PaymentMethodUpdate => x.MessageSent?
    case PromiseToPay | EscalateToHuman => x.ActionRecorded?
  }

  /** The action `e[i]` comes right after the policy approved that very strategy
      with the counters of that moment. */
  predicate Licensed(p: Policy, s0: AgentState, e: seq<Effect>, i: nat)
    requires i < |e| && IsAction(e[i])
  {
    && i > 0 && e[i - 1].Decided? && e[i - 1].decision.Approved? && FitsStrategy(e[i])
    && Authorize(p, e[i - 1].ctx).decision.Approved?
    && e[i - 1].ctx.action == ActionOf(e[i].strategy)
    && Current(s0, e[..i], e[i - 1].ctx)
    && (e[i].RetryCalled? ==> e[i].number == s0.retryCount + 1 + Count(e[..i], AnyRetry))
  }

  predicate Gated(p: Policy, s0: AgentState, e: seq<Effect>) {
    forall i :: 0 <= i < |e| && IsAction(e[i]) ==> Licensed(p, s0, e, i)
  }

  predicate Bounded(p: Policy, s0: AgentState, e: seq<Effect>) {
    && Count(e, AnyRetry) <= Max(0, p.maxRetries - s0.retryCount)
    && Count(e, CheckoutKind) <= Max(0, p.maxRecoveryMessages - s0.checkoutMessages)
    && Count(e, AnyMessage)
       <= Max(0, p.maxMessagesPerCase - s0.communicationCount) + Count(e, MethodUpdateKind)
  }

  predicate SafeEffects(p: Policy, s0: AgentState, e: seq<Effect>) {
    Gated(p, s0, e) && Bounded(p, s0, e)
  }

  // ----- The state of a run

  predicate Accounted(s0: AgentState, s: AgentState, e: seq<Effect>) {
    && s.facts == s0.facts
    && s.retryCount == s0.retryCount + Count(e, AnyRetry)
    && s.communicationCount == s0.communicationCount + Count(e, AnyMessage)
    && s.checkoutMessages == s0.checkoutMessages + Count(e, CheckoutKind)
  }

  /** Before `ActionExecution` the last thing seen is the approval of the strategy at hand. */
  predicate Armed(p: Policy, next: Option<Node>, s: AgentState, e: seq<Effect>) {
    next == Some(ActionExecution) ==>
      && e != [] && s.strategy.Some? && s.policyResult.Some? && s.policyResult.value.decision.Approved?
      && e[|e| - 1] == Decided(ContextOf(s, s.strategy.value), Approved)
      && Authorize(p, ContextOf(s, s.strategy.value)).decision.Approved?
  }

  predicate Edge(a: Node, b: Node) {
    match a
    case RiskDetection => b.ContextBuilder? || b.Completion?
    case ContextBuilder => b.Diagnosis?
    case Diagnosis => b.Strategise?
    case Strategise => b.PolicyCheck?
    case PolicyCheck => b.ActionExecution? || b.Escalation? || b.Completion?
    case ActionExecution => b.Observation?
    case Observation => b.Verification?
    case Verification => b.Completion? || b.Replan? || b.Escalation?
    case Replan => b.Strategise?
    case Escalation => b.Completion?
    case Completion => false
  }

  predicate IsPath(t: seq<Node>) {
    && (t != [] ==> t[0] == RiskDetection)
    && forall i :: 0 < i < |t| ==> Edge(t[i - 1], t[i])
  }

  function VisitBound(s0: AgentState): nat {
    6 * Max(0, s0.facts.maxReplans) + 10
  }

  predicate Traced(s0: AgentState, next: Option<Node>, s: AgentState) {
    && s.trace == s.log && IsPath(s.trace)
    && match next
       case None => s.trace != [] && s.trace[|s.trace| - 1].Completion? && |s.trace| <= VisitBound(s0)
       case Some(n) =>
         && IsPath(s.trace + [n]) && WellPlaced(n, s)
         && |s.trace| + VisitsLeft(n, s) <= VisitBound(s0)
  }

  function LastFetch(e: seq<Effect>): Option<PaymentStatus> {
    if e == [] then None
    else if e[|e| - 1].Fetched? then Some(e[|e| - 1].status)
    else LastFetch(e[..|e| - 1])
  }

  predicate IsCapture(x: Effect) {
    x.Fetched? && x.status.Success?
  }

  /** A successful status fetch is the last effect of the run, and nothing else
      makes a case recovered. */
  predicate FromProvider(s0: AgentState, next: Option<Node>, s: AgentState, e: seq<Effect>) {
    if s0.recovered then
      && s.recovered && e == [] && s.verification.None?
      && (next.Some? ==> next.value.RiskDetection? || next.value.Completion?)
    else
      && (forall i :: 0 <= i < |e| && IsCapture(e[i]) ==> i == |e| - 1 && s.recovered)
      && (s.recovered ==>
            && e != [] && IsCapture(e[|e| - 1]) && s.stopped && (next.Some? ==> next.value.Completion?)
            && s.verification == Some(VerificationResult(Recovered, Some(e[|e| - 1].id), e[|e| - 1].amount)))
  }

  predicate Stops(next: Option<Node>, s: AgentState) {
    (s.error ==> s.stopped) &&
    match next
    case None => s.stopped
    case Some(Completion) =>
      s.stopped || (s.policyResult.Some? && s.policyResult.value.decision.Denied? && !s.recovered)
    case _ => true
  }

  /** The simulator's answer to a status fetch is what the retry just stored. */
  predicate Stored(mode: Mode, s0: AgentState, next: Option<Node>, s: AgentState, w: World) {
    mode.Simulator? ==>
      && ((next == Some(Observation) || next == Some(Verification)) && s.execution.Some?
          && s.execution.value.PaymentRetry? ==>
            var id := s.execution.value.transactionId;
            && |id| == 16
            && id in w.payments && w.payments[id].amount == s0.facts.amount)
      && forall i :: 0 <= i < |w.effects| && IsCapture(w.effects[i]) ==>
           w.effects[i].amount == s0.facts.amount && |w.effects[i].id| == 16
  }

  /** At most one action a round. */
  predicate Paced(s0: AgentState, next: Option<Node>, s: AgentState, e: seq<Effect>) {
    && s.replans <= Max(0, s0.facts.maxReplans)
    && Count(e, AnyAction) <= s.replans +
       match next
       case None => 1
       case Some(n) =>
         if n.Observation? || n.Verification? || n.Replan? || n.Escalation? || n.Completion? then 1 else 0
  }

  predicate Inv(p: Policy, mode: Mode, s0: AgentState, next: Option<Node>, s: AgentState, w: World) {
    && SafeEffects(p, s0, w.effects) && Accounted(s0, s, w.effects) && Armed(p, next, s, w.effects)
    && Traced(s0, next, s) && FromProvider(s0, next, s, w.effects) && Stops(next, s)
    && Stored(mode, s0, next, s, w) && Paced(s0, next, s, w.effects)
  }

  /** What holds of the effects of every run, one that raises included: they are safe, at
      most one action for each round, and nothing follows a capture. */
  predicate Tame(p: Policy, s0: AgentState, e: seq<Effect>) {
    && SafeEffects(p, s0, e) && Count(e, AnyAction) <= Max(0, s0.facts.maxReplans) + 1
    && forall i :: 0 <= i < |e| && IsCapture(e[i]) ==> i == |e| - 1
  }

  lemma InvIsTame(p: Policy, mode: Mode, s0: AgentState, next: Option<Node>, s: AgentState, w: World)
    requires Inv(p, mode, s0, next, s, w)
    ensures Tame(p, s0, w.effects)
  {
  }

  lemma {:induction false} OneCapture(e: seq<Effect>)
    requires forall i :: 0 <= i < |e| && IsCapture(e[i]) ==> i == |e| - 1
    ensures Count(e, AnyCapture) <= 1
    ensures (forall i :: 0 <= i < |e| ==> !IsCapture(e[i])) ==> Count(e, AnyCapture) == 0
  {
    if e != [] {
      OneCapture(e[..|e| - 1]);
    }
  }

  // ----- One visit

  lemma InvInitially(p: Policy, mode: Mode, s0: AgentState, payments: map<string, Payment>)
    requires Initial(s0)
    ensures Inv(p, mode, s0, Some(RiskDetection), s0, World(payments, []))
  {
  }

  predicate Quiet(n: Node) {
    !n.PolicyCheck? && !n.ActionExecution? && !n.Verification?
  }

  /** Eight of the eleven nodes touch neither the world nor the counters. */
  lemma QuietVisit(p: Policy, mode: Mode, n: Node, s: AgentState, w: World, input: Input)
    requires Quiet(n)
    ensures
      var (s', w') := Visit(p, mode, n, s, w, input);
      && w' == w && s'.facts == s.facts
      && s'.retryCount == s.retryCount && s'.communicationCount == s.communicationCount
      && s'.checkoutMessages == s.checkoutMessages
      && s'.recovered == s.recovered && s'.execution == s.execution && s'.verification == s.verification
      && s'.policyResult == s.policyResult && (s.stopped ==> s'.stopped)
  {
  }

  lemma VisitTraces(p: Policy, mode: Mode, n: Node, s: AgentState, w: World, input: Input)
    ensures
      var s' := Visit(p, mode, n, s, w, input).0;
      s'.trace == s.trace + [n] && s'.log == s.log + [n]
  {
    match n
    case PolicyCheck => PolicyTraces(p, s, w);
    case ActionExecution => ActionTraces(mode, s, w, input);
    case Verification => VerifyTraces(mode, s, w, input);
    case _ =>
  }

  lemma PolicyTraces(p: Policy, s: AgentState, w: World)
    ensures PolicyNode(p, s, w).0.trace == s.trace + [PolicyCheck]
  {
  }

  lemma ActionTraces(mode: Mode, s: AgentState, w: World, input: Input)
    ensures ActionNode(mode, s, w, input).0.trace == s.trace + [ActionExecution]
  {
  }

  lemma VerifyTraces(mode: Mode, s: AgentState, w: World, input: Input)
    ensures VerifyNode(mode, s, w, input).0.trace == s.trace + [Verification]
  {
  }

  lemma RouteIsEdge(n: Node, s: AgentState)
    ensures Route(n, s).Some? ==> Edge(n, Route(n, s).value)
    ensures Route(n, s).None? <==> n.Completion?
  {
  }

  lemma PathSnoc(t: seq<Node>, n: Node, next: Node)
    requires IsPath(t + [n]) && Edge(n, next)
    ensures IsPath(t + [n] + [next])
  {
  }

  lemma TraceKept(p: Policy, mode: Mode, s0: AgentState, n: Node, s: AgentState, w: World, input: Input)
    requires Traced(s0, Some(n), s)
    ensures
      var s' := Visit(p, mode, n, s, w, input).0;
      Traced(s0, Route(n, s'), s')
  {
    var s' := Visit(p, mode, n, s, w, input).0;
    VisitTraces(p, mode, n, s, w, input);
    VisitDecreases(p, mode, n, s, w, input);
    RouteIsEdge(n, s');
    if Route(n, s').Some? {
      PathSnoc(s.trace, n, Route(n, s').value);
    }
  }

  lemma QuietKept(p: Policy, mode: Mode, s0: AgentState, n: Node, s: AgentState, w: World, input: Input)
    requires Inv(p, mode, s0, Some(n), s, w) && Quiet(n)
    ensures
      var (s', w') := Visit(p, mode, n, s, w, input);
      Inv(p, mode, s0, Route(n, s'), s', w')
  {
    var (s', w') := Visit(p, mode, n, s, w, input);
    QuietVisit(p, mode, n, s, w, input);
    TraceKept(p, mode, s0, n, s, w, input);
    assert Stops(Route(n, s'), s') by { QuietStops(p, mode, s0, n, s, w, input); }
    assert Paced(s0, Route(n, s'), s', w'.effects) by { VisitSpendsReplans(p, mode, n, s, w, input); }
    assert FromProvider(s0, Route(n, s'), s', w'.effects) by { QuietProvider(p, mode, s0, n, s, w, input); }
  }

  lemma QuietStops(p: Policy, mode: Mode, s0: AgentState, n: Node, s: AgentState, w: World, input: Input)
    requires Inv(p, mode, s0, Some(n), s, w) && Quiet(n)
    ensures var s' := Visit(p, mode, n, s, w, input).0; Stops(Route(n, s'), s')
  {
  }

  lemma QuietProvider(p: Policy, mode: Mode, s0: AgentState, n: Node, s: AgentState, w: World, input: Input)
    requires Inv(p, mode, s0, Some(n), s, w) && Quiet(n)
    ensures var (s', w') := Visit(p, mode, n, s, w, input); FromProvider(s0, Route(n, s'), s', w'.effects)
  {
    QuietVisit(p, mode, n, s, w, input);
  }

  lemma GatedSnoc(p: Policy, s0: AgentState, e: seq<Effect>, x: Effect)
    requires Gated(p, s0, e)
    requires IsAction(x) ==> Licensed(p, s0, e + [x], |e|)
    ensures Gated(p, s0, e + [x])
  {
    var f := e + [x];
    forall i | 0 <= i < |f| && IsAction(f[i]) ensures Licensed(p, s0, f, i) {
      if i < |e| {
        assert f[..i] == e[..i];
        assert Licensed(p, s0, e, i);
      }
    }
  }

  /** What a policy check does, as a relation between the states around it. */
  predicate Checked(p: Policy, s: AgentState, w: World, s': AgentState, w': World) {
    && s'.facts == s.facts && s'.retryCount == s.retryCount && s'.communicationCount == s.communicationCount
    && s'.checkoutMessages == s.checkoutMessages && s'.recovered == s.recovered && s'.stopped == s.stopped
    && s'.error == s.error && s'.strategy == s.strategy && s'.confidence == s.confidence
    && s'.replans == s.replans && s'.policyResult.Some? && s'.verification == s.verification
    && if s.strategy.None? then w' == w && s'.policyResult.value.decision.Escalate?
       else
         var ctx := ContextOf(s, s.strategy.value);
         && s'.policyResult.value.decision == Authorize(p, ctx).decision
         && w'.effects == w.effects + [Decided(ctx, Authorize(p, ctx).decision)]
  }

  lemma PolicyChecks(p: Policy, s: AgentState, w: World)
    ensures var (s', w') := PolicyNode(p, s, w); Checked(p, s, w, s', w')
  {
  }

  lemma CheckedKeeps(p: Policy, mode: Mode, s0: AgentState, s: AgentState, w: World, s': AgentState, w': World)
    requires Inv(p, mode, s0, Some(PolicyCheck), s, w) && Checked(p, s, w, s', w')
    requires Traced(s0, Some(RouteAfterPolicy(s')), s')
    ensures Inv(p, mode, s0, Some(RouteAfterPolicy(s')), s', w')
  {
    CheckedEffects(p, s0, s, w, s', w');
    CheckedProvider(p, s0, s, w, s', w');
  }

  lemma CheckedEffects(p: Policy, s0: AgentState, s: AgentState, w: World, s': AgentState, w': World)
    requires Checked(p, s, w, s', w') && SafeEffects(p, s0, w.effects) && Accounted(s0, s, w.effects)
    ensures SafeEffects(p, s0, w'.effects) && Accounted(s0, s', w'.effects)
    ensures Count(w'.effects, AnyAction) == Count(w.effects, AnyAction)
  {
    if s.strategy.Some? {
      var x := w'.effects[|w.effects|];
      CountSnoc(w.effects, x);
      GatedSnoc(p, s0, w.effects, x);
    }
  }

  lemma CheckedProvider(p: Policy, s0: AgentState, s: AgentState, w: World, s': AgentState, w': World)
    requires Checked(p, s, w, s', w') && FromProvider(s0, Some(PolicyCheck), s, w.effects)
    ensures FromProvider(s0, Some(RouteAfterPolicy(s')), s', w'.effects)
  {
  }

  function ActionEffect(s: AgentState): Effect
    requires s.strategy.Some?
  {
    match s.strategy.value
    case RetryNow | ScheduleRetry => RetryCalled(s.strategy.value, s.retryCount + 1)
    case CheckoutRecovery | Reminder | PaymentMethodUpdate => MessageSent(s.strategy.value)
    case PromiseToPay | EscalateToHuman => ActionRecorded(s.strategy.value)
  }

  function One(b: bool): nat {
    if b then 1 else 0
  }

  /** What an approved action does: one effect, counted in the state. */
  predicate Acted(mode: Mode, s: AgentState, w: World, s': AgentState, w': World) {
    && s.strategy.Some?
    && var x := ActionEffect(s);
    && w'.effects == w.effects + [x]
    && s'.facts == s.facts && s'.recovered == s.recovered && s'.stopped == s.stopped
    && s'.error == s.error && s'.verification == s.verification && s'.replans == s.replans
    && s'.retryCount == s.retryCount + One(IsKind(AnyRetry, x))
    && s'.communicationCount == s.communicationCount + One(IsKind(AnyMessage, x))
    && s'.checkoutMessages == s.checkoutMessages + One(IsKind(CheckoutKind, x))
    && s'.execution.Some?
    && (mode.Simulator? && s'.execution.value.PaymentRetry? ==>
          var id := s'.execution.value.transactionId;
          |id| == 16 && id in w'.payments && w'.payments[id].amount == s.facts.amount)
  }

  lemma ActionActs(mode: Mode, s: AgentState, w: World, input: Input)
    requires s.strategy.Some? && s.policyResult.Some? && s.policyResult.value.decision.Approved?
    ensures var (s', w') := ActionNode(mode, s, w, input); Acted(mode, s, w, s', w')
  {
  }

  /** A payment is verified exactly after a retry. */
  lemma RetriesArePaymentRetries(mode: Mode, s: AgentState, w: World, input: Input)
    requires s.strategy.Some? && s.policyResult.Some? && s.policyResult.value.decision.Approved?
    ensures
      var s' := ActionNode(mode, s, w, input).0;
      s'.execution.Some? && (s'.execution.value.PaymentRetry? <==> ActionEffect(s).RetryCalled?)
  {
  }

  lemma ActionLicensed(p: Policy, s0: AgentState, s: AgentState, e: seq<Effect>)
    requires Accounted(s0, s, e) && Armed(p, Some(ActionExecution), s, e)
    ensures Licensed(p, s0, e + [ActionEffect(s)], |e|)
  {
  }

  lemma ActionBounded(p: Policy, s0: AgentState, s: AgentState, e: seq<Effect>)
    requires Accounted(s0, s, e) && Armed(p, Some(ActionExecution), s, e) && Bounded(p, s0, e)
    ensures Bounded(p, s0, e + [ActionEffect(s)])
  {
  }

  lemma ActedKeeps(p: Policy, mode: Mode, s0: AgentState, s: AgentState, w: World, s': AgentState, w': World)
    requires Inv(p, mode, s0, Some(ActionExecution), s, w) && Acted(mode, s, w, s', w')
    requires Traced(s0, Some(Observation), s')
    ensures Inv(p, mode, s0, Some(Observation), s', w')
  {
    var x := ActionEffect(s);
    assert SafeEffects(p, s0, w'.effects) by {
      ActionLicensed(p, s0, s, w.effects);
      GatedSnoc(p, s0, w.effects, x);
      ActionBounded(p, s0, s, w.effects);
    }
    CountSnoc(w.effects, x);
  }

  predicate Verified(mode: Mode, s: AgentState, w: World, s': AgentState, w': World) {
    && s'.facts == s.facts && s'.error == s.error && s'.replans == s.replans
    && s'.retryCount == s.retryCount && s'.communicationCount == s.communicationCount
    && s'.checkoutMessages == s.checkoutMessages
    && if w'.effects == w.effects then s'.recovered == s.recovered && s'.stopped == s.stopped
       else
         && s.execution.Some? && s.execution.value.PaymentRetry?
         && |w'.effects| == |w.effects| + 1
         && var x := w'.effects[|w.effects|];
         && w'.effects == w.effects + [x] && x.Fetched? && x.id == s.execution.value.transactionId
         && (mode.Simulator? && x.id in w.payments ==> x.amount == w.payments[x.id].amount)
         && if IsCapture(x) then
              && s'.recovered && s'.stopped
              && s'.verification == Some(VerificationResult(Recovered, Some(x.id), x.amount))
            else s'.recovered == s.recovered && s'.stopped == s.stopped
  }

  lemma FetchVerifies(mode: Mode, s: AgentState, w: World, input: Input, id: string)
    requires s.execution == Some(PaymentRetry(id)) && id != ""
    ensures var (s', w') := VerifyNode(mode, s, w, input); Verified(mode, s, w, s', w')
  {
  }

  lemma NoFetchVerifies(mode: Mode, s: AgentState, w: World, input: Input)
    requires s.execution.Some? && s.execution.value.PaymentRetry? ==> s.execution.value.transactionId == ""
    ensures var (s', w') := VerifyNode(mode, s, w, input); Verified(mode, s, w, s', w')
  {
  }

  lemma VerificationVerifies(mode: Mode, s: AgentState, w: World, input: Input)
    ensures var (s', w') := VerifyNode(mode, s, w, input); Verified(mode, s, w, s', w')
  {
    if s.execution.Some? && s.execution.value.PaymentRetry? && s.execution.value.transactionId != "" {
      FetchVerifies(mode, s, w, input, s.execution.value.transactionId);
    } else {
      NoFetchVerifies(mode, s, w, input);
    }
  }

  lemma VerifiedEffects(p: Policy, mode: Mode, s0: AgentState, s: AgentState, w: World, s': AgentState, w': World)
    requires Verified(mode, s, w, s', w') && SafeEffects(p, s0, w.effects) && Accounted(s0, s, w.effects)
    ensures SafeEffects(p, s0, w'.effects) && Accounted(s0, s', w'.effects)
    ensures Count(w'.effects, AnyAction) == Count(w.effects, AnyAction)
  {
    if w'.effects != w.effects {
      var x := w'.effects[|w.effects|];
      CountSnoc(w.effects, x);
      GatedSnoc(p, s0, w.effects, x);
    }
  }

  lemma VerifiedProvider(mode: Mode, s0: AgentState, s: AgentState, w: World, s': AgentState, w': World)
    requires Verified(mode, s, w, s', w') && FromProvider(s0, Some(Verification), s, w.effects)
    requires Stored(mode, s0, Some(Verification), s, w)
    ensures FromProvider(s0, Some(RouteAfterVerification(s')), s', w'.effects)
    ensures Stored(mode, s0, Some(RouteAfterVerification(s')), s', w')
  {
  }

  lemma VerifiedKeeps(p: Policy, mode: Mode, s0: AgentState, s: AgentState, w: World, s': AgentState, w': World)
    requires Inv(p, mode, s0, Some(Verification), s, w) && Verified(mode, s, w, s', w')
    requires Traced(s0, Some(RouteAfterVerification(s')), s')
    ensures Inv(p, mode, s0, Some(RouteAfterVerification(s')), s', w')
  {
    VerifiedEffects(p, mode, s0, s, w, s', w');
    VerifiedProvider(mode, s0, s, w, s', w');
  }

  // ----- Whole runs

  lemma VisitKept(p: Policy, mode: Mode, s0: AgentState, n: Node, s: AgentState, w: World, input: Input)
    requires Inv(p, mode, s0, Some(n), s, w)
    ensures
      var (s', w') := Visit(p, mode, n, s, w, input);
      Inv(p, mode, s0, Route(n, s'), s', w')
  {
    var (s', w') := Visit(p, mode, n, s, w, input);
    TraceKept(p, mode, s0, n, s, w, input);
    match n
    case PolicyCheck =>
      PolicyChecks(p, s, w);
      CheckedKeeps(p, mode, s0, s, w, s', w');
    case ActionExecution =>
      ActionActs(mode, s, w, input);
      ActedKeeps(p, mode, s0, s, w, s', w');
    case Verification =>
      VerificationVerifies(mode, s, w, input);
      VerifiedKeeps(p, mode, s0, s, w, s', w');
    case _ => QuietKept(p, mode, s0, n, s, w, input);
  }

  lemma {:induction false} RunKept(
      p: Policy, mode: Mode, env: Environment, s0: AgentState, n: Node, s: AgentState, w: World)
    requires Inv(p, mode, s0, Some(n), s, w)
    ensures
      match RunFrom(p, mode, env, n, s, w)
      case Raised(w') => Tame(p, s0, w'.effects)
      case Finished(s', w') => Inv(p, mode, s0, None, s', w')
    decreases VisitsLeft(n, s)
  {
    var input := env(|s.trace|);
    InvIsTame(p, mode, s0, Some(n), s, w);
    if !input.fault.FaultBefore? {
      var (s', w') := Visit(p, mode, n, s, w, input);
      VisitKept(p, mode, s0, n, s, w, input);
      InvIsTame(p, mode, s0, Route(n, s'), s', w');
      if Route(n, s').Some? && !input.fault.FaultAfter? {
        VisitDecreases(p, mode, n, s, w, input);
        RunKept(p, mode, env, s0, Route(n, s').value, s', w');
      }
    }
  }
}
