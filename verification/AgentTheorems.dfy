/** The promises of a whole run, for every policy, every provider and every
    behaviour of the language model. */
module AgentTheorems {
  import opened Wrappers
  import opened PolicyEngine
  import opened AgentGraph
  import opened AgentSafety
  import opened AgentScripts

  function EffectsOf(r: RunResult): seq<Effect> {
    r.world.effects
  }

  lemma RunInv(p: Policy, mode: Mode, env: Environment, s0: AgentState, payments: map<string, Payment>)
    requires Initial(s0)
    ensures Tame(p, s0, EffectsOf(Run(p, mode, env, s0, payments)))
    ensures
      var r := Run(p, mode, env, s0, payments);
      r.Finished? ==> Inv(p, mode, s0, None, r.state, r.world)
  {
    InvInitially(p, mode, s0, payments);
    RunKept(p, mode, env, s0, RiskDetection, s0, World(payments, []));
    var r := Run(p, mode, env, s0, payments);
    if r.Finished? {
      InvIsTame(p, mode, s0, None, r.state, r.world);
    }
  }

  // ----- The policy gate

  /** Even in a run that raises, every retry, message or recorded action follows an
      approval of that strategy with the counters of that moment. */
  lemma EveryActionIsLicensed(
      p: Policy, mode: Mode, env: Environment, s0: AgentState, payments: map<string, Payment>, i: nat)
    requires Initial(s0)
    requires i < |EffectsOf(Run(p, mode, env, s0, payments))|
    requires IsAction(EffectsOf(Run(p, mode, env, s0, payments))[i])
    ensures Licensed(p, s0, EffectsOf(Run(p, mode, env, s0, payments)), i)
  {
    RunInv(p, mode, env, s0, payments);
  }

  /** What must hold of the case, of the counters so far and of the diagnosis when the
      action `x` follows the effects `e`. */
  predicate MeetsTheRules(p: Policy, s0: AgentState, e: seq<Effect>, x: Effect, confidence: Option<Confidence>) {
    && !Barred(p, s0.facts)
    && (confidence.Some? ==> confidence.value >= p.lowConfidence)
    && (x.RetryCalled? ==>
          && s0.retryCount + Count(e, AnyRetry) < p.maxRetries
          && (s0.facts.hoursSinceLast.Some? ==>
                s0.facts.hoursSinceLast.value >= p.minRetryIntervalHours as real))
    && (x.MessageSent? && !x.strategy.PaymentMethodUpdate? ==>
          s0.communicationCount + Count(e, AnyMessage) < p.maxMessagesPerCase)
    && (IsKind(CheckoutKind, x) ==>
          && s0.facts.timeoutElapsed && s0.facts.amount >= p.minCheckoutAmount
          && s0.checkoutMessages + Count(e, CheckoutKind) < p.maxRecoveryMessages)
  }

  /** Hence no action goes against a rule of the policy; the retry interval is held against
      the time known at the start of the run, for no node updates it. */
  lemma ActionMeetsTheRules(
      p: Policy, mode: Mode, env: Environment, s0: AgentState, payments: map<string, Payment>, i: nat)
    requires Initial(s0)
    requires i < |EffectsOf(Run(p, mode, env, s0, payments))|
    requires IsAction(EffectsOf(Run(p, mode, env, s0, payments))[i])
    ensures
      var e := EffectsOf(Run(p, mode, env, s0, payments));
      && i > 0 && e[i - 1].Decided? && MeetsTheRules(p, s0, e[..i], e[i], e[i - 1].ctx.confidence)
  {
    EveryActionIsLicensed(p, mode, env, s0, payments, i);
  }

  /** The rules that forbid every action on the case, whatever the strategy. */
  predicate Barred(p: Policy, f: Facts) {
    || (p.stopOnOptOut && f.optedOut) || (p.stopOnSuspension && f.suspended)
    || (p.stopOnSuccess && f.alreadyPaid) || f.amount > p.maxAutoAmount || f.amount <= 0
    || (p.escalateUnknown && f.reason.UnknownFailure?)
  }

  lemma NoActionWhenBarred(p: Policy, mode: Mode, env: Environment, s0: AgentState, payments: map<string, Payment>)
    requires Initial(s0) && Barred(p, s0.facts)
    ensures forall x :: x in EffectsOf(Run(p, mode, env, s0, payments)) ==> !IsAction(x)
  {
    RunInv(p, mode, env, s0, payments);
    var e := EffectsOf(Run(p, mode, env, s0, payments));
    assert forall i :: 0 <= i < |e| && IsAction(e[i]) ==> Licensed(p, s0, e, i);
  }

  // ----- Counters and idempotency keys

  /** The retries of a run carry the numbers r0 + 1, r0 + 2, ... in order, so no two
      share an idempotency key, and there are never more than the policy leaves. */
  lemma RetryNumbersAreConsecutive(
      p: Policy, mode: Mode, env: Environment, s0: AgentState, payments: map<string, Payment>)
    requires Initial(s0)
    ensures
      var e := EffectsOf(Run(p, mode, env, s0, payments));
      && Count(e, AnyRetry) <= Max(0, p.maxRetries - s0.retryCount)
      && (forall i :: 0 <= i < |e| && e[i].RetryCalled? ==>
            s0.retryCount < e[i].number <= s0.retryCount + Count(e, AnyRetry))
      && (forall i, j :: 0 <= i < j < |e| && e[i].RetryCalled? && e[j].RetryCalled? ==>
            e[i].number < e[j].number)
  {
    RunInv(p, mode, env, s0, payments);
    var e := EffectsOf(Run(p, mode, env, s0, payments));
    assert e[..|e|] == e;
    forall i | 0 <= i < |e| && e[i].RetryCalled?
      ensures s0.retryCount < e[i].number <= s0.retryCount + Count(e, AnyRetry)
    {
      assert Licensed(p, s0, e, i);
      CountMonotone(e, i, |e|, AnyRetry);
    }
    forall i, j | 0 <= i < j < |e| && e[i].RetryCalled? && e[j].RetryCalled?
      ensures e[i].number < e[j].number
    {
      assert Licensed(p, s0, e, i) && Licensed(p, s0, e, j);
      CountMonotone(e, i, j, AnyRetry);
    }
  }

  /** A finished run's counters are exactly what it did. */
  lemma CountersAreExact(p: Policy, mode: Mode, env: Environment, s0: AgentState, payments: map<string, Payment>)
    requires Initial(s0)
    ensures
      var r := Run(p, mode, env, s0, payments);
      r.Finished? ==>
        && r.state.retryCount == s0.retryCount + Count(r.world.effects, AnyRetry)
        && r.state.communicationCount == s0.communicationCount + Count(r.world.effects, AnyMessage)
        && r.state.retryCount <= Max(s0.retryCount, p.maxRetries)
        && r.state.checkoutMessages <= Max(s0.checkoutMessages, p.maxRecoveryMessages)
        && Count(r.world.effects, AnyAction) <= Max(0, s0.facts.maxReplans) + 1
  {
    RunInv(p, mode, env, s0, payments);
  }

  // ----- Termination and the trace

  lemma RunsAreShortPaths(p: Policy, mode: Mode, env: Environment, s0: AgentState, payments: map<string, Payment>)
    requires Initial(s0)
    ensures
      var r := Run(p, mode, env, s0, payments);
      r.Finished? ==>
        var t := r.state.trace;
        && |t| <= 6 * Max(0, s0.facts.maxReplans) + 10
        && t == r.state.log && t != [] && t[0].RiskDetection? && t[|t| - 1].Completion?
        && (forall i :: 0 < i < |t| ==> Edge(t[i - 1], t[i]))
        && (forall i :: 0 <= i < |t| && t[i].ActionExecution? ==> i > 0 && t[i - 1].PolicyCheck?)
        && r.state.stopped
  {
    RunInv(p, mode, env, s0, payments);
  }

  // ----- Recovery

  /** A run that starts unrecovered ends recovered iff its last status fetch said
      SUCCESS; that fetch is the last thing it does and fixes the recovered amount. */
  lemma RecoveredIffCaptured(p: Policy, mode: Mode, env: Environment, s0: AgentState, payments: map<string, Payment>)
    requires Initial(s0) && !s0.recovered
    ensures
      var r := Run(p, mode, env, s0, payments);
      r.Finished? ==>
        && (r.state.recovered <==> LastFetch(r.world.effects) == Some(Success))
        && (r.state.recovered ==>
              var e := r.world.effects;
              && e != [] && IsCapture(e[|e| - 1])
              && r.state.verification
                 == Some(VerificationResult(Recovered, Some(e[|e| - 1].id), e[|e| - 1].amount)))
  {
    RunInv(p, mode, env, s0, payments);
    var r := Run(p, mode, env, s0, payments);
    if r.Finished? {
      var e := r.world.effects;
      var i := LastFetchIsAFetch(e);
    }
  }

  lemma {:induction false} LastFetchIsAFetch(e: seq<Effect>) returns (i: nat)
    ensures LastFetch(e).Some? ==> i < |e| && e[i].Fetched? && e[i].status == LastFetch(e).value
  {
    i := 0;
    if e != [] {
      if e[|e| - 1].Fetched? {
        i := |e| - 1;
      } else {
        i := LastFetchIsAFetch(e[..|e| - 1]);
      }
    }
  }

  /** With the simulator the recovered amount is the amount of the case. */
  lemma SimulatorRecoversTheCaseAmount(
      p: Policy, env: Environment, s0: AgentState, payments: map<string, Payment>)
    requires Initial(s0) && !s0.recovered
    ensures
      var r := Run(p, Simulator, env, s0, payments);
      r.Finished? && r.state.recovered ==>
        && r.state.verification.Some? && r.state.verification.value.amountRecovered == s0.facts.amount
        && r.state.verification.value.transactionId.Some?
        && |r.state.verification.value.transactionId.value| == 16
  {
    RunInv(p, Simulator, env, s0, payments);
  }

  /** A run on a recovered or already paid case ends after two visits without any
      effect; on a recovered case it reports an escalation. */
  lemma SettledCasesAreLeftAlone(
      p: Policy, mode: Mode, env: Environment, s0: AgentState, payments: map<string, Payment>)
    requires Initial(s0) && (s0.recovered || s0.facts.alreadyPaid)
    ensures
      var r := Run(p, mode, env, s0, payments);
      && EffectsOf(r) == []
      && (r.Finished? ==>
            && r.state.trace == [RiskDetection, Completion] && r.state.recovered == s0.recovered
            && r.state.retryCount == s0.retryCount && r.state.communicationCount == s0.communicationCount
            && r.state.verification.None? && r.state.strategy.None? && r.state.policyResult.None?
            && (s0.recovered ==> r.state.escalationReason == Some(AlreadyRecovered)))
  {
    var w := World(payments, []);
    if env(0).fault.NoFault? {
      Step(p, mode, env, RiskDetection, s0, w);
      var (s1, w1) := Visit(p, mode, RiskDetection, s0, w, env(0));
      assert s1.trace == [RiskDetection] && w1 == w;
      if env(1).fault.NoFault? {
        Step(p, mode, env, Completion, s1, w1);
      }
    }
  }

  // ----- A recovering run

  function OnlyChargedRetries(): Environment {
    n => Input(NoFault, 1.0, RetryNow, "000000000000", true, "", Payment("", Pending, 0))
  }

  predicate RetryApprovable(p: Policy, s0: AgentState) {
    && !s0.facts.alreadyPaid
    && Authorize(p, ContextOf(s0.(confidence := Some(1.0)), RetryNow)).decision.Approved?
  }

  lemma ChargedRetryIsVerified(p: Policy, s: AgentState, w: World)
    requires s.strategy == Some(RetryNow) && s.policyResult.Some? && s.policyResult.value.decision.Approved?
    ensures
      var r := RunFrom(p, Simulator, OnlyChargedRetries(), ActionExecution, s, w);
      r.Finished? && r.state.recovered
  {
    var env := OnlyChargedRetries();
    var (s1, w1) := Visit(p, Simulator, ActionExecution, s, w, env(0));
    Step(p, Simulator, env, ActionExecution, s, w);
    var (s2, w2) := Visit(p, Simulator, Observation, s1, w1, env(0));
    Step(p, Simulator, env, Observation, s1, w1);
    var (s3, w3) := Visit(p, Simulator, Verification, s2, w2, env(0));
    Step(p, Simulator, env, Verification, s2, w2);
    Step(p, Simulator, env, Completion, s3, w3);
  }

  /** A first retry that the simulator charges recovers the case. */
  lemma ChargedRetryRecovers(p: Policy, s0: AgentState, payments: map<string, Payment>)
    requires Initial(s0) && RetryApprovable(p, s0)
    ensures
      var r := Run(p, Simulator, OnlyChargedRetries(), s0, payments);
      r.Finished? && r.state.recovered
  {
    var w0 := World(payments, []);
    Preamble(p, Simulator, OnlyChargedRetries(), s0, w0);
    var s, w := Propose(p, Simulator, OnlyChargedRetries(), Diagnosed(s0, 1.0), w0);
    assert ContextOf(Diagnosed(s0, 1.0), RetryNow) == ContextOf(s0.(confidence := Some(1.0)), RetryNow);
    ChargedRetryIsVerified(p, s, w);
  }
}
