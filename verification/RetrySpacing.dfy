/** How many retries a single run can make. Time does not pass for the policy within a run:
    `hours_since_last_attempt` is never updated, so the retry interval holds between the
    retries of a run only if there is at most one. */
module RetrySpacing {
  import opened Wrappers
  import opened PolicyEngine
  import opened AgentGraph
  import opened AgentSafety
  import opened AgentScripts
  import opened AgentTheorems
  import opened IdempotencyKeys

  // ----- Effects are only added

  lemma VisitGrows(p: Policy, mode: Mode, n: Node, s: AgentState, w: World, input: Input)
    ensures w.effects <= Visit(p, mode, n, s, w, input).1.effects
  {
    match n
    case PolicyCheck => PolicyChecks(p, s, w);
    case ActionExecution => ActionGrows(mode, s, w, input);
    case Verification => VerificationVerifies(mode, s, w, input);
    case _ => QuietVisit(p, mode, n, s, w, input);
  }

  lemma ActionGrows(mode: Mode, s: AgentState, w: World, input: Input)
    ensures w.effects <= ActionNode(mode, s, w, input).1.effects
  {
  }

  lemma {:induction false} RunGrows(p: Policy, mode: Mode, env: Environment, n: Node, s: AgentState, w: World)
    requires WellPlaced(n, s)
    ensures w.effects <= RunFrom(p, mode, env, n, s, w).world.effects
    decreases VisitsLeft(n, s)
  {
    var input := env(|s.trace|);
    if !input.fault.FaultBefore? {
      var (s', w') := Visit(p, mode, n, s, w, input);
      VisitGrows(p, mode, n, s, w, input);
      VisitDecreases(p, mode, n, s, w, input);
      if Route(n, s').Some? && !input.fault.FaultAfter? {
        RunGrows(p, mode, env, Route(n, s').value, s', w');
      }
    }
  }

  lemma CountGrows(p: Policy, mode: Mode, env: Environment, n: Node, s: AgentState, w: World, k: Kind)
    requires WellPlaced(n, s)
    ensures Count(w.effects, k) <= Count(RunFrom(p, mode, env, n, s, w).world.effects, k)
  {
    RunGrows(p, mode, env, n, s, w);
    var e := RunFrom(p, mode, env, n, s, w).world.effects;
    CountMonotone(e, |w.effects|, |e|, k);
    assert e[..|w.effects|] == w.effects && e[..|e|] == e;
  }

  // ----- The bound

  /** The number of retries a run can make. */
  function MostRetries(p: Policy, s0: AgentState): int {
    if RetryApprovable(p, s0) then Min(p.maxRetries - s0.retryCount, Max(0, s0.facts.maxReplans) + 1) else 0
  }

  lemma RetriesAreBounded(p: Policy, mode: Mode, env: Environment, s0: AgentState, payments: map<string, Payment>)
    requires Initial(s0)
    ensures Count(EffectsOf(Run(p, mode, env, s0, payments)), AnyRetry) <= MostRetries(p, s0)
  {
    var e := EffectsOf(Run(p, mode, env, s0, payments));
    RunInv(p, mode, env, s0, payments);
    CountIncluded(e, AnyRetry, AnyAction);
    if Count(e, AnyRetry) > 0 {
      RetriesNeedApproval(p, mode, env, s0, payments);
    }
  }

  // ----- The bound is reached

  /** Retries at once, none of them charged, until the run fails. */
  function FailedRetries(limit: nat): Environment {
    n => Input(if n < limit then NoFault else FaultBefore, 1.0, RetryNow, "000000000000", false, "payment",
               Payment("", Pending, 0))
  }

  lemma RetryApproved(p: Policy, s: AgentState, s': AgentState)
    requires RetryApprovable(p, s) && s'.facts == s.facts && !s'.recovered
    requires s'.confidence == Some(1.0) && s'.retryCount < p.maxRetries
    ensures RetryApprovable(p, s') && Authorize(p, ContextOf(s', RetryNow)).decision.Approved?
  {
    assert ContextOf(s', RetryNow) == ContextOf(s'.(confidence := Some(1.0)), RetryNow);
  }

  /** One effect more: a fetch that is no capture, or none. */
  ghost predicate NoNews(w: World, w': World) {
    w'.effects == w.effects || exists id, status, amount ::
      w'.effects == w.effects + [Fetched(id, status, amount)] && !status.Success?
  }

  lemma FailureVerified(mode: Mode, s: AgentState, w: World, input: Input)
    requires PaysNow(s) && Answered(mode, s, w, input) && !input.charged && !input.fetched.status.Success?
    ensures
      var (s', w') := VerifyNode(mode, s, w, input);
      OnlyProposed(s, s') && s'.trace == s.trace + [Verification] && NoNews(w, w')
  {
    var (s', w') := VerifyNode(mode, s, w, input);
    var id := s.execution.value.transactionId;
    var payment := GetPayment(mode, w, id, input);
    if id != "" {
      assert w'.effects == w.effects + [Fetched(id, payment.status, payment.amount)];
    }
  }

  lemma NoNewsNoRetry(w: World, w': World)
    requires NoNews(w, w')
    ensures Count(w'.effects, AnyRetry) == Count(w.effects, AnyRetry)
  {
    if w'.effects != w.effects {
      CountSnoc(w.effects, w'.effects[|w.effects|]);
    }
  }

  /** A retry that fails is counted, and the run goes on to verify it. */
  lemma RetryFails(p: Policy, mode: Mode, limit: nat, s: AgentState, w: World)
    returns (s': AgentState, w': World)
    requires RetryApprovable(p, s) && s.confidence == Some(1.0) && s.retryCount < p.maxRetries && !s.recovered
    requires |s.trace| + 4 <= limit
    ensures s'.facts == s.facts && s'.retryCount == s.retryCount + 1 && s'.replans == s.replans
    ensures !s'.recovered && s'.confidence == s.confidence && PaysNow(s') && |s'.trace| == |s.trace| + 4
    ensures Count(w'.effects, AnyRetry) == Count(w.effects, AnyRetry) + 1
    ensures Answered(mode, s', w', FailedRetries(limit)(|s'.trace|))
    ensures
      var env := FailedRetries(limit);
      RunFrom(p, mode, env, Strategise, s, w) == RunFrom(p, mode, env, Verification, s', w')
  {
    RetryApproved(p, s, s);
    var s1, w1 := Propose(p, mode, FailedRetries(limit), s, w);
    s', w' := CarryOut(p, mode, FailedRetries(limit), s1, w1);
    CountSnoc(w.effects, w1.effects[|w.effects|]);
    CountSnoc(w1.effects, ActionEffect(s1));
  }

  lemma NextRound(p: Policy, mode: Mode, limit: nat, s: AgentState, w: World) returns (s': AgentState, w': World)
    requires PaysNow(s) && !s.recovered && s.replans < s.facts.maxReplans && |s.trace| + 2 <= limit
    requires Answered(mode, s, w, FailedRetries(limit)(|s.trace|))
    ensures s'.facts == s.facts && s'.retryCount == s.retryCount && s'.replans == s.replans + 1
    ensures !s'.recovered && s'.confidence == s.confidence && |s'.trace| == |s.trace| + 2
    ensures Count(w'.effects, AnyRetry) == Count(w.effects, AnyRetry)
    ensures
      var env := FailedRetries(limit);
      RunFrom(p, mode, env, Verification, s, w) == RunFrom(p, mode, env, Strategise, s', w')
  {
    var env := FailedRetries(limit);
    FailureVerified(mode, s, w, env(|s.trace|));
    var s1 := Visit(p, mode, Verification, s, w, env(|s.trace|)).0;
    w' := Visit(p, mode, Verification, s, w, env(|s.trace|)).1;
    NoNewsNoRetry(w, w');
    Step(p, mode, env, Verification, s, w);
    ReplanGoesOn(p, mode, env, s1, w');
    s' := Replanned(s1);
  }

  /** From here on the run makes at least `j` more retries, and can fail right after them. */
  lemma {:induction false} RetryRounds(p: Policy, mode: Mode, limit: nat, s: AgentState, w: World, j: nat)
    requires RetryApprovable(p, s) && s.confidence == Some(1.0) && !s.recovered
    requires 1 <= j <= p.maxRetries - s.retryCount && j <= ReplansLeft(s) + 1
    requires |s.trace| + 6 * j - 2 <= limit
    ensures
      var r := RunFrom(p, mode, FailedRetries(limit), Strategise, s, w);
      && Count(r.world.effects, AnyRetry) >= Count(w.effects, AnyRetry) + j
      && (limit == |s.trace| + 6 * j - 2 ==> r.Raised?)
    decreases j
  {
    var s1, w1 := RetryFails(p, mode, limit, s, w);
    if j == 1 {
      CountGrows(p, mode, FailedRetries(limit), Verification, s1, w1, AnyRetry);
      if limit == |s1.trace| {
        FaultAtVerification(p, mode, FailedRetries(limit), s1, w1);
      }
    } else {
      var s2, w2 := NextRound(p, mode, limit, s1, w1);
      RetryApproved(p, s, s2);
      RetryRounds(p, mode, limit, s2, w2, j - 1);
    }
  }

  lemma FailedRetriesReachTheBound(p: Policy, mode: Mode, limit: nat, s0: AgentState, payments: map<string, Payment>)
    requires Initial(s0) && RetryApprovable(p, s0) && limit >= 6 * MostRetries(p, s0) + 1
    ensures MostRetries(p, s0) >= 1
    ensures
      var r := Run(p, mode, FailedRetries(limit), s0, payments);
      && Count(EffectsOf(r), AnyRetry) == MostRetries(p, s0)
      && (limit == 6 * MostRetries(p, s0) + 1 ==> r.Raised?)
  {
    var w0 := World(payments, []);
    var s := Diagnosed(s0, 1.0);
    BothRetriesPass(p, s0, RetryNow);
    Preamble(p, mode, FailedRetries(limit), s0, w0);
    RetryApproved(p, s0, s);
    RetryRounds(p, mode, limit, s, w0, MostRetries(p, s0));
    RetriesAreBounded(p, mode, FailedRetries(limit), s0, payments);
  }

  /** For every number: no run makes more retries than that, whatever is proposed and
      answered, exactly when no retry is approvable or the retries or the rounds left do not
      exceed it. */
  lemma RetryBoundIsExact(p: Policy, mode: Mode, s0: AgentState, payments: map<string, Payment>, k: nat)
    requires Initial(s0)
    ensures
      (forall env: Environment :: Count(EffectsOf(Run(p, mode, env, s0, payments)), AnyRetry) <= k)
      <==> MostRetries(p, s0) <= k
  {
    if MostRetries(p, s0) <= k {
      forall env: Environment ensures Count(EffectsOf(Run(p, mode, env, s0, payments)), AnyRetry) <= k {
        RetriesAreBounded(p, mode, env, s0, payments);
      }
    } else {
      FailedRetriesReachTheBound(p, mode, 6 * MostRetries(p, s0) + 1, s0, payments);
    }
  }

  /** No run makes a second retry, which nothing would keep apart from the first, exactly when
      no retry is approvable, at most one is left, or there is no replan. */
  lemma RetriesAreSpacedIff(p: Policy, mode: Mode, s0: AgentState, payments: map<string, Payment>)
    requires Initial(s0)
    ensures
      (forall env: Environment :: Count(EffectsOf(Run(p, mode, env, s0, payments)), AnyRetry) <= 1)
      <==> !RetryApprovable(p, s0) || p.maxRetries - s0.retryCount <= 1 || s0.facts.maxReplans <= 0
  {
    RetryBoundIsExact(p, mode, s0, payments, 1);
  }
}
