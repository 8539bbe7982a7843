/** What an applied run leaves in the rows of the store, told by the effects of the run. */
module AppliedRuns {
  import opened Wrappers
  import opened PolicyEngine
  import opened CaseStore
  import opened RecoveryProtocol
  import opened ProtocolTheorems
  import opened RunOutcomes
  import opened AgentAnswers
  import Agent = AgentGraph
  import Effects = AgentSafety
  import Runs = AgentTheorems

  // ----- One run

  predicate Captured(e: seq<Agent.Effect>) {
    Effects.LastFetch(e) == Some(Agent.Success)
  }

  /** The amount of the last effect, a fetch where a payment was captured. */
  function CapturedAmount(e: seq<Agent.Effect>): int {
    if e != [] && e[|e| - 1].Fetched? then e[|e| - 1].amount else 0
  }

  /** A captured payment recovers the case; without one the run escalates, unless the case has
      nothing to recover. */
  function StatusLeft(k: Case, e: seq<Agent.Effect>): CaseStatus {
    if Captured(e) then Recovered else if !k.recovered && k.amountAtRisk <= 0 then CaseStatus.Stopped else Escalated
  }

  /** The strategy and the decision of the last policy check; unchanged if there was none. */
  predicate RemembersLastCheck(k: Case, k': Case, e: seq<Agent.Effect>) {
    match LastDecision(e)
    case None => k'.strategy == k.strategy && k'.policyDecision == k.policyDecision
    case Some(x) =>
      && k'.strategy.Some? && ActionOf(k'.strategy.value) == x.ctx.action
      && k'.policyDecision == Some(x.decision)
  }

  /** Why the case was escalated: it was recovered already, or what the last check said. */
  ghost predicate EscalatedFor(p: Policy, k: Case, k': Case, e: seq<Agent.Effect>) {
    if !StatusLeft(k, e).Escalated? then k'.escalation == k.escalation
    else if k.recovered then k'.escalation == Some(ByAgent(Agent.AlreadyRecovered))
    else
      && LastDecision(e).Some? && k'.escalation.Some? && k'.escalation.value.ByAgent?
      && Explains(p, LastDecision(e).value.ctx, k'.escalation.value.reason)
  }

  /** The row `k'` of a case after a run with the effects `e` from the row `k`. */
  ghost predicate RunLeaves(p: Policy, k: Case, k': Case, e: seq<Agent.Effect>) {
    && k'.retryCount == k.retryCount + Effects.Count(e, Effects.AnyRetry)
    && k'.communicationCount == k.communicationCount + Effects.Count(e, Effects.AnyMessage)
    && (k'.recovered <==> k.recovered || Captured(e)) && k'.stopped && k'.status == StatusLeft(k, e)
    && k'.amountRecovered == (if Captured(e) then CapturedAmount(e) else k.amountRecovered)
    && RemembersLastCheck(k, k', e) && EscalatedFor(p, k, k', e)
    && k' == k.(retryCount := k'.retryCount, communicationCount := k'.communicationCount, recovered := k'.recovered,
                stopped := k'.stopped, status := k'.status, amountRecovered := k'.amountRecovered,
                strategy := k'.strategy, policyDecision := k'.policyDecision, escalation := k'.escalation)
  }

  lemma FinishedRunFacts(p: Policy, mode: Agent.Mode, env: Agent.Environment, k: Case)
    requires CaseOk(k)
    ensures
      var r := Agent.Run(p, mode, env, StartState(k), map[]);
      var e := r.world.effects;
      r.Finished? ==>
        && r.state.stopped && r.state.retryCount == k.retryCount + Effects.Count(e, Effects.AnyRetry)
        && r.state.communicationCount == k.communicationCount + Effects.Count(e, Effects.AnyMessage)
        && (r.state.recovered <==> k.recovered || Captured(e))
        && (k.recovered ==> e == [] && r.state.verification.None?)
        && (Captured(e) ==>
              && e != [] && e[|e| - 1].Fetched? && r.state.verification.Some?
              && r.state.verification.value.amountRecovered == e[|e| - 1].amount
              && r.state.verification.value.transactionId == Some(e[|e| - 1].id))
  {
    var s0 := StartState(k);
    Runs.CountersAreExact(p, mode, env, s0, map[]);
    Runs.RunsAreShortPaths(p, mode, env, s0, map[]);
    if k.recovered {
      Runs.SettledCasesAreLeftAlone(p, mode, env, s0, map[]);
    } else {
      Runs.RecoveredIffCaptured(p, mode, env, s0, map[]);
    }
  }

  lemma AppliedRow(p: Policy, mode: Agent.Mode, env: Agent.Environment, k: Case)
    requires CaseOk(k)
    ensures
      var r := Agent.Run(p, mode, env, StartState(k), map[]);
      r.Finished? ==> RunLeaves(p, k, Applied(k, r.state), r.world.effects)
  {
    FinishedRunFacts(p, mode, env, k);
    FinishedRunReports(p, mode, env, StartState(k), map[]);
  }

  // ----- One execution

  /** What a completed run adds to the ledger: its recovery or its escalation, and its end. */
  function RunEvents(c: nat, k: Case, e: seq<Agent.Effect>): seq<AuditEvent> {
    var ended := [AuditEvent(AgentRunCompleted, c, 0, None)];
    match StatusLeft(k, e)
    case Recovered => [AuditEvent(RevenueRecovered, c, CapturedAmount(e), None)] + ended
    case Escalated => [AuditEvent(CaseEscalated, c, 0, None)] + ended
    case _ => ended
  }

  lemma AppliedEventsAre(db: Db, r: nat, a: Attempt)
    requires Inv(db) && r < |db.runs| && RunOf(db, r, a).Finished?
    ensures
      var c, s := db.runs[r].caseId, RunOf(db, r, a).state;
      AppliedEvents(c, s, a.base16)
      == if AuditRaises(s, a.base16) then [] else RunEvents(c, db.cases[c], RunOf(db, r, a).world.effects)
  {
    var k := db.cases[db.runs[r].caseId];
    FinishedRunFacts(a.policy, a.mode, a.env, k);
    FinishedRunReports(a.policy, a.mode, a.env, StartState(k), map[]);
  }

  /** An execution whose finished run is not rolled back rewrites the row of its case as its
      effects say and no other, ends the run with its trace, and adds the events of its end; of
      a run in ERROR only the last. */
  lemma ExecutionLeaves(db: Db, r: nat, finalAttempt: bool, a: Attempt)
    requires Inv(db) && r < |db.runs| && db.runs[r].status.Running? && RunOf(db, r, a).Finished?
    ensures
      var (db', answer) := ExecuteRun(db, r, finalAttempt, a);
      var c := db.runs[r].caseId;
      var e := RunOf(db, r, a).world.effects;
      !answer.Reraised? ==>
        && |db'.cases| == |db.cases| && db'.cases == db.cases[c := db'.cases[c]]
        && RunLeaves(a.policy, db.cases[c], db'.cases[c], e) && db'.receipts == db.receipts
        && (answer == Ended(Completed) || (finalAttempt && answer == Ended(Error)))
        && db'.runs == db.runs[r := AgentRun(c, answer.status, RunOf(db, r, a).state.trace)]
        && db'.ledger == db.ledger + if answer.status.Completed? then RunEvents(c, db.cases[c], e)
                                     else [AuditEvent(AgentRunCompleted, c, 0, None)]
  {
    var c, k := db.runs[r].caseId, db.cases[db.runs[r].caseId];
    var s := RunOf(db, r, a).state;
    AppliedRow(a.policy, a.mode, a.env, k);
    AppliedEventsAre(db, r, a);
    Runs.RunsAreShortPaths(a.policy, a.mode, a.env, StartState(k), map[]);
    assert db.ledger + [] == db.ledger;
  }

  /** An execution whose run raised leaves every case alone; a final one marks the run ERROR and
      records its end. */
  lemma RaisedExecutionLeaves(db: Db, r: nat, finalAttempt: bool, a: Attempt)
    requires Inv(db) && r < |db.runs| && db.runs[r].status.Running? && RunOf(db, r, a).Raised?
    ensures
      var (db', answer) := ExecuteRun(db, r, finalAttempt, a);
      if finalAttempt then
        && answer == Ended(Error) && db'.cases == db.cases && db'.receipts == db.receipts
        && db'.runs == db.runs[r := db.runs[r].(status := Error)]
        && db'.ledger == db.ledger + [AuditEvent(AgentRunCompleted, db.runs[r].caseId, 0, None)]
      else (db', answer) == (db, Reraised)
  {
  }

  lemma {:induction false} LastDecisionAt(e: seq<Agent.Effect>) returns (i: nat)
    requires LastDecision(e).Some?
    ensures i < |e| && e[i] == LastDecision(e).value
    ensures Effects.Count(e, Effects.AnyDecision) == Effects.Count(e[..i], Effects.AnyDecision) + 1
  {
    var n := |e| - 1;
    if e[n].Decided? {
      i := n;
    } else {
      i := LastDecisionAt(e[..n]);
      assert e[..n][..i] == e[..i];
    }
  }

  lemma ActionsDiffer(s: Strategy, t: Strategy)
    ensures ActionOf(s) == ActionOf(t) <==> s == t
  {
  }

  lemma LastDecisionIsTold(p: Policy, mode: Agent.Mode, env: Agent.Environment, s0: Agent.AgentState)
    requires Agent.Initial(s0)
    ensures
      var e := Agent.Run(p, mode, env, s0, map[]).world.effects;
      var rounds := Effects.Count(e, Effects.AnyDecision);
      && (LastDecision(e).Some? <==> rounds > 0)
      && (rounds > 0 ==> LastDecision(e).value.ctx.action == ActionOf(env(RoundStart(rounds - 1)).strategy))
  {
    var e := Agent.Run(p, mode, env, s0, map[]).world.effects;
    if LastDecision(e).Some? {
      var i := LastDecisionAt(e);
      EffectsFollowTheAnswers(p, mode, env, s0, map[], i);
    } else {
      NoDecisions(e);
    }
  }

  /** The strategy that stays on the row is the one proposed in the last round of the run. */
  lemma LastProposalStays(db: Db, r: nat, finalAttempt: bool, a: Attempt)
    requires Inv(db) && r < |db.runs| && db.runs[r].status.Running? && RunOf(db, r, a).Finished?
    requires !ExecuteRun(db, r, finalAttempt, a).1.Reraised?
    ensures
      var c := db.runs[r].caseId;
      var rounds := Effects.Count(RunOf(db, r, a).world.effects, Effects.AnyDecision);
      && |ExecuteRun(db, r, finalAttempt, a).0.cases| == |db.cases|
      && ExecuteRun(db, r, finalAttempt, a).0.cases[c].strategy
         == if rounds == 0 then db.cases[c].strategy else Some(a.env(RoundStart(rounds - 1)).strategy)
  {
    ExecutionLeaves(db, r, finalAttempt, a);
    LastDecisionIsTold(a.policy, a.mode, a.env, StartState(db.cases[db.runs[r].caseId]));
    var row := ExecuteRun(db, r, finalAttempt, a).0.cases[db.runs[r].caseId];
    var rounds := Effects.Count(RunOf(db, r, a).world.effects, Effects.AnyDecision);
    if rounds > 0 {
      ActionsDiffer(row.strategy.value, a.env(RoundStart(rounds - 1)).strategy);
    }
  }

  lemma {:induction false} NoDecisions(e: seq<Agent.Effect>)
    requires LastDecision(e).None?
    ensures Effects.Count(e, Effects.AnyDecision) == 0
  {
    if e != [] {
      NoDecisions(e[..|e| - 1]);
    }
  }

  /** A case that was recovered after its run had started is left recovered, with the status
      ESCALATED. */
  lemma RecoveredCaseIsMarkedEscalated(db: Db, r: nat, finalAttempt: bool, a: Attempt)
    requires Inv(db) && r < |db.runs| && db.runs[r].status.Running? && RunOf(db, r, a).Finished?
    requires db.cases[db.runs[r].caseId].recovered
    ensures
      var (db', answer) := ExecuteRun(db, r, finalAttempt, a);
      var c := db.runs[r].caseId;
      && answer == Ended(Completed) && db'.cases[c].recovered && db'.cases[c].status.Escalated?
      && db'.cases[c].escalation == Some(ByAgent(Agent.AlreadyRecovered))
      && db'.cases[c].amountRecovered == db.cases[c].amountRecovered
      && db'.cases[c].paymentId == db.cases[c].paymentId
  {
    ExecutionLeaves(db, r, finalAttempt, a);
    FinishedRunFacts(a.policy, a.mode, a.env, db.cases[db.runs[r].caseId]);
  }

  // ----- Histories

  /** The effects of this kind in the executions whose result `step` applies to case `c`. */
  function AppliedBy(db: Db, step: Step, c: nat, kind: Effects.Kind): nat
    requires RunsHaveCases(db)
  {
    match step
    case Execute(r, finalAttempt, a) =>
      if r < |db.runs| && db.runs[r].status.Running? && db.runs[r].caseId == c then
        match RunOf(db, r, a)
        case Raised(_) => 0
        case Finished(s, w) => if AuditRaises(s, a.base16) && !finalAttempt then 0 else Effects.Count(w.effects, kind)
      else 0
    case _ => 0
  }

  function AppliedIn(steps: seq<Step>, c: nat, kind: Effects.Kind): nat {
    if steps == [] then 0
    else
      var before := steps[..|steps| - 1];
      AppliedIn(before, c, kind) + AppliedBy(After(EMPTY, before), steps[|steps| - 1], c, kind)
  }

  predicate CountersGrow(k: Case, k': Case, retries: nat, messages: nat) {
    k'.retryCount == k.retryCount + retries && k'.communicationCount == k.communicationCount + messages
  }

  lemma ExecutionCounts(db: Db, r: nat, finalAttempt: bool, a: Attempt, c: nat)
    requires Inv(db) && c < |db.cases|
    ensures
      var db' := ExecuteRun(db, r, finalAttempt, a).0;
      var step := Execute(r, finalAttempt, a);
      && |db'.cases| == |db.cases|
      && CountersGrow(db.cases[c], db'.cases[c],
                      AppliedBy(db, step, c, Effects.AnyRetry), AppliedBy(db, step, c, Effects.AnyMessage))
  {
    if r < |db.runs| && db.runs[r].status.Running? && RunOf(db, r, a).Finished? {
      ExecutionLeaves(db, r, finalAttempt, a);
    }
  }

  lemma RequestCounts(db: Db, ready: bool, q: CallbackRequest, fetch: Fetch, c: nat)
    ensures
      var db' := VerifyPayment(db, ready, q, fetch).0;
      |db'.cases| == |db.cases| && (c < |db.cases| ==> CountersGrow(db.cases[c], db'.cases[c], 0, 0))
  {
  }

  lemma DeliveryCounts(db: Db, configured: bool, q: WebhookRequest, fetch: Fetch, c: nat)
    ensures
      var db' := ReceiveWebhook(db, configured, q, fetch).0;
      |db'.cases| == |db.cases| && (c < |db.cases| ==> CountersGrow(db.cases[c], db'.cases[c], 0, 0))
  {
  }

  lemma StepCounts(db: Db, step: Step, c: nat)
    requires Inv(db) && c < |db.cases|
    ensures c < |Apply(db, step).cases|
    ensures CountersGrow(db.cases[c], Apply(db, step).cases[c],
                         AppliedBy(db, step, c, Effects.AnyRetry), AppliedBy(db, step, c, Effects.AnyMessage))
  {
    match step
    case Execute(r, finalAttempt, a) => ExecutionCounts(db, r, finalAttempt, a, c);
    case Callback(ready, q, fetch) => RequestCounts(db, ready, q, fetch, c);
    case Webhook(configured, q, fetch) => DeliveryCounts(db, configured, q, fetch, c);
    case _ =>
  }

  lemma NewCaseCounts(db: Db, step: Step, c: nat)
    requires Inv(db) && |db.cases| <= c < |Apply(db, step).cases|
    ensures !step.Execute? && CountersAre(Apply(db, step).cases[c], 0, 0)
  {
    match step
    case Execute(r, finalAttempt, a) => ExecutionKeepsSize(db, r, finalAttempt, a);
    case Callback(ready, q, fetch) => RequestCounts(db, ready, q, fetch, c);
    case Webhook(configured, q, fetch) => DeliveryCounts(db, configured, q, fetch, c);
    case _ => StepIsPlain(db, step);
  }

  predicate CountersAre(k: Case, retries: nat, messages: nat) {
    k.retryCount == retries && k.communicationCount == messages
  }

  /** Over every history `retry_count` is the number of provider retries, and
      `communication_count` the number of messages, of the executions whose result was applied;
      those of attempts rolled back are not in them. */
  lemma {:induction false} CountersAreAppliedEffects(steps: seq<Step>, c: nat)
    ensures
      var db := After(EMPTY, steps);
      var retries, messages := AppliedIn(steps, c, Effects.AnyRetry), AppliedIn(steps, c, Effects.AnyMessage);
      if c < |db.cases| then CountersAre(db.cases[c], retries, messages) else retries == messages == 0
  {
    if steps != [] {
      var n := |steps| - 1;
      var before := After(EMPTY, steps[..n]);
      CountersAreAppliedEffects(steps[..n], c);
      HistoryKeepsInv(EMPTY, steps[..n]);
      StepGrows(before, steps[n]);
      if c < |before.cases| {
        StepCounts(before, steps[n], c);
      } else if c < |After(EMPTY, steps).cases| {
        NewCaseCounts(before, steps[n], c);
      }
    }
  }
}
