/** Which recoveries the ledger shows, for every provider: those through a payment always,
    those by an agent run as far as the audit service accepts the transaction id. */
module LedgerTheorems {
  import opened Wrappers
  import opened CaseStore
  import opened RecoveryProtocol
  import opened ProtocolTheorems
  import AgentTheorems
  import Uuid

  /** The execution of run `r` recovers its so far unrecovered case. */
  predicate Recovers(db: Db, r: nat, finalAttempt: bool, a: Attempt)
    requires RunsHaveCases(db)
  {
    && r < |db.runs| && db.runs[r].status.Running? && !db.cases[db.runs[r].caseId].recovered
    && RunOf(db, r, a).Finished? && RunOf(db, r, a).state.recovered
    && (finalAttempt || !AuditRaises(RunOf(db, r, a).state, a.base16))
  }

  /** A transaction id and the conversion by which the audit service reads it. */
  datatype Report = Report(id: string, base16: string -> bool)

  /** How the run reports its recovery to the audit service. */
  function ReportOf(db: Db, r: nat, a: Attempt): Report
    requires RunsHaveCases(db) && r < |db.runs| && RunOf(db, r, a).Finished?
  {
    var v := RunOf(db, r, a).state.verification;
    Report(if v.Some? && v.value.transactionId.Some? then v.value.transactionId.value else "", a.base16)
  }

  /** The id is empty or parses as a uuid. */
  predicate Loggable(report: Report) {
    report.id == "" || Uuid.Parses(report.id, report.base16)
  }

  lemma RecoveringRun(db: Db, r: nat, a: Attempt)
    requires Inv(db) && r < |db.runs| && !db.cases[db.runs[r].caseId].recovered
    requires RunOf(db, r, a).Finished? && RunOf(db, r, a).state.recovered
    ensures ReportsRecovery(RunOf(db, r, a).state)
    ensures AuditRaises(RunOf(db, r, a).state, a.base16) <==> !Loggable(ReportOf(db, r, a))
  {
    AgentTheorems.RecoveredIffCaptured(a.policy, a.mode, a.env, StartState(db.cases[db.runs[r].caseId]), map[]);
  }

  lemma OneMoreEvent(ledger: seq<AuditEvent>, c: nat, amount: int)
    ensures
      var events := [AuditEvent(RevenueRecovered, c, amount, None)] + [AuditEvent(AgentRunCompleted, c, 0, None)];
      forall d: nat :: RevenueEvents(ledger + events, d, false)
                       == RevenueEvents(ledger, d, false) + if d == c then 1 else 0
  {
    var x := AuditEvent(RevenueRecovered, c, amount, None);
    var y := AuditEvent(AgentRunCompleted, c, 0, None);
    assert ledger + ([x] + [y]) == (ledger + [x]) + [y];
    assert ((ledger + [x]) + [y])[..|ledger| + 1] == ledger + [x];
    assert (ledger + [x])[..|ledger|] == ledger;
  }

  lemma AppliedRecovery(db: Db, r: nat, a: Attempt, d: nat)
    requires Inv(db) && r < |db.runs| && !db.cases[db.runs[r].caseId].recovered
    requires RunOf(db, r, a).Finished? && RunOf(db, r, a).state.recovered
    ensures
      var c := db.runs[r].caseId;
      var s := RunOf(db, r, a).state;
      RevenueEvents(ApplyResult(db, r, s, a.base16).ledger, d, false)
      == RevenueEvents(db.ledger, d, false) + if d == c && Loggable(ReportOf(db, r, a)) then 1 else 0
  {
    var c, s := db.runs[r].caseId, RunOf(db, r, a).state;
    RecoveringRun(db, r, a);
    if AuditRaises(s, a.base16) {
      assert db.ledger + [] == db.ledger;
    } else {
      OneMoreEvent(db.ledger, c, s.verification.value.amountRecovered);
    }
  }

  lemma AppliedOtherwise(db: Db, r: nat, a: Attempt, d: nat)
    requires Inv(db) && r < |db.runs| && RunOf(db, r, a).Finished?
    requires db.cases[db.runs[r].caseId].recovered || !RunOf(db, r, a).state.recovered
    ensures !ReportsRecovery(RunOf(db, r, a).state)
    ensures RevenueEvents(ApplyResult(db, r, RunOf(db, r, a).state, a.base16).ledger, d, false)
         == RevenueEvents(db.ledger, d, false)
  {
    var k := db.cases[db.runs[r].caseId];
    if k.recovered {
      AgentTheorems.SettledCasesAreLeftAlone(a.policy, a.mode, a.env, StartState(k), map[]);
    }
    QuietEvents(db.ledger, AppliedEvents(db.runs[r].caseId, RunOf(db, r, a).state, a.base16));
  }

  lemma MarkErrorIsQuiet(db: Db, r: nat, d: nat)
    requires r < |db.runs|
    ensures RevenueEvents(MarkError(db, r).ledger, d, false) == RevenueEvents(db.ledger, d, false)
  {
    QuietEvents(db.ledger, [AuditEvent(AgentRunCompleted, db.runs[r].caseId, 0, None)]);
  }

  lemma AppliedLogsIff(db: Db, r: nat, a: Attempt, d: nat)
    requires Inv(db) && r < |db.runs| && RunOf(db, r, a).Finished?
    ensures
      var c := db.runs[r].caseId;
      var s := RunOf(db, r, a).state;
      var logs := !db.cases[c].recovered && s.recovered && Loggable(ReportOf(db, r, a));
      && RevenueEvents(ApplyResult(db, r, s, a.base16).ledger, d, false)
         == RevenueEvents(db.ledger, d, false) + (if logs && d == c then 1 else 0)
      && (AuditRaises(s, a.base16) ==> !logs)
  {
    if !db.cases[db.runs[r].caseId].recovered && RunOf(db, r, a).state.recovered {
      RecoveringRun(db, r, a);
      AppliedRecovery(db, r, a, d);
    } else {
      AppliedOtherwise(db, r, a, d);
    }
  }

  predicate Logs(db: Db, r: nat, finalAttempt: bool, a: Attempt, d: nat)
    requires RunsHaveCases(db)
  {
    Recovers(db, r, finalAttempt, a) && d == db.runs[r].caseId && Loggable(ReportOf(db, r, a))
  }

  lemma FinishedExecutionLogsIff(db: Db, r: nat, finalAttempt: bool, a: Attempt, d: nat)
    requires Inv(db) && r < |db.runs| && db.runs[r].status.Running? && RunOf(db, r, a).Finished?
    ensures
      RevenueEvents(ExecuteRun(db, r, finalAttempt, a).0.ledger, d, false)
      == RevenueEvents(db.ledger, d, false) + if Logs(db, r, finalAttempt, a, d) then 1 else 0
  {
    AppliedLogsIff(db, r, a, d);
    MarkErrorIsQuiet(ApplyResult(db, r, RunOf(db, r, a).state, a.base16), r, d);
  }

  /** An execution adds its REVENUE_RECOVERED event iff it recovers the case and the
      transaction id is empty or parses as a uuid; nothing else adds one. */
  lemma ExecutionLogsIff(db: Db, r: nat, finalAttempt: bool, a: Attempt, d: nat)
    requires Inv(db)
    ensures
      RevenueEvents(ExecuteRun(db, r, finalAttempt, a).0.ledger, d, false)
      == RevenueEvents(db.ledger, d, false) + if Logs(db, r, finalAttempt, a, d) then 1 else 0
  {
    if r < |db.runs| && db.runs[r].status.Running? {
      if RunOf(db, r, a).Finished? {
        FinishedExecutionLogsIff(db, r, finalAttempt, a, d);
      } else {
        MarkErrorIsQuiet(db, r, d);
      }
    }
  }

  /** And it is what recovers a case, on whose row it leaves no payment. */
  lemma ExecutionRecoversIff(db: Db, r: nat, finalAttempt: bool, a: Attempt, d: nat)
    requires Inv(db) && d < |db.cases|
    ensures
      var db' := ExecuteRun(db, r, finalAttempt, a).0;
      && |db'.cases| == |db.cases|
      && (db'.cases[d].recovered
          <==> db.cases[d].recovered || (Recovers(db, r, finalAttempt, a) && d == db.runs[r].caseId))
      && db'.cases[d].paymentId == db.cases[d].paymentId
  {
    if r < |db.runs| && db.runs[r].status.Running? {
      AgentRow(db.cases[db.runs[r].caseId], a);
    }
  }

  // ----- Histories

  /** The report of the execution that recovered case `c`, if one did. */
  function Recoverer(steps: seq<Step>, c: nat): Option<Report> {
    if steps == [] then None
    else
      var n := |steps| - 1;
      var before := After(EMPTY, steps[..n]);
      match steps[n]
      case Execute(r, finalAttempt, a) =>
        if Recovers(before, r, finalAttempt, a) && before.runs[r].caseId == c then Some(ReportOf(before, r, a))
        else Recoverer(steps[..n], c)
      case _ => Recoverer(steps[..n], c)
  }

  lemma OtherStepsLogNothing(db: Db, step: Step, d: nat)
    requires Inv(db) && !step.Execute?
    ensures RevenueEvents(Apply(db, step).ledger, d, false) == RevenueEvents(db.ledger, d, false)
  {
    StepGrows(db, step);
    OtherStepsAreLoud(db, step);
    var events := Apply(db, step).ledger[|db.ledger|..];
    assert Apply(db, step).ledger == db.ledger + events;
    QuietEvents(db.ledger, events);
  }

  /** Only a payment recovers a case outside of runs. */
  ghost predicate RecoversByPayment(db: Db, db': Db) {
    && |db.cases| <= |db'.cases|
    && (forall c :: 0 <= c < |db.cases| && db.cases[c].recovered ==>
          db'.cases[c].recovered && db'.cases[c].paymentId == db.cases[c].paymentId)
    && (forall c :: 0 <= c < |db'.cases| && !(c < |db.cases| && db.cases[c].recovered) ==>
          (db'.cases[c].recovered <==> db'.cases[c].paymentId.Some?))
  }

  lemma RequestRecoversByPayment(db: Db, ready: bool, q: CallbackRequest, fetch: Fetch)
    requires Inv(db)
    ensures RecoversByPayment(db, VerifyPayment(db, ready, q, fetch).0)
  {
  }

  lemma DeliveryRecoversByPayment(db: Db, configured: bool, q: WebhookRequest, fetch: Fetch)
    requires Inv(db)
    ensures RecoversByPayment(db, ReceiveWebhook(db, configured, q, fetch).0)
  {
  }

  lemma PlainRecoversByPayment(db: Db, db': Db)
    requires Inv(db) && Plain(db, db')
    ensures RecoversByPayment(db, db')
  {
    forall c | 0 <= c < |db.cases|
      ensures db'.cases[c].recovered == db.cases[c].recovered && db'.cases[c].paymentId == db.cases[c].paymentId
      ensures CaseOk(db.cases[c])
    {
      assert PlainRow(db.cases[c], db'.cases[c]);
    }
  }

  lemma OthersRecoverByPayment(db: Db, step: Step)
    requires Inv(db) && !step.Execute?
    ensures RecoversByPayment(db, Apply(db, step))
  {
    if step.Callback? {
      RequestRecoversByPayment(db, step.ready, step.callback, step.fetch);
    } else if step.Webhook? {
      DeliveryRecoversByPayment(db, step.configured, step.webhook, step.fetch);
    } else {
      StepIsPlain(db, step);
      PlainRecoversByPayment(db, Apply(db, step));
    }
  }

  /** What the history says about case `c` in `db`. */
  predicate Explained(db: Db, recoverer: Option<Report>, c: nat) {
    && RevenueEvents(db.ledger, c, false) == (if recoverer.Some? && Loggable(recoverer.value) then 1 else 0)
    && (c >= |db.cases| ==> recoverer.None?)
    && (c < |db.cases| ==>
          && (db.cases[c].recovered <==> db.cases[c].paymentId.Some? || recoverer.Some?)
          && !(db.cases[c].paymentId.Some? && recoverer.Some?))
  }

  lemma ExecutionExplains(db: Db, r: nat, finalAttempt: bool, a: Attempt, known: Option<Report>, c: nat)
    requires Inv(db) && Explained(db, known, c)
    ensures
      var db' := ExecuteRun(db, r, finalAttempt, a).0;
      if Recovers(db, r, finalAttempt, a) && db.runs[r].caseId == c then Explained(db', Some(ReportOf(db, r, a)), c)
      else Explained(db', known, c)
  {
    ExecutionLogsIff(db, r, finalAttempt, a, c);
    ExecutionKeepsSize(db, r, finalAttempt, a);
    if c < |db.cases| {
      ExecutionRecoversIff(db, r, finalAttempt, a, c);
    }
  }

  lemma OthersExplain(db: Db, step: Step, known: Option<Report>, c: nat)
    requires Inv(db) && Explained(db, known, c) && !step.Execute?
    ensures Explained(Apply(db, step), known, c)
  {
    OtherStepsLogNothing(db, step, c);
    OthersRecoverByPayment(db, step);
  }

  lemma {:induction false} HistoryExplains(steps: seq<Step>, c: nat)
    ensures Explained(After(EMPTY, steps), Recoverer(steps, c), c)
  {
    if steps != [] {
      var n := |steps| - 1;
      var before := After(EMPTY, steps[..n]);
      HistoryExplains(steps[..n], c);
      HistoryKeepsInv(EMPTY, steps[..n]);
      match steps[n]
      case Execute(r, finalAttempt, a) => ExecutionExplains(before, r, finalAttempt, a, Recoverer(steps[..n], c), c);
      case _ => OthersExplain(before, steps[n], Recoverer(steps[..n], c), c);
    }
  }

  /** In every reachable state, whichever the provider, a case is recovered by exactly one
      of a payment and an execution, and the ledger shows its recovery, once, exactly for a
      payment and for an execution whose transaction id is empty or parses as a uuid. */
  lemma RecoveryIsShownIff(steps: seq<Step>, c: nat)
    requires c < |After(EMPTY, steps).cases|
    ensures
      var db := After(EMPTY, steps);
      var paid, run := db.cases[c].paymentId.Some?, Recoverer(steps, c);
      && (db.cases[c].recovered <==> paid || run.Some?) && !(paid && run.Some?)
      && RevenueEvents(db.ledger, c, true) + RevenueEvents(db.ledger, c, false)
         == if paid || (run.Some? && Loggable(run.value)) then 1 else 0
  {
    HistoryExplains(steps, c);
    HistoryKeepsInv(EMPTY, steps);
  }
}
