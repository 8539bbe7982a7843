/** The backend as it runs: tables that requests and tasks update in place, each
    method proved to do what its function in `CaseStore` says. */
module RecoveryBackend {
  import opened Wrappers
  import opened CaseStore
  import opened Letters
  import Agent = AgentGraph
  import Endpoints = EndpointTheorems
  import Protocol = RecoveryProtocol
  import Outcomes = AppliedRuns
  import Uuid

  class Backend {
    var cases: seq<Case>
    var runs: seq<AgentRun>
    var receipts: set<string>
    var ledger: seq<AuditEvent>

    function State(): Db
      reads this
    {
      Db(cases, runs, receipts, ledger)
    }

    predicate Valid()
      reads this
    {
      RunsHaveCases(State())
    }

    constructor ()
      ensures State() == EMPTY && Valid()
    {
      cases, runs, receipts, ledger := [], [], {}, [];
    }

    method Record(kind: AuditKind, c: nat, amount: int, reference: Option<Reference>)
      modifies this`ledger
      ensures ledger == old(ledger) + [AuditEvent(kind, c, amount, reference)]
    {
      ledger := ledger + [AuditEvent(kind, c, amount, reference)];
    }

    method Rollback(saved: Db)
      modifies this
      ensures State() == saved
    {
      cases, runs, receipts, ledger := saved.cases, saved.runs, saved.receipts, saved.ledger;
    }

    method OpenFailureCase(event: FailureEvent, score: real) returns (answer: Opened)
      requires Valid()
      modifies this
      ensures (State(), answer) == OpenCase(old(State()), event, score) && Valid()
    {
      var existing := FindBySource(cases, event.key);
      if existing.Some? {
        return Opened(existing.value, true);
      }
      var c := |cases|;
      cases := cases + [FreshCase(event, score)];
      Record(CaseCreated, c, event.amount, None);
      return Opened(c, false);
    }

    method ReconcileCapturedPayment(c: nat, payment: string, order: string, source: Source, fetch: Fetch)
      returns (answer: Response)
      requires c < |cases|
      modifies this
      ensures (State(), answer) == Reconcile(old(State()), c, payment, order, source, fetch)
      ensures
        if Endpoints.Settles(old(State()), c, payment, order, fetch) then
          Endpoints.Settled(old(State()), State(), c, Reference(order, payment, source), fetch.rawStatus)
        else State() == old(State())
    {
      Endpoints.ReconcileSettlesIff(State(), c, payment, order, source, fetch);
      if cases[c].recovered {
        return Verification(AlreadyVerified, c, cases[c].amountRecovered);
      }
      if fetch.Unreachable? {
        return Verification(VerificationFailed, c, 0);
      }
      if fetch.orderId != Some(order) || fetch.amount != cases[c].amountAtRisk
         || Upper(fetch.currency) != Upper(cases[c].currency) {
        return HttpError(400);
      }
      if !fetch.status.Success? {
        return Verification(if fetch.status.Pending? then PaymentPending else VerificationFailed, c, 0);
      }
      var saved := State();
      cases := cases[c := cases[c].(paymentId := Some(payment))];
      cases := cases[c := cases[c].(providerStatus := Some(fetch.rawStatus))];
      cases := cases[c := cases[c].(amountRecovered := fetch.amount)];
      cases := cases[c := cases[c].(status := Recovered)];
      cases := cases[c := cases[c].(recovered := true)];
      cases := cases[c := cases[c].(stopped := true)];
      if PaymentTaken(saved.cases, payment, c) {  // the flush of the audit event fails
        Rollback(saved);
        return HttpError(500);
      }
      var reference := Reference(order, payment, source);
      Record(PaymentSuccess, c, fetch.amount, Some(reference));
      Record(RevenueRecovered, c, fetch.amount, Some(reference));
      assert cases == saved.cases[c := Credited(saved.cases[c], payment, fetch)];
      assert ledger == saved.ledger + CreditEvents(c, fetch.amount, reference);
      return Verification(RecoveredNow, c, fetch.amount);
    }

    method CreateCaseOrder(ready: bool, c: nat, offered: Option<ProviderOrder>) returns (answer: Response)
      modifies this
      ensures (State(), answer) == CreateOrder(old(State()), ready, c, offered)
    {
      if !ready {
        return HttpError(503);
      }
      if c >= |cases| {
        return HttpError(404);
      }
      var k := cases[c];
      if k.status.Recovered? || k.status.Stopped? || k.status.Escalated? || k.recovered || k.stopped {
        return HttpError(409);
      }
      if k.orderId.Some? && k.orderId.value != "" {
        return OrderCreated(k.orderId.value, k.amountAtRisk, k.currency);
      }
      if offered.None? {
        return HttpError(502);
      }
      var saved := State();
      cases := cases[c := k.(orderId := Some(offered.value.id))];
      if OrderTaken(saved.cases, offered.value.id, c) {  // the commit fails
        Rollback(saved);
        return HttpError(500);
      }
      return OrderCreated(offered.value.id, offered.value.amount, offered.value.currency);
    }

    method VerifyCallback(ready: bool, q: CallbackRequest, fetch: Fetch) returns (answer: Response)
      modifies this
      ensures (State(), answer) == VerifyPayment(old(State()), ready, q, fetch)
    {
      if q.order == "" || q.payment == "" {
        return HttpError(422);
      }
      if !ready {
        return HttpError(503);
      }
      var found := FindByOrder(cases, q.order);
      if found.None? {
        return HttpError(404);
      }
      var c := found.value;
      if q.claimedCase.Some? && q.claimedCase.value != c {
        return HttpError(400);
      }
      if !q.signatureValid {
        Record(UnauthorizedAttempt, c, 0, None);
        return HttpError(400);
      }
      if cases[c].recovered {
        if cases[c].paymentId != Some(q.payment) {
          return HttpError(400);
        }
        return Verification(AlreadyVerified, c, cases[c].amountRecovered);
      }
      answer := ReconcileCapturedPayment(c, q.payment, q.order, CheckoutCallback, fetch);
    }

    method RazorpayWebhook(configured: bool, q: WebhookRequest, fetch: Fetch) returns (answer: Response)
      modifies this
      ensures (State(), answer) == ReceiveWebhook(old(State()), configured, q, fetch)
      ensures if answer.Accepted? then receipts == old(receipts) + {q.eventId} else State() == old(State())
      ensures answer.Accepted? ==> Endpoints.Genuine(configured, q) && q.eventId !in old(receipts)
    {
      Endpoints.DeliveryKeepsTheStoreIff(State(), configured, q, fetch);
      if !configured {
        return HttpError(503);
      }
      if !q.signed || q.eventId == "" || !q.signatureValid || !q.wellFormed {
        return HttpError(400);
      }
      if q.eventId in receipts {
        return Duplicate;
      }
      var saved := State();
      receipts := receipts + {q.eventId};
      if q.captured && q.payment != "" && q.order != "" {
        var found := FindByOrder(cases, q.order);
        if found.Some? {
          var reconciled :=
            ReconcileCapturedPayment(found.value, q.payment, q.order, ProviderWebhook(q.eventId), fetch);
          if reconciled.HttpError? {
            Rollback(saved);
            return reconciled;
          }
        }
      }
      return Accepted;
    }

    method StartAgentRun(c: nat) returns (id: Option<nat>)
      requires Valid()
      modifies this
      ensures (State(), id) == StartRun(old(State()), c) && Valid()
    {
      if c >= |cases| || cases[c].recovered || cases[c].stopped {
        return None;
      }
      id := Some(|runs|);
      runs := runs + [AgentRun(c, Running, [])];
      Record(AgentRunStarted, c, 0, None);
    }

    /** The unconditional half of `_apply_agent_result`. */
    method CopyFinalState(r: nat, s: Agent.AgentState)
      requires Valid() && r < |runs|
      modifies this
      ensures
        var c := old(runs)[r].caseId;
        && cases == old(cases)[c := Updated(old(cases)[c], s)]
        && cases[c].retryCount == s.retryCount && cases[c].communicationCount == s.communicationCount
        && cases[c].recovered == s.recovered && cases[c].stopped == s.stopped
        && (s.strategy.Some? ==> cases[c].strategy == s.strategy)
        && (s.policyResult.Some? ==> cases[c].policyDecision == Some(s.policyResult.value.decision))
        && runs == old(runs)[r := AgentRun(c, Completed, s.log)]
        && receipts == old(receipts) && ledger == old(ledger)
    {
      var c := runs[r].caseId;
      runs := runs[r := AgentRun(c, Completed, s.log)];
      cases := cases[c := cases[c].(retryCount := s.retryCount)];
      cases := cases[c := cases[c].(communicationCount := s.communicationCount)];
      cases := cases[c := cases[c].(recovered := s.recovered)];
      cases := cases[c := cases[c].(stopped := s.stopped)];
      if s.strategy.Some? {
        cases := cases[c := cases[c].(strategy := s.strategy)];
      }
      if s.policyResult.Some? {
        cases := cases[c := cases[c].(policyDecision := Some(s.policyResult.value.decision))];
      }
    }

    /** Returns whether the audit raised, leaving the row changes in the session. */
    method ApplyAgentResult(r: nat, s: Agent.AgentState, base16: string -> bool) returns (raised: bool)
      requires Valid() && r < |runs|
      modifies this
      ensures State() == ApplyResult(old(State()), r, s, base16) && raised == AuditRaises(s, base16) && Valid()
    {
      var c := runs[r].caseId;
      ghost var k := cases[c];
      CopyFinalState(r, s);
      raised := false;
      if cases[c].recovered && s.verification.Some? {
        var result := s.verification.value;
        cases := cases[c := cases[c].(amountRecovered := result.amountRecovered)];
        cases := cases[c := cases[c].(status := Recovered)];
        if result.transactionId.Some? && result.transactionId.value != ""
           && !Uuid.Parses(result.transactionId.value, base16) {
          raised := true;
        } else {
          Record(RevenueRecovered, c, result.amountRecovered, None);
        }
      } else if s.escalationReason.Some? {
        cases := cases[c := cases[c].(status := Escalated)];
        cases := cases[c := cases[c].(escalation := Some(ByAgent(s.escalationReason.value)))];
        Record(CaseEscalated, c, 0, None);
      } else if cases[c].stopped {
        cases := cases[c := cases[c].(status := Stopped)];
      }
      assert cases == old(cases)[c := Applied(k, s)];
      if !raised {
        Record(AgentRunCompleted, c, 0, None);
      }
      assert ledger == old(ledger) + AppliedEvents(c, s, base16);
    }

    /** One attempt in its own session: committed, or rolled back and re-raised. */
    method ExecuteAgentRun(r: nat, finalAttempt: bool, a: Attempt) returns (answer: Execution)
      requires Valid()
      modifies this
      ensures (State(), answer) == ExecuteRun(old(State()), r, finalAttempt, a) && Valid()
      ensures
        var db := old(State());
        Protocol.Inv(db) && r < |db.runs| && db.runs[r].status.Running? && RunOf(db, r, a).Finished?
        && !answer.Reraised? ==>
          var c := db.runs[r].caseId;
          && cases == db.cases[c := cases[c]]
          && Outcomes.RunLeaves(a.policy, db.cases[c], cases[c], RunOf(db, r, a).world.effects)
    {
      if Protocol.Inv(State()) && r < |runs| && runs[r].status.Running? && RunOf(State(), r, a).Finished? {
        Outcomes.ExecutionLeaves(State(), r, finalAttempt, a);
      }
      if r >= |runs| {
        return NotFound;
      }
      if !runs[r].status.Running? {
        return Ended(runs[r].status);
      }
      var saved := State();
      var result := RunOf(saved, r, a);
      var raised := result.Raised?;
      if result.Finished? {
        raised := ApplyAgentResult(r, result.state, a.base16);
      }
      if !raised {
        return Ended(Completed);
      }
      if !finalAttempt {
        Rollback(saved);
        return Reraised;
      }
      runs := runs[r := runs[r].(status := Error)];
      Record(AgentRunCompleted, runs[r].caseId, 0, None);
      return Ended(Error);
    }

    /** The Celery task: retries until an attempt ends the run. */
    method RunRecoveryAgentTask(r: nat, attempts: nat -> Attempt) returns (answer: Execution)
      requires Valid()
      modifies this
      ensures (State(), Returned(answer)) == RunTask(old(State()), r, 0, attempts) && Valid()
    {
      var retries := 0;
      answer := ExecuteAgentRun(r, false, attempts(0));
      while answer.Reraised?
        invariant 0 <= retries <= 2 && Valid() && (answer.Reraised? ==> retries < 2)
        invariant
          RunTask(old(State()), r, 0, attempts)
          == if answer.Reraised? then RunTask(State(), r, retries + 1, attempts) else (State(), Returned(answer))
        decreases 2 - retries
      {
        retries := retries + 1;
        answer := ExecuteAgentRun(r, retries >= 2, attempts(retries));
      }
    }

    method EscalateByOperator(c: nat, note: string)
      modifies this
      ensures State() == EscalateCase(old(State()), c, note)
    {
      if c < |cases| {
        cases := cases[c := cases[c].(status := Escalated)];
        cases := cases[c := cases[c].(escalation := Some(ByOperator(note)))];
        cases := cases[c := cases[c].(stopped := true)];
        Record(CaseEscalated, c, 0, None);
      }
    }
  }
}
