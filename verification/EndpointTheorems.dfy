/** Each endpoint by its outcomes: when it credits, refuses or ignores, what it answers, and
    what it leaves behind. The conditions are about the request, the provider's answer and
    the rows of the store. */
module EndpointTheorems {
  import opened Wrappers
  import opened Letters
  import opened CaseStore
  import opened RecoveryProtocol
  import opened ProtocolTheorems
  import opened ReplayTheorems

  // ----- Reconciliation

  /** The fetched payment is for this order, in the amount and the currency of the case. */
  predicate Matches(fetch: Fetch, k: Case, order: string) {
    && fetch.Fetch? && fetch.orderId == Some(order) && fetch.amount == k.amountAtRisk
    && SameLetters(fetch.currency, k.currency)
  }

  /** Another case has this payment on record. */
  ghost predicate HeldElsewhere(db: Db, payment: string, c: nat) {
    exists d :: 0 <= d < |db.cases| && d != c && db.cases[d].paymentId == Some(payment)
  }

  /** The payment settles the unrecovered case `c`. */
  ghost predicate Settles(db: Db, c: nat, payment: string, order: string, fetch: Fetch)
    requires c < |db.cases|
  {
    && !db.cases[c].recovered && Matches(fetch, db.cases[c], order) && fetch.status.Success?
    && !HeldElsewhere(db, payment, c)
  }

  /** Case `c` has become recovered through this payment, in full, with its two events; nothing
      else has changed but the receipts. */
  predicate Settled(db: Db, db': Db, c: nat, reference: Reference, rawStatus: string)
    requires c < |db.cases|
  {
    var k := db.cases[c];
    && db'.runs == db.runs && |db'.cases| == |db.cases| && db'.cases == db.cases[c := db'.cases[c]]
    && db'.cases[c] == k.(recovered := true, stopped := true, status := Recovered, amountRecovered := k.amountAtRisk,
                          paymentId := Some(reference.paymentId), providerStatus := Some(rawStatus))
    && db'.ledger == db.ledger + [AuditEvent(PaymentSuccess, c, k.amountAtRisk, Some(reference)),
                                  AuditEvent(RevenueRecovered, c, k.amountAtRisk, Some(reference))]
  }

  /** A reconciliation settles its case iff the payment does, leaves the store alone otherwise,
      and tells by its answer which it was. */
  lemma ReconcileSettlesIff(db: Db, c: nat, payment: string, order: string, source: Source, fetch: Fetch)
    requires c < |db.cases|
    ensures
      var (db', answer) := Reconcile(db, c, payment, order, source, fetch);
      var k := db.cases[c];
      && (if Settles(db, c, payment, order, fetch) then
            && Settled(db, db', c, Reference(order, payment, source), fetch.rawStatus) && db'.receipts == db.receipts
            && answer == Verification(RecoveredNow, c, k.amountAtRisk)
          else db' == db && !(answer.Verification? && answer.status.RecoveredNow?))
      && (answer == HttpError(400) <==> !k.recovered && fetch.Fetch? && !Matches(fetch, k, order))
      && (answer == HttpError(500) <==>
            && !k.recovered && Matches(fetch, k, order) && fetch.status.Success? && HeldElsewhere(db, payment, c))
      && (answer == Verification(AlreadyVerified, c, k.amountRecovered) <==> k.recovered)
      && (answer == Verification(PaymentPending, c, 0) <==>
            !k.recovered && Matches(fetch, k, order) && fetch.status.Pending?)
      && (answer == Verification(VerificationFailed, c, 0) <==>
            && !k.recovered
            && (fetch.Unreachable? || (Matches(fetch, k, order) && !fetch.status.Success? && !fetch.status.Pending?)))
  {
    if fetch.Fetch? {
      UpperMeansSameLetters(fetch.currency, db.cases[c].currency);
    }
  }

  // ----- The checkout callback

  /** A callback that reaches the reconciliation of case `c`: configured, complete, signed, for
      its order and for no other case. */
  predicate Reaches(db: Db, ready: bool, q: CallbackRequest, c: nat)
    requires c < |db.cases|
  {
    && ready && q.order != "" && q.payment != "" && q.signatureValid && HasOrder(db.cases[c], q.order)
    && (q.claimedCase.Some? ==> q.claimedCase.value == c)
  }

  /** A callback settles case `c` iff it reaches it with a payment that does; otherwise it
      changes no case, no run and no receipt and credits nothing. */
  lemma CallbackSettlesIff(db: Db, ready: bool, q: CallbackRequest, fetch: Fetch, c: nat)
    requires Inv(db) && c < |db.cases| && HasOrder(db.cases[c], q.order)
    ensures
      var (db', answer) := VerifyPayment(db, ready, q, fetch);
      if Reaches(db, ready, q, c) && Settles(db, c, q.payment, q.order, fetch) then
        && Settled(db, db', c, Reference(q.order, q.payment, CheckoutCallback), fetch.rawStatus)
        && db'.receipts == db.receipts && answer == Verification(RecoveredNow, c, db.cases[c].amountAtRisk)
      else CreditsNothing(db, db') && !(answer.Verification? && answer.status.RecoveredNow?)
  {
    OrderIdentifiesItsCase(db.cases, c, q.order);
    ReconcileSettlesIff(db, c, q.payment, q.order, CheckoutCallback, fetch);
  }

  /** The store is as before, but for the record of a rejected callback. */
  ghost predicate CreditsNothing(db: Db, db': Db) {
    && db'.cases == db.cases && db'.runs == db.runs && db'.receipts == db.receipts
    && (db'.ledger == db.ledger
        || exists c: nat :: db'.ledger == db.ledger + [AuditEvent(UnauthorizedAttempt, c, 0, None)])
  }

  /** A rejected callback is put on record iff it is complete, for the order of a case and not
      for another case, and its signature is wrong; it is answered 400. */
  lemma RejectionIsRecordedIff(db: Db, ready: bool, q: CallbackRequest, fetch: Fetch, c: nat)
    requires Inv(db) && c < |db.cases| && HasOrder(db.cases[c], q.order)
    ensures
      var (db', answer) := VerifyPayment(db, ready, q, fetch);
      var rejected := Reaches(db, ready, q.(signatureValid := true), c) && !q.signatureValid;
      && (rejected ==>
            && answer == HttpError(400)
            && db' == db.(ledger := db.ledger + [AuditEvent(UnauthorizedAttempt, c, 0, None)]))
      && (answer.HttpError? && !rejected ==> db' == db)
  {
    OrderIdentifiesItsCase(db.cases, c, q.order);
    ReconcileSettlesIff(db, c, q.payment, q.order, CheckoutCallback, fetch);
  }

  /** The answers to a callback for the order of case `c`. */
  lemma CallbackAnswers(db: Db, ready: bool, q: CallbackRequest, fetch: Fetch, c: nat)
    requires Inv(db) && c < |db.cases| && HasOrder(db.cases[c], q.order)
    ensures
      var answer := VerifyPayment(db, ready, q, fetch).1;
      var k := db.cases[c];
      var reaches := Reaches(db, ready, q, c);
      && (answer == HttpError(422) <==> q.order == "" || q.payment == "")
      && (answer == HttpError(503) <==> q.order != "" && q.payment != "" && !ready)
      && (answer == HttpError(500) <==>
            && reaches && !k.recovered && Matches(fetch, k, q.order) && fetch.status.Success?
            && HeldElsewhere(db, q.payment, c))
      && (answer == Verification(AlreadyVerified, c, k.amountRecovered) <==>
            reaches && k.recovered && k.paymentId == Some(q.payment))
      && (answer == Verification(PaymentPending, c, 0) <==>
            reaches && !k.recovered && Matches(fetch, k, q.order) && fetch.status.Pending?)
      && (answer == Verification(VerificationFailed, c, 0) <==>
            && reaches && !k.recovered
            && (fetch.Unreachable?
                || (Matches(fetch, k, q.order) && !fetch.status.Success? && !fetch.status.Pending?)))
      && (answer == Verification(RecoveredNow, c, k.amountAtRisk) <==>
            reaches && Settles(db, c, q.payment, q.order, fetch))
      && (answer == HttpError(400) <==>
            && q.order != "" && q.payment != "" && ready
            && (|| !reaches || (k.recovered && k.paymentId != Some(q.payment))
                || (!k.recovered && fetch.Fetch? && !Matches(fetch, k, q.order))))
  {
    OrderIdentifiesItsCase(db.cases, c, q.order);
    ReconcileSettlesIff(db, c, q.payment, q.order, CheckoutCallback, fetch);
  }

  /** A callback for the order of no case. */
  lemma CallbackOfNoCase(db: Db, ready: bool, q: CallbackRequest, fetch: Fetch)
    requires forall c :: 0 <= c < |db.cases| ==> !HasOrder(db.cases[c], q.order)
    ensures
      var (db', answer) := VerifyPayment(db, ready, q, fetch);
      && db' == db
      && answer == HttpError(if q.order == "" || q.payment == "" then 422 else if !ready then 503 else 404)
  {
  }

  // ----- The webhook

  /** A delivery of the provider: configured, signed and well-formed, with an event id. */
  predicate Genuine(configured: bool, q: WebhookRequest) {
    configured && q.signed && q.signatureValid && q.wellFormed && q.eventId != ""
  }

  /** An accepted delivery stores its event id and nothing else about receipts; one that is
      refused or a duplicate leaves the whole store as it was. */
  lemma DeliveryKeepsTheStoreIff(db: Db, configured: bool, q: WebhookRequest, fetch: Fetch)
    ensures
      var (db', answer) := ReceiveWebhook(db, configured, q, fetch);
      && (answer.Accepted? || answer.Duplicate? || answer.HttpError?)
      && (answer.Accepted? ==>
            && Genuine(configured, q) && q.eventId !in db.receipts && db'.receipts == db.receipts + {q.eventId})
      && (!answer.Accepted? ==> db' == db)
      && (answer.Duplicate? <==> Genuine(configured, q) && q.eventId in db.receipts)
      && (!Genuine(configured, q) ==> answer == HttpError(if configured then 400 else 503))
  {
  }

  /** A delivery of a captured payment that reaches the reconciliation of case `c`. */
  predicate Announces(db: Db, configured: bool, q: WebhookRequest, c: nat)
    requires c < |db.cases|
  {
    && Genuine(configured, q) && q.eventId !in db.receipts
    && q.captured && q.payment != "" && q.order != "" && HasOrder(db.cases[c], q.order)
  }

  /** A delivery settles case `c` iff it announces a payment that does; otherwise it changes
      no case, no run and no event. A fresh genuine one is refused iff the provider answers
      about another payment, or the payment is held by another case. */
  lemma DeliverySettlesIff(db: Db, configured: bool, q: WebhookRequest, fetch: Fetch, c: nat)
    requires Inv(db) && c < |db.cases| && HasOrder(db.cases[c], q.order)
    ensures
      var (db', answer) := ReceiveWebhook(db, configured, q, fetch);
      var k := db.cases[c];
      var announces := Announces(db, configured, q, c);
      && (if announces && Settles(db, c, q.payment, q.order, fetch) then
            && Settled(db, db', c, Reference(q.order, q.payment, ProviderWebhook(q.eventId)), fetch.rawStatus)
            && answer.Accepted?
          else db'.cases == db.cases && db'.runs == db.runs && db'.ledger == db.ledger)
      && (Genuine(configured, q) && q.eventId !in db.receipts ==>
            && (answer == HttpError(400) <==> announces && !k.recovered && fetch.Fetch? && !Matches(fetch, k, q.order))
            && (answer == HttpError(500) <==>
                  && announces && !k.recovered && Matches(fetch, k, q.order) && fetch.status.Success?
                  && HeldElsewhere(db, q.payment, c))
            && (answer.HttpError? ==> answer.code == 400 || answer.code == 500))
  {
    OrderIdentifiesItsCase(db.cases, c, q.order);
    var stored := db.(receipts := db.receipts + {q.eventId});
    ReconcileSettlesIff(stored, c, q.payment, q.order, ProviderWebhook(q.eventId), fetch);
    assert HeldElsewhere(stored, q.payment, c) == HeldElsewhere(db, q.payment, c);
  }

  /** A delivery for the order of no case is only put on file. */
  lemma DeliveryOfNoCase(db: Db, configured: bool, q: WebhookRequest, fetch: Fetch)
    requires forall c :: 0 <= c < |db.cases| ==> !HasOrder(db.cases[c], q.order)
    requires Genuine(configured, q) && q.eventId !in db.receipts
    ensures ReceiveWebhook(db, configured, q, fetch) == (db.(receipts := db.receipts + {q.eventId}), Accepted)
  {
  }

  /** `step` is a delivery that is not genuine. */
  predicate Forged(step: Step) {
    step.Webhook? && !Genuine(step.configured, step.webhook)
  }

  /** Any number of forged deliveries before a genuine one leave the store as it was, so that
      what the genuine one finds and does is the same as without them. */
  lemma {:induction false} ForgedDeliveriesChangeNothing(db: Db, steps: seq<Step>)
    requires RunsHaveCases(db) && forall i :: 0 <= i < |steps| ==> Forged(steps[i])
    ensures After(db, steps) == db
  {
    if steps != [] {
      var n := |steps| - 1;
      ForgedDeliveriesChangeNothing(db, steps[..n]);
      DeliveryKeepsTheStoreIff(db, steps[n].configured, steps[n].webhook, steps[n].fetch);
    }
  }

  /** The step is a delivery that is refused by an error in `db`. */
  predicate RefusedDelivery(db: Db, step: Step) {
    step.Webhook? && ReceiveWebhook(db, step.configured, step.webhook, step.fetch).1.HttpError?
  }

  lemma {:induction false} RefusedDeliveriesChangeNothing(db: Db, steps: seq<Step>)
    requires RunsHaveCases(db) && forall i :: 0 <= i < |steps| ==> RefusedDelivery(db, steps[i])
    ensures After(db, steps) == db
  {
    if steps != [] {
      var n := |steps| - 1;
      RefusedDeliveriesChangeNothing(db, steps[..n]);
      DeliveryKeepsTheStoreIff(db, steps[n].configured, steps[n].webhook, steps[n].fetch);
    }
  }

  // ----- Orders

  /** No order is created for such a case any more. */
  predicate Closed(k: Case) {
    k.recovered || k.stopped || k.status.Recovered? || k.status.Stopped? || k.status.Escalated?
  }

  predicate HasSomeOrder(k: Case) {
    k.orderId.Some? && k.orderId.value != ""
  }

  /** An order is stored iff the endpoint is configured, the case is open and without one, and
      the provider offers one that no other case has; the store is unchanged otherwise. */
  lemma OrderIsStoredIff(db: Db, ready: bool, c: nat, offered: Option<ProviderOrder>)
    ensures
      var (db', answer) := CreateOrder(db, ready, c, offered);
      var open := ready && c < |db.cases| && !Closed(db.cases[c]);
      if open && !HasSomeOrder(db.cases[c]) && offered.Some? && !OrderElsewhere(db, offered.value.id, c) then
        && db' == db.(cases := db.cases[c := db.cases[c].(orderId := Some(offered.value.id))])
        && answer == OrderCreated(offered.value.id, offered.value.amount, offered.value.currency)
      else
        && db' == db
        && (if open && HasSomeOrder(db.cases[c]) then
              answer == OrderCreated(db.cases[c].orderId.value, db.cases[c].amountAtRisk, db.cases[c].currency)
            else answer.HttpError?)
  {
  }

  ghost predicate OrderElsewhere(db: Db, order: string, c: nat) {
    exists d :: 0 <= d < |db.cases| && d != c && db.cases[d].orderId == Some(order)
  }

  lemma OrderRefusals(db: Db, ready: bool, c: nat, offered: Option<ProviderOrder>)
    ensures
      var answer := CreateOrder(db, ready, c, offered).1;
      && (answer == HttpError(503) <==> !ready)
      && (answer == HttpError(404) <==> ready && c >= |db.cases|)
      && (answer == HttpError(409) <==> ready && c < |db.cases| && Closed(db.cases[c]))
      && (answer == HttpError(502) <==>
            ready && c < |db.cases| && !Closed(db.cases[c]) && !HasSomeOrder(db.cases[c]) && offered.None?)
  {
  }

  // ----- Cases, runs and escalations

  /** A new case is unrecovered and open, has the data of its event and nothing else, and is
      announced by one event; a known key adds nothing. */
  lemma OpenedCaseIsFresh(db: Db, event: FailureEvent, score: real)
    ensures
      var (db', result) := OpenCase(db, event, score);
      if exists c :: 0 <= c < |db.cases| && db.cases[c].source == event.key then
        && db' == db && result.duplicate && result.caseId < |db.cases|
        && db.cases[result.caseId].source == event.key
      else
        && result == Opened(|db.cases|, false) && |db'.cases| == |db.cases| + 1 && db'.cases[..|db.cases|] == db.cases
        && db'.runs == db.runs && db'.receipts == db.receipts
        && db'.ledger == db.ledger + [AuditEvent(CaseCreated, |db.cases|, event.amount, None)]
        && var k := db'.cases[|db.cases|];
        && k.source == event.key && k.score == score && k.amountAtRisk == event.amount
        && k.currency == event.currency && k.reason == event.reason && k.amountRecovered == 0
        && k.retryCount == 0 && k.communicationCount == 0 && !Closed(k) && !HasSomeOrder(k) && k.paymentId.None?
        && k.status.Detected? && k.strategy.None? && k.policyDecision.None? && k.escalation.None?
  {
  }

  /** A run is started iff its case exists and is neither recovered nor stopped; it belongs to
      the case asked for, is running and has visited nothing. */
  lemma StartedRunBelongsToItsCase(db: Db, c: nat)
    ensures
      var (db', id) := StartRun(db, c);
      if c < |db.cases| && !db.cases[c].recovered && !db.cases[c].stopped then
        && id == Some(|db.runs|) && db'.cases == db.cases && db'.receipts == db.receipts
        && |db'.runs| == |db.runs| + 1 && db'.runs[..|db.runs|] == db.runs
        && db'.runs[|db.runs|].caseId == c && db'.runs[|db.runs|].status.Running? && db'.runs[|db.runs|].trace == []
        && db'.ledger == db.ledger + [AuditEvent(AgentRunStarted, c, 0, None)]
      else id.None? && db' == db
  {
  }

  /** Once an operator has escalated a case it is stopped for ever: no run starts on it and no
      order is created for it. Its money and its recovery are not touched. */
  lemma EscalatedCaseIsClosed(
      db: Db, c: nat, note: string, between: seq<Step>, ready: bool, offered: Option<ProviderOrder>)
    requires Inv(db) && c < |db.cases|
    ensures forall d: nat :: d >= |db.cases| ==> EscalateCase(db, d, note) == db
    ensures
      var escalated := EscalateCase(db, c, note);
      && RunsHaveCases(escalated) && |escalated.cases| == |db.cases|
      && var k, k' := db.cases[c], escalated.cases[c];
      && k'.status.Escalated? && k'.stopped && k'.escalation == Some(ByOperator(note))
      && k'.recovered == k.recovered && k'.amountRecovered == k.amountRecovered && k'.paymentId == k.paymentId
      && (forall d :: 0 <= d < |db.cases| && d != c ==> escalated.cases[d] == db.cases[d])
      && escalated.ledger == db.ledger + [AuditEvent(CaseEscalated, c, 0, None)]
      && var later := After(escalated, between);
      && StartRun(later, c) == (later, None)
      && CreateOrder(later, ready, c, offered) == (later, HttpError(if ready then 409 else 503))
  {
    var escalated := EscalateCase(db, c, note);
    EscalationKeepsInv(db, c, note);
    HistoryGrows(escalated, between);
    assert Grows(escalated.cases[c], After(escalated, between).cases[c]);
  }
}
