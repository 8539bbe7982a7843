/** Duplicated, repeated and reordered events and notices of a payment. */
module ReplayTheorems {
  import opened Wrappers
  import opened CaseStore
  import opened Letters
  import opened RecoveryProtocol
  import opened ProtocolTheorems

  lemma {:induction false} OrderIdentifiesItsCase(cases: seq<Case>, c: nat, order: string)
    requires UniqueOrders(cases) && c < |cases| && HasOrder(cases[c], order)
    ensures FindByOrder(cases, order) == Some(c)
  {
  }

  // ----- The unique payment column

  /** The provider files each payment under one order for ever. */
  predicate StableStep(owner: string -> string, step: Step) {
    match step
    case Callback(_, q, fetch) => fetch.Fetch? && fetch.orderId.Some? ==> fetch.orderId.value == owner(q.payment)
    case Webhook(_, q, fetch) => fetch.Fetch? && fetch.orderId.Some? ==> fetch.orderId.value == owner(q.payment)
    case _ => true
  }

  predicate PaymentsOwned(owner: string -> string, db: Db) {
    forall c :: 0 <= c < |db.cases| && db.cases[c].paymentId.Some? ==>
      HasOrder(db.cases[c], owner(db.cases[c].paymentId.value))
  }

  lemma RequestKeepsOwners(owner: string -> string, db: Db, ready: bool, q: CallbackRequest, fetch: Fetch)
    requires Inv(db) && PaymentsOwned(owner, db) && StableStep(owner, Callback(ready, q, fetch))
    ensures PaymentsOwned(owner, VerifyPayment(db, ready, q, fetch).0)
  {
  }

  lemma DeliveryKeepsOwners(owner: string -> string, db: Db, configured: bool, q: WebhookRequest, fetch: Fetch)
    requires Inv(db) && PaymentsOwned(owner, db) && StableStep(owner, Webhook(configured, q, fetch))
    ensures PaymentsOwned(owner, ReceiveWebhook(db, configured, q, fetch).0)
  {
  }

  lemma ExecuteKeepsOwners(owner: string -> string, db: Db, r: nat, finalAttempt: bool, a: Attempt)
    requires Inv(db) && PaymentsOwned(owner, db)
    ensures PaymentsOwned(owner, ExecuteRun(db, r, finalAttempt, a).0)
  {
    if r < |db.runs| && db.runs[r].status.Running? {
      AgentRow(db.cases[db.runs[r].caseId], a);
    }
  }

  lemma StableStepKeepsOwners(owner: string -> string, db: Db, step: Step)
    requires Inv(db) && PaymentsOwned(owner, db) && StableStep(owner, step)
    ensures PaymentsOwned(owner, Apply(db, step))
  {
    match step
    case Callback(ready, q, fetch) => RequestKeepsOwners(owner, db, ready, q, fetch);
    case Webhook(configured, q, fetch) => DeliveryKeepsOwners(owner, db, configured, q, fetch);
    case Execute(r, finalAttempt, a) => ExecuteKeepsOwners(owner, db, r, finalAttempt, a);
    case _ =>
  }

  lemma {:induction false} PaymentsFollowTheirOrders(owner: string -> string, steps: seq<Step>)
    requires forall i :: 0 <= i < |steps| ==> StableStep(owner, steps[i])
    ensures PaymentsOwned(owner, After(EMPTY, steps))
  {
    if steps != [] {
      var n := |steps| - 1;
      PaymentsFollowTheirOrders(owner, steps[..n]);
      HistoryKeepsInv(EMPTY, steps[..n]);
      StableStepKeepsOwners(owner, After(EMPTY, steps[..n]), steps[n]);
    }
  }

  /** With one order per payment at the provider, no payment is ever offered to two
      cases, so the unique payment column never has to refuse a confirmed credit. */
  lemma ConfirmedPaymentIsNeverTaken(owner: string -> string, steps: seq<Step>, c: nat, order: string, payment: string)
    requires forall i :: 0 <= i < |steps| ==> StableStep(owner, steps[i])
    requires c < |After(EMPTY, steps).cases| && HasOrder(After(EMPTY, steps).cases[c], order)
    requires owner(payment) == order
    ensures !PaymentTaken(After(EMPTY, steps).cases, payment, c)
  {
    PaymentsFollowTheirOrders(owner, steps);
    HistoryKeepsInv(EMPTY, steps);
  }

  // ----- Replay

  /** Once a delivery has been accepted, redelivering its event id at any later time,
      with any content and any provider answer, changes nothing. */
  lemma RedeliveryChangesNothing(
      db: Db, configured: bool, q: WebhookRequest, fetch: Fetch, between: seq<Step>,
      configured': bool, q': WebhookRequest, fetch': Fetch)
    requires Inv(db) && ReceiveWebhook(db, configured, q, fetch).1.Accepted? && q'.eventId == q.eventId
    ensures
      RunsHaveCases(ReceiveWebhook(db, configured, q, fetch).0) &&
      var later := After(ReceiveWebhook(db, configured, q, fetch).0, between);
      && ReceiveWebhook(later, configured', q', fetch').0 == later
      && !ReceiveWebhook(later, configured', q', fetch').1.Accepted?
  {
    var db1 := ReceiveWebhook(db, configured, q, fetch).0;
    WebhookKeepsInv(db, configured, q, fetch);
    assert q.eventId in db1.receipts;
    HistoryGrows(db1, between);
  }

  /** A well-formed delivery for an unrecovered case whose event id is new. */
  predicate Deliverable(db: Db, q: WebhookRequest, c: nat) {
    && q.signed && q.signatureValid && q.wellFormed && q.captured
    && q.eventId != "" && q.eventId !in db.receipts && q.payment != "" && q.order != ""
    && FindByOrder(db.cases, q.order) == Some(c) && !db.cases[c].recovered && !PaymentTaken(db.cases, q.payment, c)
  }

  /** The provider could not be asked, or does not call the payment captured yet. */
  predicate Undecided(fetch: Fetch, k: Case, order: string) {
    fetch.Unreachable?
    || (fetch.orderId == Some(order) && fetch.amount == k.amountAtRisk && Upper(fetch.currency) == Upper(k.currency)
        && !fetch.status.Success?)
  }

  /** Such a delivery is used up without a credit exactly when the answer of the
      provider at that moment is undecided: no redelivery of it credits the case, even
      once the provider confirms the payment. Any other refusal leaves it deliverable. */
  lemma DeliveryIsLostIffUndecided(db: Db, q: WebhookRequest, c: nat, fetch: Fetch, later: Fetch)
    requires Inv(db) && Deliverable(db, q, c)
    ensures
      var (db1, answer) := ReceiveWebhook(db, true, q, fetch);
      var redelivered := ReceiveWebhook(db1, true, q, later).0;
      && (Undecided(fetch, db.cases[c], q.order) <==> answer.Accepted? && !db1.cases[c].recovered)
      && (Undecided(fetch, db.cases[c], q.order) ==> redelivered == db1 && redelivered.cases == db.cases)
      && (answer.HttpError? ==>
            && db1 == db
            && (Confirms(later, db.cases[c], q.order) ==> c < |redelivered.cases| && redelivered.cases[c].recovered))
  {
  }

  /** The idempotency key of an event names its case for ever: the event may be repeated at
      any later time, with any content, and only that case is returned. */
  lemma RepeatedEventChangesNothing(
      db: Db, event: FailureEvent, score: real, between: seq<Step>, event': FailureEvent, score': real)
    requires Inv(db) && event'.key == event.key
    ensures
      var (db1, first) := OpenCase(db, event, score);
      && RunsHaveCases(db1)
      && var later := After(db1, between);
         OpenCase(later, event', score') == (later, Opened(first.caseId, true))
  {
    var (db1, first) := OpenCase(db, event, score);
    OpenKeepsInv(db, event, score);
    HistoryGrows(db1, between);
    SourceIdentifiesItsCase(After(db1, between).cases, first.caseId);
  }

  lemma SourceIdentifiesItsCase(cases: seq<Case>, c: nat)
    requires UniqueSources(cases) && c < |cases|
    ensures FindBySource(cases, cases[c].source) == Some(c)
  {
  }

  /** A correctly signed callback for the order of a recovered case, then or at any
      later time, changes nothing whatever payment it names. */
  lemma CallbackOnRecoveredCaseChangesNothing(
      db: Db, c: nat, between: seq<Step>, ready: bool, q: CallbackRequest, fetch: Fetch)
    requires Inv(db) && c < |db.cases| && db.cases[c].recovered
    requires HasOrder(db.cases[c], q.order) && q.signatureValid
    ensures VerifyPayment(After(db, between), ready, q, fetch).0 == After(db, between)
    ensures
      ready && q.order != "" && q.payment != "" && (q.claimedCase.Some? ==> q.claimedCase.value == c) ==>
        VerifyPayment(After(db, between), ready, q, fetch).1
        == if db.cases[c].paymentId == Some(q.payment)
           then Verification(AlreadyVerified, c, db.cases[c].amountRecovered) else HttpError(400)
  {
    var later := After(db, between);
    HistoryGrows(db, between);
    if q.order != "" {
      RecoveredKeepsPayment(db, c, between);
      OrderIdentifiesItsCase(later.cases, c, q.order);
    }
  }

  /** A case recovered by an agent run never acquires a provider payment. */
  lemma {:induction false} RecoveredKeepsPayment(db: Db, c: nat, between: seq<Step>)
    requires Inv(db) && c < |db.cases| && db.cases[c].recovered
    ensures c < |After(db, between).cases| && After(db, between).cases[c].paymentId == db.cases[c].paymentId
  {
    if between != [] {
      var n := |between| - 1;
      var before := After(db, between[..n]);
      HistoryGrows(db, between[..n]);
      RecoveredKeepsPayment(db, c, between[..n]);
      StepKeepsPaymentOfRecovered(before, c, between[n]);
    }
  }

  lemma RequestKeepsPayment(db: Db, c: nat, ready: bool, q: CallbackRequest, fetch: Fetch)
    requires c < |db.cases| && db.cases[c].recovered
    ensures
      var db' := VerifyPayment(db, ready, q, fetch).0;
      c < |db'.cases| && db'.cases[c].paymentId == db.cases[c].paymentId
  {
  }

  lemma DeliveryKeepsPayment(db: Db, c: nat, configured: bool, q: WebhookRequest, fetch: Fetch)
    requires c < |db.cases| && db.cases[c].recovered
    ensures
      var db' := ReceiveWebhook(db, configured, q, fetch).0;
      c < |db'.cases| && db'.cases[c].paymentId == db.cases[c].paymentId
  {
  }

  lemma ExecutionKeepsPayment(db: Db, c: nat, r: nat, finalAttempt: bool, a: Attempt)
    requires RunsHaveCases(db) && c < |db.cases|
    ensures
      var db' := ExecuteRun(db, r, finalAttempt, a).0;
      c < |db'.cases| && db'.cases[c].paymentId == db.cases[c].paymentId
  {
  }

  lemma StepKeepsPaymentOfRecovered(db: Db, c: nat, step: Step)
    requires Inv(db) && c < |db.cases| && db.cases[c].recovered
    ensures c < |Apply(db, step).cases| && Apply(db, step).cases[c].paymentId == db.cases[c].paymentId
  {
    match step
    case Callback(ready, q, fetch) => RequestKeepsPayment(db, c, ready, q, fetch);
    case Webhook(configured, q, fetch) => DeliveryKeepsPayment(db, c, configured, q, fetch);
    case Execute(r, finalAttempt, a) => ExecutionKeepsPayment(db, c, r, finalAttempt, a);
    case _ =>
      StepIsPlain(db, step);
      assert PlainRow(db.cases[c], Apply(db, step).cases[c]);
  }

  // ----- Confluence

  /** The two ways a captured payment is announced. */
  datatype Notice = FromCheckout | FromProvider(eventId: string)

  function Announce(db: Db, order: string, payment: string, fetch: Fetch, n: Notice): Db {
    match n
    case FromCheckout => VerifyPayment(db, true, CallbackRequest(order, payment, true, None), fetch).0
    case FromProvider(id) =>
      ReceiveWebhook(db, true, WebhookRequest(id, true, true, true, true, order, payment), fetch).0
  }

  function AnnounceAll(db: Db, order: string, payment: string, fetch: Fetch, ns: seq<Notice>): Db {
    if ns == [] then db
    else Announce(AnnounceAll(db, order, payment, fetch, ns[..|ns| - 1]), order, payment, fetch, ns[|ns| - 1])
  }

  /** A notice counts unless it is a webhook with an event id already on file. */
  predicate Fresh(receipts: set<string>, n: Notice) {
    n.FromProvider? ==> n.eventId != "" && n.eventId !in receipts
  }

  function SourceOf(n: Notice): Source {
    match n
    case FromCheckout => CheckoutCallback
    case FromProvider(id) => ProviderWebhook(id)
  }

  predicate Payable(db: Db, c: nat, order: string, payment: string, fetch: Fetch) {
    && c < |db.cases| && !db.cases[c].recovered && order != "" && payment != ""
    && FindByOrder(db.cases, order) == Some(c) && Confirms(fetch, db.cases[c], order)
    && !PaymentTaken(db.cases, payment, c)
  }

  /** The table after the payment was credited once. */
  predicate CreditedOnce(db: Db, db': Db, c: nat, order: string, payment: string, fetch: Fetch, source: Source)
    requires c < |db.cases| && fetch.Fetch?
  {
    && db'.cases == db.cases[c := Credited(db.cases[c], payment, fetch)] && db'.runs == db.runs
    && db'.ledger == db.ledger + CreditEvents(c, fetch.amount, Reference(order, payment, source))
  }

  lemma FirstNotice(db: Db, c: nat, order: string, payment: string, fetch: Fetch, n: Notice)
    requires Payable(db, c, order, payment, fetch)
    ensures
      var db' := Announce(db, order, payment, fetch, n);
      if Fresh(db.receipts, n) then CreditedOnce(db, db', c, order, payment, fetch, SourceOf(n)) else db' == db
  {
  }

  lemma {:induction false} CreditKeepsLookup(cases: seq<Case>, c: nat, k: Case, order: string)
    requires FindByOrder(cases, order) == Some(c) && k.orderId == cases[c].orderId
    ensures FindByOrder(cases[c := k], order) == Some(c)
    decreases |cases|
  {
    var n := |cases| - 1;
    if c < n {
      assert cases[c := k][..n] == cases[..n][c := k];
      CreditKeepsLookup(cases[..n], c, k, order);
    }
  }

  lemma LaterNotice(db: Db, db1: Db, c: nat, order: string, payment: string, fetch: Fetch, source: Source, n: Notice)
    requires Payable(db, c, order, payment, fetch) && CreditedOnce(db, db1, c, order, payment, fetch, source)
    ensures CreditedOnce(db, Announce(db1, order, payment, fetch, n), c, order, payment, fetch, source)
  {
    CreditKeepsLookup(db.cases, c, Credited(db.cases[c], payment, fetch), order);
  }

  ghost predicate SomeFresh(receipts: set<string>, ns: seq<Notice>) {
    exists i :: 0 <= i < |ns| && Fresh(receipts, ns[i])
  }

  ghost predicate CreditedBySome(db: Db, db': Db, c: nat, order: string, payment: string, fetch: Fetch, ns: seq<Notice>)
    requires c < |db.cases| && fetch.Fetch?
  {
    exists i :: 0 <= i < |ns| && CreditedOnce(db, db', c, order, payment, fetch, SourceOf(ns[i]))
  }

  lemma SomeFreshSnoc(receipts: set<string>, ns: seq<Notice>)
    requires ns != []
    ensures SomeFresh(receipts, ns) <==> SomeFresh(receipts, ns[..|ns| - 1]) || Fresh(receipts, ns[|ns| - 1])
  {
  }

  lemma LaterNotices(
      db: Db, before: Db, c: nat, order: string, payment: string, fetch: Fetch, ns: seq<Notice>, n: Notice)
    requires Payable(db, c, order, payment, fetch)
    requires CreditedBySome(db, before, c, order, payment, fetch, ns)
    ensures CreditedBySome(db, Announce(before, order, payment, fetch, n), c, order, payment, fetch, ns + [n])
  {
    var j :| 0 <= j < |ns| && CreditedOnce(db, before, c, order, payment, fetch, SourceOf(ns[j]));
    LaterNotice(db, before, c, order, payment, fetch, SourceOf(ns[j]), n);
    assert (ns + [n])[j] == ns[j];
  }

  ghost predicate Converged(db: Db, db': Db, c: nat, order: string, payment: string, fetch: Fetch, ns: seq<Notice>)
    requires c < |db.cases| && fetch.Fetch?
  {
    if SomeFresh(db.receipts, ns) then CreditedBySome(db, db', c, order, payment, fetch, ns) else db' == db
  }

  lemma OneMoreNotice(
      db: Db, before: Db, c: nat, order: string, payment: string, fetch: Fetch, ns: seq<Notice>, n: Notice)
    requires Payable(db, c, order, payment, fetch) && Converged(db, before, c, order, payment, fetch, ns)
    ensures Converged(db, Announce(before, order, payment, fetch, n), c, order, payment, fetch, ns + [n])
  {
    SomeFreshSnoc(db.receipts, ns + [n]);
    assert (ns + [n])[..|ns|] == ns;
    if SomeFresh(db.receipts, ns) {
      LaterNotices(db, before, c, order, payment, fetch, ns, n);
    } else {
      FirstNotice(db, c, order, payment, fetch, n);
      assert (ns + [n])[|ns|] == n;
    }
  }

  /** However often, in whatever order and by whichever way a captured payment is
      announced, the case is credited once - exactly when some notice is fresh - and
      the ledger gains one PAYMENT_SUCCESS and one REVENUE_RECOVERED event. */
  lemma {:induction false} NoticesConverge(
      db: Db, c: nat, order: string, payment: string, fetch: Fetch, ns: seq<Notice>)
    requires Payable(db, c, order, payment, fetch)
    ensures Converged(db, AnnounceAll(db, order, payment, fetch, ns), c, order, payment, fetch, ns)
  {
    if ns != [] {
      var n := |ns| - 1;
      NoticesConverge(db, c, order, payment, fetch, ns[..n]);
      OneMoreNotice(db, AnnounceAll(db, order, payment, fetch, ns[..n]), c, order, payment, fetch, ns[..n], ns[n]);
      assert ns[..n] + [ns[n]] == ns;
    }
  }

  /** Two histories of notices of the same payment, each with a fresh one, leave the
      same cases and the same recovered total. */
  lemma NoticeOrderDoesNotMatter(
      db: Db, c: nat, order: string, payment: string, fetch: Fetch, ns: seq<Notice>, ms: seq<Notice>)
    requires Inv(db) && Payable(db, c, order, payment, fetch)
    requires SomeFresh(db.receipts, ns) && SomeFresh(db.receipts, ms)
    ensures
      var a, b := AnnounceAll(db, order, payment, fetch, ns), AnnounceAll(db, order, payment, fetch, ms);
      && a.cases == b.cases && a.runs == b.runs && |a.ledger| == |b.ledger|
      && CreditTotal(a.ledger) == CreditTotal(b.ledger) == CreditTotal(db.ledger) + db.cases[c].amountAtRisk
      && forall d: nat :: RevenueEvents(a.ledger, d, true) == RevenueEvents(b.ledger, d, true)
  {
    NoticesConverge(db, c, order, payment, fetch, ns);
    NoticesConverge(db, c, order, payment, fetch, ms);
    var a, b := AnnounceAll(db, order, payment, fetch, ns), AnnounceAll(db, order, payment, fetch, ms);
    var i :| 0 <= i < |ns| && CreditedOnce(db, a, c, order, payment, fetch, SourceOf(ns[i]));
    var j :| 0 <= j < |ms| && CreditedOnce(db, b, c, order, payment, fetch, SourceOf(ms[j]));
    CreditAdded(db.ledger, c, fetch.amount, Reference(order, payment, SourceOf(ns[i])));
    CreditAdded(db.ledger, c, fetch.amount, Reference(order, payment, SourceOf(ms[j])));
  }
}
