/** What every history of requests, deliveries, agent runs and escalations keeps. */
module RecoveryProtocol {
  import opened Wrappers
  import opened CaseStore
  import Agent = AgentGraph
  import AgentTheorems

  // ----- Money in the case table and in the ledger

  function Worth(k: Case): int {
    if k.paymentId.Some? then k.amountRecovered else 0
  }

  /** Recovered through a provider payment, summed over all cases. */
  function CaseTotal(cases: seq<Case>): int {
    if cases == [] then 0 else CaseTotal(cases[..|cases| - 1]) + Worth(cases[|cases| - 1])
  }

  predicate IsCredit(e: AuditEvent) {
    e.kind.RevenueRecovered? && e.reference.Some?
  }

  function CreditTotal(ledger: seq<AuditEvent>): int {
    if ledger == [] then 0
    else CreditTotal(ledger[..|ledger| - 1]) + if IsCredit(ledger[|ledger| - 1]) then ledger[|ledger| - 1].amount else 0
  }

  /** The REVENUE_RECOVERED events of case `c`, with or without a provider payment. */
  function RevenueEvents(ledger: seq<AuditEvent>, c: nat, paid: bool): nat {
    if ledger == [] then 0
    else
      var e := ledger[|ledger| - 1];
      RevenueEvents(ledger[..|ledger| - 1], c, paid)
      + if e.kind.RevenueRecovered? && e.caseId == c && e.reference.Some? == paid then 1 else 0
  }

  lemma {:induction false} CaseTotalUpdate(cases: seq<Case>, c: nat, k: Case)
    requires c < |cases|
    ensures CaseTotal(cases[c := k]) == CaseTotal(cases) - Worth(cases[c]) + Worth(k)
  {
    var n := |cases| - 1;
    if c == n {
      assert cases[c := k][..n] == cases[..n];
    } else {
      assert cases[c := k][..n] == cases[..n][c := k];
      CaseTotalUpdate(cases[..n], c, k);
    }
  }

  predicate NoCredits(events: seq<AuditEvent>) {
    forall i :: 0 <= i < |events| ==> !IsCredit(events[i])
  }

  lemma {:induction false} NoCreditsAdded(ledger: seq<AuditEvent>, events: seq<AuditEvent>)
    requires NoCredits(events)
    ensures CreditTotal(ledger + events) == CreditTotal(ledger)
    ensures forall c: nat :: RevenueEvents(ledger + events, c, true) == RevenueEvents(ledger, c, true)
    decreases |events|
  {
    if events == [] {
      assert ledger + events == ledger;
    } else {
      var n := |events| - 1;
      assert (ledger + events)[..|ledger + events| - 1] == ledger + events[..n];
      NoCreditsAdded(ledger, events[..n]);
    }
  }

  lemma CreditAdded(ledger: seq<AuditEvent>, c: nat, amount: int, reference: Reference)
    ensures CreditTotal(ledger + CreditEvents(c, amount, reference)) == CreditTotal(ledger) + amount
    ensures forall d: nat ::
      RevenueEvents(ledger + CreditEvents(c, amount, reference), d, true)
      == RevenueEvents(ledger, d, true) + if d == c then 1 else 0
    ensures forall d: nat ::
      RevenueEvents(ledger + CreditEvents(c, amount, reference), d, false) == RevenueEvents(ledger, d, false)
  {
    var events := CreditEvents(c, amount, reference);
    var one := ledger + [events[0]];
    assert ledger + events == one + [events[1]];
    assert (one + [events[1]])[..|one|] == one;
    assert one[..|ledger|] == ledger;
  }

  // ----- The invariant

  predicate CaseOk(k: Case) {
    && (k.recovered ==> k.stopped)
    && (!k.recovered ==> k.amountRecovered == 0)
    && (k.paymentId.Some? ==>
          k.recovered && k.amountRecovered == k.amountAtRisk && k.orderId.Some? && k.orderId.value != "")
  }

  predicate UniqueOrders(cases: seq<Case>) {
    forall i, j :: 0 <= i < j < |cases| && cases[i].orderId.Some? ==> cases[i].orderId != cases[j].orderId
  }

  predicate UniquePayments(cases: seq<Case>) {
    forall i, j :: 0 <= i < j < |cases| && cases[i].paymentId.Some? ==> cases[i].paymentId != cases[j].paymentId
  }

  predicate UniqueSources(cases: seq<Case>) {
    forall i, j :: 0 <= i < j < |cases| ==> cases[i].source != cases[j].source
  }

  /** A credit in the ledger describes its case as it still is. */
  predicate CreditOk(db: Db, e: AuditEvent) {
    IsCredit(e) ==>
      && e.caseId < |db.cases|
      && var k := db.cases[e.caseId];
      k.paymentId == Some(e.reference.value.paymentId) && HasOrder(k, e.reference.value.orderId)
      && k.amountRecovered == e.amount
  }

  ghost predicate Inv(db: Db) {
    && RunsHaveCases(db)
    && (forall c :: 0 <= c < |db.cases| ==> CaseOk(db.cases[c]))
    && UniqueOrders(db.cases) && UniquePayments(db.cases) && UniqueSources(db.cases)
    && (forall i :: 0 <= i < |db.ledger| ==> CreditOk(db, db.ledger[i]))
    && (forall c: nat ::
          RevenueEvents(db.ledger, c, true) == if c < |db.cases| && db.cases[c].paymentId.Some? then 1 else 0)
    && CreditTotal(db.ledger) == CaseTotal(db.cases)
  }

  /** The ways a row may change without touching recorded money. */
  predicate Harmless(k: Case, k': Case) {
    && CaseOk(k') && k'.source == k.source && k'.paymentId == k.paymentId
    && (k.paymentId.Some? ==> k'.amountRecovered == k.amountRecovered && k'.orderId == k.orderId)
  }

  lemma CreditsStayOk(db: Db, db': Db, c: nat, events: seq<AuditEvent>)
    requires Inv(db) && c < |db.cases| && |db'.cases| == |db.cases|
    requires db'.cases == db.cases[c := db'.cases[c]] && Harmless(db.cases[c], db'.cases[c])
    requires db'.ledger == db.ledger + events && NoCredits(events)
    ensures forall i :: 0 <= i < |db'.ledger| ==> CreditOk(db', db'.ledger[i])
  {
    forall i | 0 <= i < |db'.ledger| ensures CreditOk(db', db'.ledger[i]) {
      if i < |db.ledger| {
        assert CreditOk(db, db.ledger[i]) && CaseOk(db.cases[c]);
      }
    }
  }

  lemma RowRewritten(db: Db, db': Db, c: nat, events: seq<AuditEvent>)
    requires Inv(db) && RunsHaveCases(db') && c < |db.cases| && |db'.cases| == |db.cases|
    requires db'.cases == db.cases[c := db'.cases[c]] && Harmless(db.cases[c], db'.cases[c])
    requires db'.cases[c].orderId.Some? && db'.cases[c].orderId != db.cases[c].orderId ==>
               !OrderTaken(db.cases, db'.cases[c].orderId.value, c)
    requires db'.ledger == db.ledger + events && NoCredits(events)
    ensures Inv(db')
  {
    NoCreditsAdded(db.ledger, events);
    CaseTotalUpdate(db.cases, c, db'.cases[c]);
    CreditsStayOk(db, db', c, events);
    OrdersStayUnique(db.cases, c, db'.cases[c]);
  }

  lemma OrdersStayUnique(cases: seq<Case>, c: nat, k: Case)
    requires c < |cases| && UniqueOrders(cases)
    requires k.orderId.Some? && k.orderId != cases[c].orderId ==> !OrderTaken(cases, k.orderId.value, c)
    ensures UniqueOrders(cases[c := k])
  {
  }

  lemma PaymentsStayUnique(cases: seq<Case>, c: nat, k: Case)
    requires c < |cases| && UniquePayments(cases) && k.paymentId.Some?
    requires !PaymentTaken(cases, k.paymentId.value, c)
    ensures UniquePayments(cases[c := k])
  {
  }

  lemma Recredited(db: Db, c: nat, payment: string, order: string, source: Source, fetch: Fetch)
    requires Inv(db) && c < |db.cases| && !db.cases[c].recovered && order != ""
    requires HasOrder(db.cases[c], order) && Confirms(fetch, db.cases[c], order)
    requires !PaymentTaken(db.cases, payment, c)
    ensures Inv(Reconcile(db, c, payment, order, source, fetch).0)
  {
    var k := db.cases[c];
    var db' := Reconcile(db, c, payment, order, source, fetch).0;
    var k' := Credited(k, payment, fetch);
    CaseTotalUpdate(db.cases, c, k');
    CreditAdded(db.ledger, c, fetch.amount, Reference(order, payment, source));
    OrdersStayUnique(db.cases, c, k');
    PaymentsStayUnique(db.cases, c, k');
    assert k.paymentId.None?;
  }

  // ----- What an agent run does to its case

  /** Money, identity, provider links and the stop never go back. */
  predicate Grows(k: Case, k': Case) {
    && k'.source == k.source && k'.amountAtRisk == k.amountAtRisk && k'.currency == k.currency
    && (k.stopped ==> k'.stopped)
    && (k.recovered ==> k'.recovered && k'.amountRecovered == k.amountRecovered)
    && (k.paymentId.Some? ==> k'.paymentId == k.paymentId)
    && (k.orderId.Some? && k.orderId.value != "" ==> k'.orderId == k.orderId)
  }

  lemma AgentRow(k: Case, a: Attempt)
    requires CaseOk(k)
    ensures
      var r := Agent.Run(a.policy, a.mode, a.env, StartState(k), map[]);
      r.Finished? ==>
        && Harmless(k, Applied(k, r.state)) && Grows(k, Applied(k, r.state))
        && Applied(k, r.state).orderId == k.orderId && Applied(k, r.state).stopped
  {
    var s0 := StartState(k);
    AgentTheorems.RunsAreShortPaths(a.policy, a.mode, a.env, s0, map[]);
    if k.recovered {
      AgentTheorems.SettledCasesAreLeftAlone(a.policy, a.mode, a.env, s0, map[]);
    } else {
      AgentTheorems.RecoveredIffCaptured(a.policy, a.mode, a.env, s0, map[]);
    }
  }

  lemma AppliedIsHarmless(db: Db, r: nat, a: Attempt)
    requires Inv(db) && r < |db.runs| && RunOf(db, r, a).Finished?
    ensures Inv(ApplyResult(db, r, RunOf(db, r, a).state, a.base16))
  {
    var c := db.runs[r].caseId;
    var s := RunOf(db, r, a).state;
    AgentRow(db.cases[c], a);
    RowRewritten(db, ApplyResult(db, r, s, a.base16), c, AppliedEvents(c, s, a.base16));
  }

  lemma MarkErrorIsHarmless(db: Db, r: nat)
    requires Inv(db) && r < |db.runs|
    ensures Inv(MarkError(db, r))
  {
  }

  lemma ExecuteKeepsInv(db: Db, r: nat, finalAttempt: bool, a: Attempt)
    requires Inv(db)
    ensures Inv(ExecuteRun(db, r, finalAttempt, a).0)
  {
    if r < |db.runs| && db.runs[r].status.Running? {
      if RunOf(db, r, a).Finished? {
        AppliedIsHarmless(db, r, a);
        MarkErrorIsHarmless(ApplyResult(db, r, RunOf(db, r, a).state, a.base16), r);
      } else {
        MarkErrorIsHarmless(db, r);
      }
    }
  }

  // ----- What a request does

  lemma ReconcileKeepsInv(db: Db, c: nat, payment: string, order: string, source: Source, fetch: Fetch)
    requires Inv(db) && c < |db.cases| && order != "" && HasOrder(db.cases[c], order)
    ensures Inv(Reconcile(db, c, payment, order, source, fetch).0)
  {
    if Confirms(fetch, db.cases[c], order) && !db.cases[c].recovered && !PaymentTaken(db.cases, payment, c) {
      Recredited(db, c, payment, order, source, fetch);
    }
  }

  lemma OrderKeepsInv(db: Db, ready: bool, c: nat, offered: Option<ProviderOrder>)
    requires Inv(db)
    ensures Inv(CreateOrder(db, ready, c, offered).0)
  {
    var db' := CreateOrder(db, ready, c, offered).0;
    if db' != db {
      assert db.ledger + [] == db.ledger;
      RowRewritten(db, db', c, []);
    }
  }

  lemma VerifyKeepsInv(db: Db, ready: bool, q: CallbackRequest, fetch: Fetch)
    requires Inv(db)
    ensures Inv(VerifyPayment(db, ready, q, fetch).0)
  {
    var found := FindByOrder(db.cases, q.order);
    if found.Some? && q.order != "" {
      ReconcileKeepsInv(db, found.value, q.payment, q.order, CheckoutCallback, fetch);
      NoCreditsAdded(db.ledger, [AuditEvent(UnauthorizedAttempt, found.value, 0, None)]);
    }
  }

  lemma WebhookKeepsInv(db: Db, configured: bool, q: WebhookRequest, fetch: Fetch)
    requires Inv(db)
    ensures Inv(ReceiveWebhook(db, configured, q, fetch).0)
  {
    var found := FindByOrder(db.cases, q.order);
    var stored := db.(receipts := db.receipts + {q.eventId});
    assert Inv(stored);
    if found.Some? && q.order != "" {
      ReconcileKeepsInv(stored, found.value, q.payment, q.order, ProviderWebhook(q.eventId), fetch);
    }
  }

  lemma CaseTotalSnoc(cases: seq<Case>, k: Case)
    ensures CaseTotal(cases + [k]) == CaseTotal(cases) + Worth(k)
  {
  }

  lemma NewRowStaysUnique(cases: seq<Case>, k: Case)
    requires UniqueOrders(cases) && UniquePayments(cases) && UniqueSources(cases)
    requires k.orderId.None? && k.paymentId.None? && FindBySource(cases, k.source).None?
    ensures UniqueOrders(cases + [k]) && UniquePayments(cases + [k]) && UniqueSources(cases + [k])
  {
  }

  lemma NewCaseKeepsInv(db: Db, event: FailureEvent, score: real)
    requires Inv(db) && FindBySource(db.cases, event.key).None?
    ensures Inv(NewCase(db, event, score))
  {
    NewRowStaysUnique(db.cases, FreshCase(event, score));
    CaseTotalSnoc(db.cases, FreshCase(event, score));
    NoCreditsAdded(db.ledger, [AuditEvent(CaseCreated, |db.cases|, event.amount, None)]);
  }

  lemma OpenKeepsInv(db: Db, event: FailureEvent, score: real)
    requires Inv(db)
    ensures Inv(OpenCase(db, event, score).0)
  {
    if FindBySource(db.cases, event.key).None? {
      NewCaseKeepsInv(db, event, score);
    }
  }

  lemma EscalationKeepsInv(db: Db, c: nat, note: string)
    requires Inv(db)
    ensures Inv(EscalateCase(db, c, note))
  {
    if c < |db.cases| {
      RowRewritten(db, EscalateCase(db, c, note), c, [AuditEvent(CaseEscalated, c, 0, None)]);
    }
  }

  lemma StartKeepsInv(db: Db, c: nat)
    requires Inv(db)
    ensures Inv(StartRun(db, c).0)
  {
  }

  lemma StepKeepsInv(db: Db, step: Step)
    requires Inv(db)
    ensures Inv(Apply(db, step))
  {
    match step
    case Open(event, score) => OpenKeepsInv(db, event, score);
    case Order(ready, c, offered) => OrderKeepsInv(db, ready, c, offered);
    case Callback(ready, q, fetch) => VerifyKeepsInv(db, ready, q, fetch);
    case Webhook(configured, q, fetch) => WebhookKeepsInv(db, configured, q, fetch);
    case Start(c) => StartKeepsInv(db, c);
    case Execute(r, finalAttempt, attempt) => ExecuteKeepsInv(db, r, finalAttempt, attempt);
    case Escalation(c, note) => EscalationKeepsInv(db, c, note);
  }

  lemma {:induction false} HistoryKeepsInv(db: Db, steps: seq<Step>)
    requires Inv(db)
    ensures Inv(After(db, steps))
  {
    if steps != [] {
      HistoryKeepsInv(db, steps[..|steps| - 1]);
      StepKeepsInv(After(db, steps[..|steps| - 1]), steps[|steps| - 1]);
    }
  }
}
