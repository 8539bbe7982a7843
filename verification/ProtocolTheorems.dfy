/** The promises of the recovery backend over whole histories. */
module ProtocolTheorems {
  import opened Wrappers
  import opened CaseStore
  import opened Letters
  import opened RecoveryProtocol
  import Agent = AgentGraph
  import AgentTheorems
  import PolicyEngine

  // ----- Nothing is taken back

  /** `db'` may follow `db`: money, links, receipts, the ledger and finished runs stay. */
  ghost predicate Grown(db: Db, db': Db) {
    && |db.cases| <= |db'.cases| && |db.runs| <= |db'.runs|
    && (forall c :: 0 <= c < |db.cases| ==> Grows(db.cases[c], db'.cases[c]))
    && (forall r :: 0 <= r < |db.runs| ==>
          && db'.runs[r].caseId == db.runs[r].caseId
          && (!db.runs[r].status.Running? ==> db'.runs[r] == db.runs[r]))
    && db.receipts <= db'.receipts && db.ledger <= db'.ledger
  }

  /** One row and one run are rewritten, and events are added. */
  lemma ResultGrows(db: Db, db': Db, r: nat)
    requires RunsHaveCases(db) && r < |db.runs| && db.runs[r].status.Running? && |db'.cases| == |db.cases|
    requires db'.cases == db.cases[db.runs[r].caseId := db'.cases[db.runs[r].caseId]]
    requires Grows(db.cases[db.runs[r].caseId], db'.cases[db.runs[r].caseId])
    requires |db'.runs| == |db.runs| && db'.runs == db.runs[r := db'.runs[r]]
    requires db'.runs[r].caseId == db.runs[r].caseId
    requires db'.receipts == db.receipts && db.ledger <= db'.ledger
    ensures Grown(db, db')
  {
  }

  lemma ExecutionKeepsSize(db: Db, r: nat, finalAttempt: bool, a: Attempt)
    requires RunsHaveCases(db)
    ensures |ExecuteRun(db, r, finalAttempt, a).0.cases| == |db.cases|
  {
  }

  lemma ExecuteGrows(db: Db, r: nat, finalAttempt: bool, a: Attempt)
    requires Inv(db)
    ensures Grown(db, ExecuteRun(db, r, finalAttempt, a).0)
  {
    if r < |db.runs| && db.runs[r].status.Running? {
      var db' := ExecuteRun(db, r, finalAttempt, a).0;
      AgentRow(db.cases[db.runs[r].caseId], a);
      ResultGrows(db, db', r);
    }
  }

  lemma ReconcileGrows(db: Db, c: nat, payment: string, order: string, source: Source, fetch: Fetch)
    requires Inv(db) && c < |db.cases|
    ensures Grown(db, Reconcile(db, c, payment, order, source, fetch).0)
  {
  }

  lemma RequestGrows(db: Db, ready: bool, q: CallbackRequest, fetch: Fetch)
    requires Inv(db)
    ensures Grown(db, VerifyPayment(db, ready, q, fetch).0)
  {
    var found := FindByOrder(db.cases, q.order);
    if found.Some? {
      ReconcileGrows(db, found.value, q.payment, q.order, CheckoutCallback, fetch);
    }
  }

  lemma DeliveryGrows(db: Db, configured: bool, q: WebhookRequest, fetch: Fetch)
    requires Inv(db)
    ensures Grown(db, ReceiveWebhook(db, configured, q, fetch).0)
  {
  }

  /** What opening, ordering, starting and escalating do to a row. */
  predicate PlainRow(k: Case, k': Case) {
    && k' == k.(orderId := k'.orderId, status := k'.status, escalation := k'.escalation, stopped := k'.stopped)
    && (k.orderId.Some? && k.orderId.value != "" ==> k'.orderId == k.orderId)
    && (k.stopped ==> k'.stopped)
  }

  /** These steps touch no money: rows change harmlessly or are new, runs are added, and
      the ledger gains no revenue. */
  ghost predicate Plain(db: Db, db': Db) {
    && |db.cases| <= |db'.cases| && db.runs <= db'.runs && db'.receipts == db.receipts && db.ledger <= db'.ledger
    && (forall c :: 0 <= c < |db.cases| ==> PlainRow(db.cases[c], db'.cases[c]))
    && (forall c :: |db.cases| <= c < |db'.cases| ==>
          && !db'.cases[c].recovered && db'.cases[c].paymentId.None? && db'.cases[c].orderId.None?
          && db'.cases[c].retryCount == 0 && db'.cases[c].communicationCount == 0)
    && (forall i :: |db.ledger| <= i < |db'.ledger| ==> !db'.ledger[i].kind.RevenueRecovered?)
  }

  predicate IsPlain(step: Step) {
    step.Open? || step.Order? || step.Start? || step.Escalation?
  }

  lemma OrderIsPlain(db: Db, ready: bool, c: nat, offered: Option<ProviderOrder>)
    ensures Plain(db, CreateOrder(db, ready, c, offered).0)
  {
  }

  lemma OpenIsPlain(db: Db, event: FailureEvent, score: real)
    ensures Plain(db, OpenCase(db, event, score).0)
  {
  }

  lemma StartIsPlain(db: Db, c: nat)
    ensures Plain(db, StartRun(db, c).0)
  {
  }

  lemma EscalationIsPlain(db: Db, c: nat, note: string)
    ensures Plain(db, EscalateCase(db, c, note))
  {
  }

  lemma StepIsPlain(db: Db, step: Step)
    requires RunsHaveCases(db) && IsPlain(step)
    ensures Plain(db, Apply(db, step))
  {
    match step
    case Open(event, score) => OpenIsPlain(db, event, score);
    case Order(ready, c, offered) => OrderIsPlain(db, ready, c, offered);
    case Start(c) => StartIsPlain(db, c);
    case Escalation(c, note) => EscalationIsPlain(db, c, note);
  }

  lemma PlainGrows(db: Db, db': Db)
    requires Plain(db, db')
    ensures Grown(db, db')
  {
    assert forall c :: 0 <= c < |db.cases| ==> PlainRow(db.cases[c], db'.cases[c]);
  }

  lemma StepGrows(db: Db, step: Step)
    requires Inv(db)
    ensures Grown(db, Apply(db, step))
  {
    match step
    case Callback(ready, q, fetch) => RequestGrows(db, ready, q, fetch);
    case Webhook(configured, q, fetch) => DeliveryGrows(db, configured, q, fetch);
    case Execute(r, finalAttempt, attempt) => ExecuteGrows(db, r, finalAttempt, attempt);
    case _ =>
      StepIsPlain(db, step);
      PlainGrows(db, Apply(db, step));
  }

  lemma {:induction false} HistoryGrows(db: Db, steps: seq<Step>)
    requires Inv(db)
    ensures Inv(After(db, steps)) && Grown(db, After(db, steps))
  {
    HistoryKeepsInv(db, steps);
    if steps != [] {
      var before := After(db, steps[..|steps| - 1]);
      HistoryGrows(db, steps[..|steps| - 1]);
      StepGrows(before, steps[|steps| - 1]);
      forall c | 0 <= c < |db.cases| ensures Grows(db.cases[c], After(db, steps).cases[c]) {
        assert Grows(db.cases[c], before.cases[c]);
      }
    }
  }

  /** The invariant of every reachable state: a recovered case is stopped, an
      unrecovered one has recovered nothing, and it stays as it is from then on. */
  lemma RecoveryIsPermanent(steps: seq<Step>, more: seq<Step>, c: nat)
    requires c < |After(EMPTY, steps).cases|
    ensures
      var k := After(EMPTY, steps).cases[c];
      && (k.recovered ==> k.stopped) && (!k.recovered ==> k.amountRecovered == 0)
      && (k.paymentId.Some? ==> k.recovered && k.amountRecovered == k.amountAtRisk)
      && c < |After(After(EMPTY, steps), more).cases|
      && Grows(k, After(After(EMPTY, steps), more).cases[c])
  {
    HistoryKeepsInv(EMPTY, steps);
    HistoryGrows(After(EMPTY, steps), more);
  }

  // ----- One completed run is the last

  predicate IsCompleted(db: Db, r: nat) {
    r < |db.runs| && db.runs[r].status.Completed?
  }

  lemma ExecutionStopsItsCase(db: Db, q: nat, finalAttempt: bool, a: Attempt, r: nat)
    requires Inv(db) && !IsCompleted(db, r) && IsCompleted(ExecuteRun(db, q, finalAttempt, a).0, r)
    ensures ExecuteRun(db, q, finalAttempt, a).0.cases[ExecuteRun(db, q, finalAttempt, a).0.runs[r].caseId].stopped
  {
    AgentRow(db.cases[db.runs[q].caseId], a);
  }

  lemma RequestKeepsRuns(db: Db, ready: bool, q: CallbackRequest, fetch: Fetch)
    ensures VerifyPayment(db, ready, q, fetch).0.runs == db.runs
  {
  }

  lemma DeliveryKeepsRuns(db: Db, configured: bool, q: WebhookRequest, fetch: Fetch)
    ensures ReceiveWebhook(db, configured, q, fetch).0.runs == db.runs
  {
  }

  lemma OnlyExecutionCompletes(db: Db, step: Step, r: nat)
    requires RunsHaveCases(db) && !step.Execute? && IsCompleted(Apply(db, step), r)
    ensures IsCompleted(db, r)
  {
    match step
    case Callback(ready, q, fetch) => RequestKeepsRuns(db, ready, q, fetch);
    case Webhook(configured, q, fetch) => DeliveryKeepsRuns(db, configured, q, fetch);
    case _ =>
  }

  /** A completed run has stopped its case. */
  lemma {:induction false} CompletedRunStopsItsCase(steps: seq<Step>, r: nat)
    requires IsCompleted(After(EMPTY, steps), r)
    ensures After(EMPTY, steps).cases[After(EMPTY, steps).runs[r].caseId].stopped
  {
    var n := |steps| - 1;
    var before := After(EMPTY, steps[..n]);
    HistoryKeepsInv(EMPTY, steps[..n]);
    if IsCompleted(before, r) {
      CompletedRunStopsItsCase(steps[..n], r);
      StepGrows(before, steps[n]);
    } else {
      if !steps[n].Execute? {
        OnlyExecutionCompletes(before, steps[n], r);
      }
      ExecutionStopsItsCase(before, steps[n].r, steps[n].finalAttempt, steps[n].attempt, r);
    }
  }

  /** Once a run of a case has completed, no other run ever starts on it. */
  lemma NoRunAfterCompletion(steps: seq<Step>, more: seq<Step>, r: nat)
    requires IsCompleted(After(EMPTY, steps), r)
    ensures
      var db := After(EMPTY, steps);
      var later := After(db, more);
      StartRun(later, db.runs[r].caseId) == (later, None)
  {
    CompletedRunStopsItsCase(steps, r);
    HistoryKeepsInv(EMPTY, steps);
    HistoryGrows(After(EMPTY, steps), more);
  }

  // ----- Conservation

  /** The provider calls the payment captured: for this order, in this amount and currency. */
  predicate SaysCaptured(fetch: Fetch, order: string, amount: int, currency: string) {
    && fetch.Fetch? && fetch.status.Success? && fetch.orderId == Some(order) && fetch.amount == amount
    && SameLetters(fetch.currency, currency)
  }

  /** `step` is a signed request that showed the backend a captured payment for exactly this
      credit, in the currency of its case. */
  predicate Captures(step: Step, e: AuditEvent, currency: string) {
    && IsCredit(e)
    && match step
       case Callback(ready, q, fetch) =>
         && ready && q.signatureValid && SaysCaptured(fetch, q.order, e.amount, currency)
         && e.reference.value == Reference(q.order, q.payment, CheckoutCallback)
       case Webhook(configured, q, fetch) =>
         && configured && q.signed && q.signatureValid && q.wellFormed && q.captured
         && SaysCaptured(fetch, q.order, e.amount, currency)
         && e.reference.value == Reference(q.order, q.payment, ProviderWebhook(q.eventId))
       case _ => false
  }

  /** The currency of the case that is credited. */
  function CurrencyOf(db: Db, e: AuditEvent): string {
    if e.caseId < |db.cases| then db.cases[e.caseId].currency else ""
  }

  /** A credit of a reconciliation is one the provider calls captured for that case. */
  lemma ReconcileCaptures(db: Db, c: nat, payment: string, order: string, source: Source, fetch: Fetch, i: nat)
    requires c < |db.cases| && |db.ledger| <= i < |Reconcile(db, c, payment, order, source, fetch).0.ledger|
    requires IsCredit(Reconcile(db, c, payment, order, source, fetch).0.ledger[i])
    ensures
      var e := Reconcile(db, c, payment, order, source, fetch).0.ledger[i];
      && e.caseId == c && e.reference == Some(Reference(order, payment, source))
      && SaysCaptured(fetch, order, e.amount, db.cases[c].currency)
      && Reconcile(db, c, payment, order, source, fetch).0.cases[c].currency == db.cases[c].currency
  {
    if fetch.Fetch? {
      UpperMeansSameLetters(fetch.currency, db.cases[c].currency);
    }
  }

  lemma RequestCaptures(db: Db, ready: bool, q: CallbackRequest, fetch: Fetch, i: nat)
    requires |db.ledger| <= i < |VerifyPayment(db, ready, q, fetch).0.ledger|
    requires IsCredit(VerifyPayment(db, ready, q, fetch).0.ledger[i])
    ensures
      var db' := VerifyPayment(db, ready, q, fetch).0;
      && db'.ledger[i].caseId < |db'.cases|
      && Captures(Callback(ready, q, fetch), db'.ledger[i], CurrencyOf(db', db'.ledger[i]))
  {
    ReconcileCaptures(db, FindByOrder(db.cases, q.order).value, q.payment, q.order, CheckoutCallback, fetch, i);
  }

  lemma DeliveryCaptures(db: Db, configured: bool, q: WebhookRequest, fetch: Fetch, i: nat)
    requires |db.ledger| <= i < |ReceiveWebhook(db, configured, q, fetch).0.ledger|
    requires IsCredit(ReceiveWebhook(db, configured, q, fetch).0.ledger[i])
    ensures
      var db' := ReceiveWebhook(db, configured, q, fetch).0;
      && db'.ledger[i].caseId < |db'.cases|
      && Captures(Webhook(configured, q, fetch), db'.ledger[i], CurrencyOf(db', db'.ledger[i]))
  {
    var stored := db.(receipts := db.receipts + {q.eventId});
    ReconcileCaptures(
      stored, FindByOrder(db.cases, q.order).value, q.payment, q.order, ProviderWebhook(q.eventId), fetch, i);
  }

  lemma ExecutionCreditsNothing(db: Db, r: nat, finalAttempt: bool, a: Attempt, i: nat)
    requires RunsHaveCases(db) && |db.ledger| <= i < |ExecuteRun(db, r, finalAttempt, a).0.ledger|
    ensures !IsCredit(ExecuteRun(db, r, finalAttempt, a).0.ledger[i])
  {
  }

  lemma NewCreditsAreCaptured(db: Db, step: Step, i: nat)
    requires RunsHaveCases(db) && |db.ledger| <= i < |Apply(db, step).ledger| && IsCredit(Apply(db, step).ledger[i])
    ensures
      var db' := Apply(db, step);
      db'.ledger[i].caseId < |db'.cases| && Captures(step, db'.ledger[i], CurrencyOf(db', db'.ledger[i]))
  {
    match step
    case Callback(ready, q, fetch) => RequestCaptures(db, ready, q, fetch, i);
    case Webhook(configured, q, fetch) => DeliveryCaptures(db, configured, q, fetch, i);
    case Execute(r, finalAttempt, a) => ExecutionCreditsNothing(db, r, finalAttempt, a, i);
    case _ => StepIsPlain(db, step);
  }

  lemma CurrencyStays(db: Db, db': Db, e: AuditEvent)
    requires Grown(db, db') && e.caseId < |db.cases|
    ensures CurrencyOf(db', e) == CurrencyOf(db, e)
  {
    assert Grows(db.cases[e.caseId], db'.cases[e.caseId]);
  }

  lemma {:induction false} EveryCreditWasCaptured(steps: seq<Step>, i: nat)
    requires i < |After(EMPTY, steps).ledger| && IsCredit(After(EMPTY, steps).ledger[i])
    ensures
      var db := After(EMPTY, steps);
      && db.ledger[i].caseId < |db.cases|
      && exists j :: 0 <= j < |steps| && Captures(steps[j], db.ledger[i], CurrencyOf(db, db.ledger[i]))
  {
    var n := |steps| - 1;
    var before := After(EMPTY, steps[..n]);
    HistoryKeepsInv(EMPTY, steps[..n]);
    StepGrows(before, steps[n]);
    if i < |before.ledger| {
      EveryCreditWasCaptured(steps[..n], i);
      CurrencyStays(before, After(EMPTY, steps), before.ledger[i]);
    } else {
      NewCreditsAreCaptured(before, steps[n], i);
    }
  }

  lemma {:induction false} TwoEventsCountTwice(ledger: seq<AuditEvent>, i: nat, j: nat)
    requires i < j < |ledger| && IsCredit(ledger[i]) && IsCredit(ledger[j]) && ledger[i].caseId == ledger[j].caseId
    ensures RevenueEvents(ledger, ledger[i].caseId, true) >= 2
  {
    var n := |ledger| - 1;
    if j < n {
      TwoEventsCountTwice(ledger[..n], i, j);
    } else {
      OneEventCounts(ledger[..n], i);
    }
  }

  lemma {:induction false} OneEventCounts(ledger: seq<AuditEvent>, i: nat)
    requires i < |ledger| && IsCredit(ledger[i])
    ensures RevenueEvents(ledger, ledger[i].caseId, true) >= 1
  {
    if i < |ledger| - 1 {
      OneEventCounts(ledger[..|ledger| - 1], i);
    }
  }

  lemma CreditsDiffer(db: Db, i: nat, j: nat)
    requires Inv(db) && i < j < |db.ledger| && IsCredit(db.ledger[i]) && IsCredit(db.ledger[j])
    ensures db.ledger[i].caseId != db.ledger[j].caseId
    ensures db.ledger[i].reference.value.paymentId != db.ledger[j].reference.value.paymentId
  {
    if db.ledger[i].caseId == db.ledger[j].caseId {
      TwoEventsCountTwice(db.ledger, i, j);
      assert false;
    }
    assert CreditOk(db, db.ledger[i]) && CreditOk(db, db.ledger[j]);
  }

  lemma CreditsAreWhole(db: Db, i: nat)
    requires Inv(db) && i < |db.ledger| && IsCredit(db.ledger[i])
    ensures CreditOk(db, db.ledger[i]) && db.ledger[i].amount == db.cases[db.ledger[i].caseId].amountAtRisk
  {
    assert CaseOk(db.cases[db.ledger[i].caseId]);
  }

  /** In every reachable state the money recovered through provider payments equals
      the sum of the credits in the ledger; the credits are for pairwise different
      payments and cases, each was captured for the order of its case with the
      amount at risk, and each case with a payment has exactly one. */
  lemma {:induction false} MoneyIsConserved(steps: seq<Step>)
    ensures
      var db := After(EMPTY, steps);
      && CaseTotal(db.cases) == CreditTotal(db.ledger)
      && (forall c: nat :: c < |db.cases| ==>
            RevenueEvents(db.ledger, c, true) == if db.cases[c].paymentId.Some? then 1 else 0)
      && (forall i :: 0 <= i < |db.ledger| && IsCredit(db.ledger[i]) ==>
            && CreditOk(db, db.ledger[i])
            && db.ledger[i].amount == db.cases[db.ledger[i].caseId].amountAtRisk
            && exists j :: 0 <= j < |steps| && Captures(steps[j], db.ledger[i], CurrencyOf(db, db.ledger[i])))
      && (forall i, j :: 0 <= i < j < |db.ledger| && IsCredit(db.ledger[i]) && IsCredit(db.ledger[j]) ==>
            && db.ledger[i].caseId != db.ledger[j].caseId
            && db.ledger[i].reference.value.paymentId != db.ledger[j].reference.value.paymentId)
  {
    var db := After(EMPTY, steps);
    HistoryKeepsInv(EMPTY, steps);
    forall i | 0 <= i < |db.ledger| && IsCredit(db.ledger[i])
      ensures CreditOk(db, db.ledger[i]) && db.ledger[i].amount == db.cases[db.ledger[i].caseId].amountAtRisk
      ensures exists j :: 0 <= j < |steps| && Captures(steps[j], db.ledger[i], CurrencyOf(db, db.ledger[i]))
    {
      CreditsAreWhole(db, i);
      EveryCreditWasCaptured(steps, i);
    }
    forall i, j | 0 <= i < j < |db.ledger| && IsCredit(db.ledger[i]) && IsCredit(db.ledger[j])
      ensures db.ledger[i].caseId != db.ledger[j].caseId
      ensures db.ledger[i].reference.value.paymentId != db.ledger[j].reference.value.paymentId
    {
      CreditsDiffer(db, i, j);
    }
  }

  // ----- Simulator-backed recoveries

  predicate SimulatorBacked(steps: seq<Step>) {
    forall i :: 0 <= i < |steps| && steps[i].Execute? ==> steps[i].attempt.mode.Simulator?
  }

  /** A simulated recovery restores the whole amount, but its transaction id is no uuid. */
  lemma SimulatedRow(k: Case, a: Attempt)
    requires CaseOk(k) && a.mode.Simulator?
    ensures
      var r := Agent.Run(a.policy, a.mode, a.env, StartState(k), map[]);
      r.Finished? ==>
        && (ReportsRecovery(r.state) <==> r.state.recovered && !k.recovered)
        && (ReportsRecovery(r.state) ==> AuditRaises(r.state, a.base16))
        && (!k.recovered && Applied(k, r.state).recovered ==> Applied(k, r.state).amountRecovered == k.amountAtRisk)
  {
    var s0 := StartState(k);
    if k.recovered {
      AgentTheorems.SettledCasesAreLeftAlone(a.policy, a.mode, a.env, s0, map[]);
    } else {
      AgentTheorems.RecoveredIffCaptured(a.policy, a.mode, a.env, s0, map[]);
      AgentTheorems.SimulatorRecoversTheCaseAmount(a.policy, a.env, s0, map[]);
    }
  }

  ghost predicate Full(db: Db) {
    && (forall c :: 0 <= c < |db.cases| && db.cases[c].recovered ==>
          db.cases[c].amountRecovered == db.cases[c].amountAtRisk)
    && (forall c: nat :: RevenueEvents(db.ledger, c, false) == 0)
  }

  lemma {:induction false} QuietEvents(ledger: seq<AuditEvent>, events: seq<AuditEvent>)
    requires forall i :: 0 <= i < |events| && events[i].kind.RevenueRecovered? ==> events[i].reference.Some?
    ensures forall c: nat :: RevenueEvents(ledger + events, c, false) == RevenueEvents(ledger, c, false)
    decreases |events|
  {
    if events == [] {
      assert ledger + events == ledger;
    } else {
      assert (ledger + events)[..|ledger + events| - 1] == ledger + events[..|events| - 1];
      QuietEvents(ledger, events[..|events| - 1]);
    }
  }

  lemma ExecuteKeepsFull(db: Db, r: nat, finalAttempt: bool, a: Attempt)
    requires Inv(db) && Full(db) && a.mode.Simulator?
    ensures Full(ExecuteRun(db, r, finalAttempt, a).0)
  {
    if r < |db.runs| && db.runs[r].status.Running? {
      var c := db.runs[r].caseId;
      var ended := [AuditEvent(AgentRunCompleted, c, 0, None)];
      AgentRow(db.cases[c], a);
      SimulatedRow(db.cases[c], a);
      QuietEvents(db.ledger, ended);
      if RunOf(db, r, a).Finished? {
        var s := RunOf(db, r, a).state;
        QuietEvents(db.ledger, AppliedEvents(c, s, a.base16));
        QuietEvents(ApplyResult(db, r, s, a.base16).ledger, ended);
      }
    }
  }

  /** The other steps credit whole amounts and log nothing without a payment. */
  ghost predicate AddsNoQuietRevenue(db: Db, db': Db) {
    && (forall c :: 0 <= c < |db'.cases| && db'.cases[c].recovered && !(c < |db.cases| && db.cases[c].recovered) ==>
          db'.cases[c].amountRecovered == db'.cases[c].amountAtRisk)
    && (forall i :: |db.ledger| <= i < |db'.ledger| && db'.ledger[i].kind.RevenueRecovered? ==>
          db'.ledger[i].reference.Some?)
  }

  lemma RequestIsLoud(db: Db, ready: bool, q: CallbackRequest, fetch: Fetch)
    requires Inv(db)
    ensures AddsNoQuietRevenue(db, VerifyPayment(db, ready, q, fetch).0)
  {
  }

  lemma DeliveryIsLoud(db: Db, configured: bool, q: WebhookRequest, fetch: Fetch)
    requires Inv(db)
    ensures AddsNoQuietRevenue(db, ReceiveWebhook(db, configured, q, fetch).0)
  {
  }

  lemma OtherStepsAreLoud(db: Db, step: Step)
    requires Inv(db) && !step.Execute?
    ensures AddsNoQuietRevenue(db, Apply(db, step))
  {
    match step
    case Callback(ready, q, fetch) => RequestIsLoud(db, ready, q, fetch);
    case Webhook(configured, q, fetch) => DeliveryIsLoud(db, configured, q, fetch);
    case _ => StepIsPlain(db, step);
  }

  lemma OtherStepsKeepFull(db: Db, step: Step)
    requires Inv(db) && Full(db) && !step.Execute?
    ensures Full(Apply(db, step))
  {
    StepGrows(db, step);
    OtherStepsAreLoud(db, step);
    GrownKeepsFull(db, Apply(db, step));
  }

  lemma GrownKeepsFull(db: Db, db': Db)
    requires Full(db) && Grown(db, db') && AddsNoQuietRevenue(db, db')
    ensures Full(db')
  {
    var events := db'.ledger[|db.ledger|..];
    assert db'.ledger == db.ledger + events;
    QuietEvents(db.ledger, events);
  }

  lemma StepKeepsFull(db: Db, step: Step)
    requires Inv(db) && Full(db) && (step.Execute? ==> step.attempt.mode.Simulator?)
    ensures Full(Apply(db, step))
  {
    match step
    case Execute(r, finalAttempt, attempt) => ExecuteKeepsFull(db, r, finalAttempt, attempt);
    case _ => OtherStepsKeepFull(db, step);
  }

  /** With the simulator behind every agent run, a recovered case has recovered
      exactly its amount at risk. */
  lemma {:induction false} SimulatorHistoriesAreFull(steps: seq<Step>)
    requires SimulatorBacked(steps)
    ensures Full(After(EMPTY, steps))
  {
    if steps != [] {
      var n := |steps| - 1;
      SimulatorHistoriesAreFull(steps[..n]);
      HistoryKeepsInv(EMPTY, steps[..n]);
      StepKeepsFull(After(EMPTY, steps[..n]), steps[n]);
    }
  }

  /** The ledger does not show every recovery: a recovered case has its one
      REVENUE_RECOVERED event exactly when a provider payment is recorded for it. */
  lemma RevenueEventIffProviderPayment(steps: seq<Step>, c: nat)
    requires SimulatorBacked(steps) && c < |After(EMPTY, steps).cases|
    ensures
      var db := After(EMPTY, steps);
      var events := RevenueEvents(db.ledger, c, true) + RevenueEvents(db.ledger, c, false);
      events == if db.cases[c].paymentId.Some? then 1 else 0
  {
    SimulatorHistoriesAreFull(steps);
    HistoryKeepsInv(EMPTY, steps);
  }

  /** A simulated recovery never completes its run. On a final attempt the run is
      marked ERROR although the recovered case is committed, without a revenue
      event; on any other attempt everything is rolled back. */
  lemma SimulatedRecoveryNeverCompletes(db: Db, r: nat, finalAttempt: bool, a: Attempt)
    requires Inv(db) && r < |db.runs| && db.runs[r].status.Running? && a.mode.Simulator?
    requires !db.cases[db.runs[r].caseId].recovered
    requires RunOf(db, r, a).Finished? && RunOf(db, r, a).state.recovered
    ensures
      var c := db.runs[r].caseId;
      var (db', answer) := ExecuteRun(db, r, finalAttempt, a);
      if finalAttempt then
        && answer == Ended(Error) && db'.runs[r].status.Error?
        && db'.cases[c].recovered && db'.cases[c].status.Recovered?
        && db'.cases[c].amountRecovered == db.cases[c].amountAtRisk
        && forall p: bool :: RevenueEvents(db'.ledger, c, p) == RevenueEvents(db.ledger, c, p)
      else db' == db && answer == Reraised
  {
    var c := db.runs[r].caseId;
    var ended := [AuditEvent(AgentRunCompleted, c, 0, None)];
    SimulatedRow(db.cases[c], a);
    QuietEvents(db.ledger, ended);
    NoCreditsAdded(db.ledger, ended);
    var s := RunOf(db, r, a).state;
    assert AppliedEvents(c, s, a.base16) == [];
    assert db.ledger + [] == db.ledger;
  }

  lemma AfterSnoc(db: Db, steps: seq<Step>, step: Step)
    requires RunsHaveCases(db)
    ensures After(db, steps + [step]) == Apply(After(db, steps), step)
  {
  }

  lemma NoRevenueYet(a: AuditEvent, b: AuditEvent)
    requires a.kind.CaseCreated? && b.kind.AgentRunStarted?
    ensures forall p: bool :: RevenueEvents([a] + [b], 0, p) == 0
  {
    NoCreditsAdded([], [a]);
    NoCreditsAdded([a], [b]);
    QuietEvents([], [a]);
    QuietEvents([a], [b]);
    assert [] + [a] == [a];
  }

  function OneRun(event: FailureEvent, score: real): Db {
    StartRun(NewCase(EMPTY, event, score), 0).0
  }

  lemma OneRunIsValid(event: FailureEvent, score: real)
    ensures
      var db := OneRun(event, score);
      && Inv(db) && db.cases == [FreshCase(event, score)] && db.runs == [AgentRun(0, Running, [])]
      && forall p: bool :: RevenueEvents(db.ledger, 0, p) == 0
  {
    NewCaseKeepsInv(EMPTY, event, score);
    StartKeepsInv(NewCase(EMPTY, event, score), 0);
    var a, b := AuditEvent(CaseCreated, 0, event.amount, None), AuditEvent(AgentRunStarted, 0, 0, None);
    assert OneRun(event, score).ledger == [a] + [b];
    NoRevenueYet(a, b);
  }

  function OpenAndStart(event: FailureEvent, score: real): seq<Step> {
    [] + [Open(event, score)] + [Start(0)]
  }

  lemma OneRunIsReached(event: FailureEvent, score: real)
    ensures After(EMPTY, OpenAndStart(event, score)) == OneRun(event, score)
  {
    AfterSnoc(EMPTY, [], Open(event, score));
    AfterSnoc(EMPTY, [] + [Open(event, score)], Start(0));
  }

  lemma ExecuteLast(steps: seq<Step>, r: nat, finalAttempt: bool, a: Attempt)
    ensures After(EMPTY, steps + [Execute(r, finalAttempt, a)])
         == ExecuteRun(After(EMPTY, steps), r, finalAttempt, a).0
  {
    AfterSnoc(EMPTY, steps, Execute(r, finalAttempt, a));
  }

  function ChargedAttempt(p: PolicyEngine.Policy, base16: string -> bool): Attempt {
    Attempt(p, Agent.Simulator, AgentTheorems.OnlyChargedRetries(), base16)
  }

  lemma ChargedAttemptEndsInError(db: Db, p: PolicyEngine.Policy, base16: string -> bool)
    requires Inv(db) && |db.runs| == 1 && db.runs[0] == AgentRun(0, Running, [])
    requires !db.cases[0].recovered && AgentTheorems.RetryApprovable(p, StartState(db.cases[0]))
    ensures
      var db' := ExecuteRun(db, 0, true, ChargedAttempt(p, base16)).0;
      && |db'.runs| == 1 && |db'.cases| == |db.cases| && db'.runs[0].status.Error?
      && db'.cases[0].recovered && db'.cases[0].status.Recovered?
      && forall q: bool :: RevenueEvents(db'.ledger, 0, q) == RevenueEvents(db.ledger, 0, q)
  {
    AgentTheorems.ChargedRetryRecovers(p, StartState(db.cases[0]), map[]);
    SimulatedRecoveryNeverCompletes(db, 0, true, ChargedAttempt(p, base16));
  }

  /** The one case is recovered, the one run failed, and the ledger shows no revenue. */
  ghost predicate RecoveredUnseen(db: Db) {
    && |db.cases| == 1 && |db.runs| == 1 && db.runs[0].status.Error?
    && db.cases[0].recovered && db.cases[0].status.Recovered?
    && forall paid: bool :: RevenueEvents(db.ledger, 0, paid) == 0
  }

  lemma ChargedRunIsUnseen(p: PolicyEngine.Policy, base16: string -> bool, event: FailureEvent, score: real)
    requires AgentTheorems.RetryApprovable(p, StartState(FreshCase(event, score)))
    ensures RecoveredUnseen(ExecuteRun(OneRun(event, score), 0, true, ChargedAttempt(p, base16)).0)
  {
    OneRunIsValid(event, score);
    ChargedAttemptEndsInError(OneRun(event, score), p, base16);
  }

  /** For every event whose case a policy lets retry, the shortest history of that kind:
      a case, a run and one charged retry. */
  lemma RecoveredWithoutRevenueEvent(
      p: PolicyEngine.Policy, base16: string -> bool, event: FailureEvent, score: real)
    returns (steps: seq<Step>)
    requires AgentTheorems.RetryApprovable(p, StartState(FreshCase(event, score)))
    ensures SimulatorBacked(steps) && |steps| == 3 && RecoveredUnseen(After(EMPTY, steps))
  {
    var two := OpenAndStart(event, score);
    steps := two + [Execute(0, true, ChargedAttempt(p, base16))];
    OneRunIsReached(event, score);
    ChargedRunIsUnseen(p, base16, event, score);
    ExecuteLast(two, 0, true, ChargedAttempt(p, base16));
  }

  const DEFAULT_POLICY := PolicyEngine.Policy(3, 5000000, 24, 3, 2, 10000, true, 0.5, true, true, true)

  /** What the default policy approves, with its limits written out. */
  lemma DefaultPolicyDecides(c: PolicyEngine.Context)
    ensures
      var retry := c.action.RetryPayment? || c.action.ScheduledRetry?;
      var gated := c.action.SendReminder? || c.action.SendCheckoutRecovery? || c.action.ChangeChannel?;
      PolicyEngine.Authorize(DEFAULT_POLICY, c).decision.Approved? <==>
        && !c.recovered && !c.alreadyPaid && !c.optedOut && !c.suspended && 0 < c.amount <= 5000000
        && !c.reason.UnknownFailure? && (c.confidence.Some? ==> c.confidence.value >= 0.5)
        && (retry ==> c.retryCount < 3 && (c.hoursSinceLast.Some? ==> c.hoursSinceLast.value >= 24.0))
        && (gated ==> c.communicationCount < 3)
        && (c.action.SendCheckoutRecovery? ==> c.timeoutElapsed && c.amount >= 10000 && c.checkoutMessages < 2)
  {
  }

  /** The default policy approves a first retry of every case of known reason and of at
      most 50000 rupees. */
  lemma DefaultPolicyApproves(event: FailureEvent, score: real)
    ensures
      AgentTheorems.RetryApprovable(DEFAULT_POLICY, StartState(FreshCase(event, score)))
      <==> 0 < event.amount <= 5000000 && !event.reason.UnknownFailure?
  {
  }
}
