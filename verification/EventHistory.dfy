/** The point-in-time history features `rr-features.v2`, stated once for both engines
    (pipeline/pandas_preprocessor.py:7-20). */
module EventHistory {
  import opened Wrappers
  import Sorting

  /** Identifiers stand for the source's strings; only their order matters. */
  datatype Event = Event(
    id: int, customer: int, time: int, kind: string, reason: string, amount: int, retries: int, recovered: bool)

  /** The prior events of `e`: same customer, smaller (occurred_at, event_id). */
  predicate Before(x: Event, e: Event) {
    x.customer == e.customer && (x.time < e.time || (x.time == e.time && x.id < e.id))
  }

  /** What is added up over a customer's events. */
  datatype Measure = One | Amount | Retries | OfKind(kind: string) | OfReason(reason: string)

  function Value(m: Measure, x: Event): int {
    match m
    case One => 1
    case Amount => x.amount
    case Retries => x.retries
    case OfKind(kind) => if x.kind == kind then 1 else 0
    case OfReason(reason) => if x.reason == reason then 1 else 0
  }

  function PriorSum(s: seq<Event>, e: Event, m: Measure): int {
    if s == [] then 0
    else PriorSum(s[..|s| - 1], e, m) + if Before(s[|s| - 1], e) then Value(m, s[|s| - 1]) else 0
  }

  function LatestPrior(s: seq<Event>, e: Event): Option<int> {
    if s == [] then None
    else
      var rest := LatestPrior(s[..|s| - 1], e);
      var x := s[|s| - 1];
      if Before(x, e) && (rest.None? || rest.value < x.time) then Some(x.time) else rest
  }

  datatype Features = Features(
    priorEvents: int, amountMean: Option<real>, retryTotal: int, checkoutAbandoned: int, failedPayment: int,
    failedSubscription: int, sameReason: int, hoursSincePrevious: Option<real>)

  function Mean(sum: int, count: int): Option<real> {
    if count == 0 then None else Some(sum as real / count as real)
  }

  function HoursSince(now: int, previous: Option<int>): Option<real> {
    match previous
    case None => None
    case Some(t) => Some((now - t) as real / 3600.0)
  }

  function HistoryOf(s: seq<Event>, e: Event): Features {
    Features(
      PriorSum(s, e, One), Mean(PriorSum(s, e, Amount), PriorSum(s, e, One)), PriorSum(s, e, Retries),
      PriorSum(s, e, OfKind("CHECKOUT_ABANDONED")), PriorSum(s, e, OfKind("FAILED_PAYMENT")),
      PriorSum(s, e, OfKind("FAILED_SUBSCRIPTION")), PriorSum(s, e, OfReason(e.reason)),
      HoursSince(e.time, LatestPrior(s, e)))
  }

  // ----- The input order does not matter

  lemma PriorSumSnoc(s: seq<Event>, x: Event, e: Event, m: Measure)
    ensures PriorSum(s + [x], e, m) == PriorSum(s, e, m) + if Before(x, e) then Value(m, x) else 0
  {
    assert (s + [x])[..|s|] == s;
  }

  lemma LatestPriorSnoc(s: seq<Event>, x: Event, e: Event)
    ensures
      var rest := LatestPrior(s, e);
      LatestPrior(s + [x], e) == if Before(x, e) && (rest.None? || rest.value < x.time) then Some(x.time) else rest
  {
    assert (s + [x])[..|s|] == s;
  }

  function Flag(b: bool): int {
    if b then 1 else 0
  }

  /** The features `g` are `f` with one more prior event `x` of an event at `now` of this reason,
      field by field. */
  predicate OneMore(f: Features, g: Features, x: Event, now: int, reason: string) {
    && g.priorEvents == f.priorEvents + 1 && g.retryTotal == f.retryTotal + x.retries
    && g.checkoutAbandoned == f.checkoutAbandoned + Flag(x.kind == "CHECKOUT_ABANDONED")
    && g.failedPayment == f.failedPayment + Flag(x.kind == "FAILED_PAYMENT")
    && g.failedSubscription == f.failedSubscription + Flag(x.kind == "FAILED_SUBSCRIPTION")
    && g.sameReason == f.sameReason + Flag(x.reason == reason)
    && var hours := (now - x.time) as real / 3600.0;
    g.hoursSincePrevious
    == Some(if f.hoursSincePrevious.Some? && f.hoursSincePrevious.value < hours then f.hoursSincePrevious.value
            else hours)
  }

  /** `m` is the mean of `n` numbers that add up to `sum`. */
  predicate IsMean(m: Option<real>, sum: int, n: int) {
    (m.None? <==> n == 0) && (m.Some? ==> m.value * n as real == sum as real)
  }

  /** `m'` is the mean of the amounts behind `m`, `n` of them, and one more. */
  ghost predicate MeanGrows(m: Option<real>, n: int, amount: int, m': Option<real>) {
    exists sum: int :: IsMean(m, sum, n) && (n == 0 ==> sum == 0) && IsMean(m', sum + amount, n + 1)
  }

  lemma HoursOrder(now: int, t: int, u: int)
    ensures t < u <==> (now - u) as real / 3600.0 < (now - t) as real / 3600.0
  {
  }

  lemma {:induction false} PriorCountIsNatural(s: seq<Event>, e: Event)
    ensures PriorSum(s, e, One) >= 0
  {
    if s != [] {
      PriorCountIsNatural(s[..|s| - 1], e);
    }
  }

  lemma MeanIsMean(sum: int, count: int)
    requires count >= 0
    ensures IsMean(Mean(sum, count), sum, count)
  {
  }

  lemma {:induction false} NoPriorNoSum(s: seq<Event>, e: Event, m: Measure)
    requires PriorSum(s, e, One) == 0
    ensures PriorSum(s, e, m) == 0
  {
    if s != [] {
      PriorCountIsNatural(s[..|s| - 1], e);
      NoPriorNoSum(s[..|s| - 1], e, m);
    }
  }

  lemma MeanOfOneMore(s: seq<Event>, x: Event, e: Event)
    requires Before(x, e)
    ensures MeanGrows(HistoryOf(s, e).amountMean, PriorSum(s, e, One), x.amount, HistoryOf(s + [x], e).amountMean)
  {
    PriorSumSnoc(s, x, e, One);
    PriorSumSnoc(s, x, e, Amount);
    PriorCountIsNatural(s, e);
    var n, sum := PriorSum(s, e, One), PriorSum(s, e, Amount);
    MeanIsMean(sum + x.amount, n + 1);
    MeanIsMean(sum, n);
    if n == 0 {
      NoPriorNoSum(s, e, Amount);
    }
  }

  /** What an event that comes before `e` adds to its history; without any event there is
      none. Which events come before it is written out. */
  lemma OnePriorEventMore(s: seq<Event>, x: Event, e: Event)
    ensures HistoryOf([], e) == Features(0, None, 0, 0, 0, 0, 0, None)
    ensures
      var before := x.customer == e.customer && (x.time < e.time || (x.time == e.time && x.id < e.id));
      var f, g := HistoryOf(s, e), HistoryOf(s + [x], e);
      if before then
        OneMore(f, g, x, e.time, e.reason) && MeanGrows(f.amountMean, f.priorEvents, x.amount, g.amountMean)
      else g == f
  {
    if Before(x, e) {
      MeanOfOneMore(s, x, e);
    }
    HistorySnoc(s, x, e);
  }

  lemma HistorySnoc(s: seq<Event>, x: Event, e: Event)
    ensures if Before(x, e) then OneMore(HistoryOf(s, e), HistoryOf(s + [x], e), x, e.time, e.reason)
            else HistoryOf(s + [x], e) == HistoryOf(s, e)
  {
    SumsSnoc(s, x, e);
    LatestPriorSnoc(s, x, e);
    if LatestPrior(s, e).Some? {
      HoursOrder(e.time, LatestPrior(s, e).value, x.time);
      HoursOrder(e.time, x.time, LatestPrior(s, e).value);
    }
  }

  lemma SumsSnoc(s: seq<Event>, x: Event, e: Event)
    ensures forall m :: PriorSum(s + [x], e, m) == PriorSum(s, e, m) + if Before(x, e) then Value(m, x) else 0
  {
    forall m ensures PriorSum(s + [x], e, m) == PriorSum(s, e, m) + if Before(x, e) then Value(m, x) else 0 {
      PriorSumSnoc(s, x, e, m);
    }
  }

  lemma {:induction false} PriorSumRemove(s: seq<Event>, i: nat, e: Event, m: Measure)
    requires i < |s|
    ensures PriorSum(s, e, m)
         == PriorSum(s[..i] + s[i + 1..], e, m) + if Before(s[i], e) then Value(m, s[i]) else 0
    decreases |s|
  {
    var n := |s| - 1;
    assert s == s[..n] + [s[n]];
    PriorSumSnoc(s[..n], s[n], e, m);
    if i < n {
      Sorting.LastStays(s, i);
      PriorSumSnoc(s[..n][..i] + s[..n][i + 1..], s[n], e, m);
      PriorSumRemove(s[..n], i, e, m);
    } else {
      assert s[..i] + s[i + 1..] == s[..n];
    }
  }

  lemma {:induction false} PriorSumPermuted(s: seq<Event>, t: seq<Event>, e: Event, m: Measure)
    requires multiset(s) == multiset(t)
    ensures PriorSum(s, e, m) == PriorSum(t, e, m)
    decreases |s|
  {
    if s == [] {
      assert |t| == |multiset(t)| == 0;
    } else {
      var n := |s| - 1;
      assert s == s[..n] + [s[n]];
      var i := Sorting.FindAndRemove(t, s[n]);
      PriorSumRemove(t, i, e, m);
      PriorSumPermuted(s[..n], t[..i] + t[i + 1..], e, m);
    }
  }

  /** `LatestPrior` is the greatest time of a prior event. */
  lemma {:induction false} LatestPriorIsGreatest(s: seq<Event>, e: Event)
    ensures LatestPrior(s, e).None? <==> forall x :: x in s ==> !Before(x, e)
    ensures forall x :: x in s && Before(x, e) ==> LatestPrior(s, e).Some? && x.time <= LatestPrior(s, e).value
    ensures LatestPrior(s, e).Some? ==> exists x :: x in s && Before(x, e) && x.time == LatestPrior(s, e).value
  {
    if s != [] {
      var n := |s| - 1;
      assert s == s[..n] + [s[n]];
      LatestPriorIsGreatest(s[..n], e);
    }
  }

  lemma LatestPriorPermuted(s: seq<Event>, t: seq<Event>, e: Event)
    requires multiset(s) == multiset(t)
    ensures LatestPrior(s, e) == LatestPrior(t, e)
  {
    LatestPriorIsGreatest(s, e);
    LatestPriorIsGreatest(t, e);
    assert forall x :: x in s <==> x in multiset(s);
    assert forall x :: x in t <==> x in multiset(t);
  }

  lemma HistoryPermuted(s: seq<Event>, t: seq<Event>, e: Event)
    requires multiset(s) == multiset(t)
    ensures HistoryOf(s, e) == HistoryOf(t, e)
  {
    forall m: Measure ensures PriorSum(s, e, m) == PriorSum(t, e, m) {
      PriorSumPermuted(s, t, e, m);
    }
    LatestPriorPermuted(s, t, e);
  }

  // ----- Nothing but the prior events matters

  /** The prior events of `e` with their outcome erased. */
  function PriorFacts(s: seq<Event>, e: Event): seq<Event> {
    if s == [] then []
    else
      var x := s[|s| - 1];
      PriorFacts(s[..|s| - 1], e) + if Before(x, e) then [x.(recovered := false)] else []
  }

  lemma {:induction false} HistoryOfPriorFacts(s: seq<Event>, e: Event)
    ensures forall m :: PriorSum(PriorFacts(s, e), e, m) == PriorSum(s, e, m)
    ensures LatestPrior(PriorFacts(s, e), e) == LatestPrior(s, e)
  {
    if s != [] {
      var n := |s| - 1;
      HistoryOfPriorFacts(s[..n], e);
      var facts := PriorFacts(s, e);
      if Before(s[n], e) {
        assert facts[..|facts| - 1] == PriorFacts(s[..n], e);
      } else {
        assert facts == PriorFacts(s[..n], e);
      }
    }
  }

  /** Non-interference: two datasets that agree on the events prior to `e`, labels
      aside, give `e` the same features, whatever else they contain and however the
      outcome of `e` itself is labelled. */
  lemma FutureAndLabelsDoNotLeak(s: seq<Event>, t: seq<Event>, e: Event, outcome: bool)
    requires multiset(PriorFacts(s, e)) == multiset(PriorFacts(t, e))
    ensures HistoryOf(s, e) == HistoryOf(t, e.(recovered := outcome))
  {
    SameFactsSameHistory(s, t, e);
    RelabelledHistory(t, e, outcome);
  }

  lemma SameFactsSameHistory(s: seq<Event>, t: seq<Event>, e: Event)
    requires multiset(PriorFacts(s, e)) == multiset(PriorFacts(t, e))
    ensures HistoryOf(s, e) == HistoryOf(t, e)
  {
    HistoryPermuted(PriorFacts(s, e), PriorFacts(t, e), e);
    FactsSuffice(s, e);
    FactsSuffice(t, e);
  }

  lemma FactsSuffice(s: seq<Event>, e: Event)
    ensures HistoryOf(PriorFacts(s, e), e) == HistoryOf(s, e)
  {
    HistoryOfPriorFacts(s, e);
  }

  lemma RelabelledHistory(s: seq<Event>, e: Event, outcome: bool)
    ensures HistoryOf(s, e) == HistoryOf(s, e.(recovered := outcome))
  {
    forall m: Measure ensures PriorSum(s, e, m) == PriorSum(s, e.(recovered := outcome), m) {
      RelabelledPriorSum(s, e, outcome, m);
    }
    RelabelledLatest(s, e, outcome);
  }

  lemma {:induction false} RelabelledPriorSum(s: seq<Event>, e: Event, outcome: bool, m: Measure)
    ensures PriorSum(s, e, m) == PriorSum(s, e.(recovered := outcome), m)
  {
    if s != [] {
      RelabelledPriorSum(s[..|s| - 1], e, outcome, m);
    }
  }

  lemma {:induction false} RelabelledLatest(s: seq<Event>, e: Event, outcome: bool)
    ensures LatestPrior(s, e) == LatestPrior(s, e.(recovered := outcome))
  {
    if s != [] {
      RelabelledLatest(s[..|s| - 1], e, outcome);
    }
  }

  lemma {:induction false} PriorFactsConcat(s: seq<Event>, t: seq<Event>, e: Event)
    ensures PriorFacts(s + t, e) == PriorFacts(s, e) + PriorFacts(t, e)
    decreases |t|
  {
    if t == [] {
      assert s + t == s;
    } else {
      var n := |t| - 1;
      assert (s + t)[..|s + t| - 1] == s + t[..n];
      PriorFactsConcat(s, t[..n], e);
    }
  }

  lemma AddedEventIsInvisible(s: seq<Event>, t: seq<Event>, x: Event, e: Event)
    requires !Before(x, e)
    ensures HistoryOf(s + [x] + t, e) == HistoryOf(s + t, e)
  {
    PriorFactsConcat(s, t, e);
    PriorFactsConcat(s + [x], t, e);
    PriorFactsConcat(s, [x], e);
    assert [x][..0] == [] && PriorFacts([x], e) == [];
    SameFactsSameHistory(s + [x] + t, s + t, e);
  }

  /** In particular an event that is not prior may be put in, taken out or replaced
      anywhere in the data. */
  lemma OtherEventsAreInvisible(s: seq<Event>, t: seq<Event>, x: Event, y: Event, e: Event)
    requires !Before(x, e) && !Before(y, e)
    ensures HistoryOf(s + [x] + t, e) == HistoryOf(s + t, e) == HistoryOf(s + [y] + t, e)
  {
    AddedEventIsInvisible(s, t, x, e);
    AddedEventIsInvisible(s, t, y, e);
  }
}
