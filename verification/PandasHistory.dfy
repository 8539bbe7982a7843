/** The reference implementation: sort once, then running group totals minus the
    row's own value (pipeline/pandas_preprocessor.py, `add_history_features`). */
module PandasHistory {
  import opened Wrappers
  import opened Sorting
  import opened EventHistory

  /** SEQUENCE_ORDER: customer_id, occurred_at, event_id. */
  predicate SequenceLeq(a: Event, b: Event) {
    || a.customer < b.customer
    || (a.customer == b.customer && (a.time < b.time || (a.time == b.time && a.id <= b.id)))
  }

  predicate DistinctIds(s: seq<Event>) {
    forall i, j :: 0 <= i < j < |s| ==> s[i].id != s[j].id
  }

  /** Rows of one customer stand in strict history order. */
  predicate InSequence(rows: seq<Event>) {
    forall i, j :: 0 <= i < j < |rows| && rows[i].customer == rows[j].customer ==> Before(rows[i], rows[j])
  }

  lemma {:induction false} DistinctIdsCount(s: seq<Event>, x: Event)
    requires DistinctIds(s)
    ensures multiset(s)[x] <= 1
  {
    if s != [] {
      var n := |s| - 1;
      assert s == s[..n] + [s[n]];
      DistinctIdsCount(s[..n], x);
      if x == s[n] {
        assert x !in s[..n];
      }
    }
  }

  lemma TwoOccurrences(t: seq<Event>, i: nat, j: nat)
    requires i < j < |t| && t[i] == t[j]
    ensures multiset(t)[t[i]] >= 2
  {
    assert t == t[..i] + [t[i]] + t[i + 1..j] + [t[j]] + t[j + 1..];
  }

  lemma DistinctIdsPermuted(s: seq<Event>, t: seq<Event>)
    requires DistinctIds(s) && multiset(s) == multiset(t)
    ensures DistinctIds(t)
  {
    forall i, j | 0 <= i < j < |t| ensures t[i].id != t[j].id {
      if t[i].id == t[j].id {
        assert t[i] in multiset(s) && t[j] in multiset(s);
        assert t[i] == t[j];
        TwoOccurrences(t, i, j);
        DistinctIdsCount(s, t[i]);
        assert false;
      }
    }
  }

  function SortedRows(raw: seq<Event>): (rows: seq<Event>)
    ensures multiset(rows) == multiset(raw) && |rows| == |raw| && Sorted(rows, SequenceLeq)
  {
    Sort(raw, SequenceLeq)
  }

  lemma SortedRowsInSequence(raw: seq<Event>)
    requires DistinctIds(raw)
    ensures InSequence(SortedRows(raw))
  {
    var rows := SortedRows(raw);
    DistinctIdsPermuted(raw, rows);
    forall i, j | 0 <= i < j < |rows| && rows[i].customer == rows[j].customer ensures Before(rows[i], rows[j]) {
      assert SequenceLeq(rows[i], rows[j]);
    }
  }

  // ----- The pandas primitives

  /** The total of a measure over one customer's rows. */
  function GroupTotal(s: seq<Event>, customer: int, m: Measure): int {
    if s == [] then 0
    else
      GroupTotal(s[..|s| - 1], customer, m) + if s[|s| - 1].customer == customer then Value(m, s[|s| - 1]) else 0
  }

  ghost predicate GroupTotalsGrowBy(rows: seq<Event>, i: nat, m: Measure)
    requires i < |rows|
  {
    forall c :: GroupTotal(rows[..i + 1], c, m)
                == GroupTotal(rows[..i], c, m) + if rows[i].customer == c then Value(m, rows[i]) else 0
  }

  lemma GroupTotalsGrow(rows: seq<Event>, i: nat, m: Measure)
    requires i < |rows|
    ensures GroupTotalsGrowBy(rows, i, m)
  {
    assert rows[..i + 1][..i] == rows[..i];
  }

  function LastTime(s: seq<Event>, customer: int): Option<int> {
    if s == [] then None
    else if s[|s| - 1].customer == customer then Some(s[|s| - 1].time)
    else LastTime(s[..|s| - 1], customer)
  }

  /** `totals` holds the total of every customer with rows so far. */
  ghost predicate TotalsSoFar(totals: map<int, int>, rows: seq<Event>, m: Measure) {
    forall c :: GroupTotal(rows, c, m) == if c in totals then totals[c] else 0
  }

  lemma TotalsGoOn(totals: map<int, int>, rows: seq<Event>, i: nat, m: Measure)
    requires i < |rows| && TotalsSoFar(totals, rows[..i], m)
    ensures
      var c := rows[i].customer;
      var total := (if c in totals then totals[c] else 0) + Value(m, rows[i]);
      total == GroupTotal(rows[..i + 1], c, m) && TotalsSoFar(totals[c := total], rows[..i + 1], m)
  {
    GroupTotalsGrow(rows, i, m);
  }

  ghost predicate RunningTotals(column: seq<int>, rows: seq<Event>, i: nat, m: Measure)
    requires i <= |rows|
  {
    |column| == i && forall j :: 0 <= j < i ==> column[j] == GroupTotal(rows[..j + 1], rows[j].customer, m)
  }

  lemma RunningTotalsSnoc(column: seq<int>, rows: seq<Event>, i: nat, m: Measure, total: int)
    requires i < |rows| && RunningTotals(column, rows, i, m)
    requires total == GroupTotal(rows[..i + 1], rows[i].customer, m)
    ensures RunningTotals(column + [total], rows, i + 1, m)
  {
  }

  /** `groupby("customer_id")[column].cumsum()`, the row itself included. */
  method GroupCumSum(rows: seq<Event>, m: Measure) returns (column: seq<int>)
    ensures |column| == |rows|
    ensures forall i :: 0 <= i < |rows| ==> column[i] == GroupTotal(rows[..i + 1], rows[i].customer, m)
  {
    column := [];
    var totals: map<int, int> := map[];
    for i := 0 to |rows|
      invariant TotalsSoFar(totals, rows[..i], m) && RunningTotals(column, rows, i, m)
    {
      var c := rows[i].customer;
      TotalsGoOn(totals, rows, i, m);
      var total := (if c in totals then totals[c] else 0) + Value(m, rows[i]);
      RunningTotalsSnoc(column, rows, i, m, total);
      totals := totals[c := total];
      column := column + [total];
    }
  }

  /** `counts` holds the number of rows so far of every customer and reason that occur. */
  ghost predicate CountsSoFar(counts: map<(int, string), int>, rows: seq<Event>) {
    forall c, reason ::
      GroupTotal(rows, c, OfReason(reason)) == if (c, reason) in counts then counts[(c, reason)] else 0
  }

  lemma CountsGoOn(counts: map<(int, string), int>, rows: seq<Event>, i: nat)
    requires i < |rows| && CountsSoFar(counts, rows[..i])
    ensures
      var k := (rows[i].customer, rows[i].reason);
      var count := if k in counts then counts[k] else 0;
      && count == GroupTotal(rows[..i], rows[i].customer, OfReason(rows[i].reason))
      && CountsSoFar(counts[k := count + 1], rows[..i + 1])
  {
    forall reason ensures GroupTotalsGrowBy(rows, i, OfReason(reason)) {
      GroupTotalsGrow(rows, i, OfReason(reason));
    }
  }

  /** `groupby(["customer_id", "failure_reason"]).cumcount()`, the row itself excluded. */
  method GroupCumCount(rows: seq<Event>) returns (column: seq<int>)
    ensures |column| == |rows|
    ensures forall i :: 0 <= i < |rows| ==>
              column[i] == GroupTotal(rows[..i], rows[i].customer, OfReason(rows[i].reason))
  {
    column := [];
    var counts: map<(int, string), int> := map[];
    for i := 0 to |rows|
      invariant |column| == i
      invariant CountsSoFar(counts, rows[..i])
      invariant forall j :: 0 <= j < i ==>
                  column[j] == GroupTotal(rows[..j], rows[j].customer, OfReason(rows[j].reason))
    {
      var k := (rows[i].customer, rows[i].reason);
      CountsGoOn(counts, rows, i);
      var count := if k in counts then counts[k] else 0;
      column := column + [count];
      counts := counts[k := count + 1];
    }
  }

  /** `last` holds the latest time of every customer with rows so far. */
  ghost predicate TimesSoFar(last: map<int, int>, rows: seq<Event>) {
    forall c :: LastTime(rows, c) == if c in last then Some(last[c]) else None
  }

  lemma TimesGoOn(last: map<int, int>, rows: seq<Event>, i: nat)
    requires i < |rows| && TimesSoFar(last, rows[..i])
    ensures TimesSoFar(last[rows[i].customer := rows[i].time], rows[..i + 1])
  {
    assert rows[..i + 1][..i] == rows[..i];
  }

  /** `groupby("customer_id")["occurred_at"].shift(1)`. */
  method GroupShift(rows: seq<Event>) returns (column: seq<Option<int>>)
    ensures |column| == |rows|
    ensures forall i :: 0 <= i < |rows| ==> column[i] == LastTime(rows[..i], rows[i].customer)
  {
    column := [];
    var last: map<int, int> := map[];
    for i := 0 to |rows|
      invariant |column| == i
      invariant TimesSoFar(last, rows[..i])
      invariant forall j :: 0 <= j < i ==> column[j] == LastTime(rows[..j], rows[j].customer)
    {
      var c := rows[i].customer;
      TimesGoOn(last, rows, i);
      column := column + [if c in last then Some(last[c]) else None];
      last := last[c := rows[i].time];
    }
  }

  // ----- Why running totals are prior totals

  lemma {:induction false} GroupTotalIsPriorSum(s: seq<Event>, e: Event, m: Measure)
    requires forall i :: 0 <= i < |s| && s[i].customer == e.customer ==> Before(s[i], e)
    ensures GroupTotal(s, e.customer, m) == PriorSum(s, e, m)
  {
    if s != [] {
      GroupTotalIsPriorSum(s[..|s| - 1], e, m);
    }
  }

  lemma {:induction false} LaterRowsAddNothing(s: seq<Event>, i: nat, e: Event, m: Measure)
    requires i <= |s| && forall j :: i <= j < |s| ==> !Before(s[j], e)
    ensures PriorSum(s, e, m) == PriorSum(s[..i], e, m) && LatestPrior(s, e) == LatestPrior(s[..i], e)
    decreases |s|
  {
    if i < |s| {
      var n := |s| - 1;
      LaterRowsAddNothing(s[..n], i, e, m);
      assert s[..n][..i] == s[..i];
    } else {
      assert s[..i] == s;
    }
  }

  lemma {:induction false} LastTimeIsLatestPrior(s: seq<Event>, e: Event)
    requires InSequence(s)
    requires forall i :: 0 <= i < |s| && s[i].customer == e.customer ==> Before(s[i], e)
    ensures LastTime(s, e.customer) == LatestPrior(s, e)
  {
    if s != [] {
      var n := |s| - 1;
      LastTimeIsLatestPrior(s[..n], e);
      if Before(s[n], e) {
        LatestPriorIsGreatest(s[..n], e);
      }
    }
  }

  /** In sequence order the rows above row `i` of its customer are its prior events. */
  lemma RowsAboveArePrior(rows: seq<Event>, i: nat, m: Measure)
    requires InSequence(rows) && i < |rows|
    ensures GroupTotal(rows[..i], rows[i].customer, m) == PriorSum(rows, rows[i], m)
    ensures GroupTotal(rows[..i + 1], rows[i].customer, m) - Value(m, rows[i]) == PriorSum(rows, rows[i], m)
    ensures LastTime(rows[..i], rows[i].customer) == LatestPrior(rows, rows[i])
  {
    var e := rows[i];
    assert rows[..i + 1][..i] == rows[..i];
    GroupTotalIsPriorSum(rows[..i], e, m);
    LaterRowsAddNothing(rows, i, e, m);
    LastTimeIsLatestPrior(rows[..i], e);
  }

  // ----- The feature columns

  /** A column with the prior total of `m` for every row. */
  ghost predicate HoldsPriors(column: seq<int>, rows: seq<Event>, m: Measure) {
    |column| == |rows| && forall i :: 0 <= i < |rows| ==> column[i] == PriorSum(rows, rows[i], m)
  }

  /** `cumsum() - column`: the running total of a measure without the row itself. */
  method PriorTotals(rows: seq<Event>, m: Measure) returns (column: seq<int>)
    requires InSequence(rows)
    ensures HoldsPriors(column, rows, m)
  {
    var inclusive := GroupCumSum(rows, m);
    column := seq(|rows|, i requires 0 <= i < |rows| => inclusive[i] - Value(m, rows[i]));
    forall i | 0 <= i < |rows| ensures column[i] == PriorSum(rows, rows[i], m) {
      RowsAboveArePrior(rows, i, m);
    }
  }

  const HISTORY_EVENT_TYPES := ["CHECKOUT_ABANDONED", "FAILED_PAYMENT", "FAILED_SUBSCRIPTION"]

  /** The guards at the end of `add_history_features`. */
  predicate GuardsHold(features: seq<Features>) {
    && (forall i :: 0 <= i < |features| && features[i].priorEvents == 0 ==>
          features[i].hoursSincePrevious.None? && features[i].retryTotal == 0)
    && (forall i :: 0 <= i < |features| && features[i].hoursSincePrevious.Some? ==>
          features[i].hoursSincePrevious.value >= 0.0)
  }

  /** The loop over the event types: one column for each. */
  method EventTypeColumns(rows: seq<Event>) returns (columns: seq<seq<int>>)
    requires InSequence(rows)
    ensures |columns| == |HISTORY_EVENT_TYPES|
    ensures forall k :: 0 <= k < |columns| ==> HoldsPriors(columns[k], rows, OfKind(HISTORY_EVENT_TYPES[k]))
  {
    columns := [];
    for k := 0 to |HISTORY_EVENT_TYPES|
      invariant |columns| == k
      invariant forall j :: 0 <= j < k ==> HoldsPriors(columns[j], rows, OfKind(HISTORY_EVENT_TYPES[j]))
    {
      var column := PriorTotals(rows, OfKind(HISTORY_EVENT_TYPES[k]));
      columns := columns + [column];
    }
  }

  /** Rows in sequence order get the history of their events among these rows. */
  method FeatureRows(rows: seq<Event>) returns (features: seq<Features>)
    requires InSequence(rows)
    ensures |features| == |rows|
    ensures forall i :: 0 <= i < |rows| ==> features[i] == HistoryOf(rows, rows[i])
  {
    var count := PriorTotals(rows, One);
    var previous := GroupShift(rows);
    var amounts := PriorTotals(rows, Amount);
    var retries := PriorTotals(rows, Retries);
    var byType := EventTypeColumns(rows);
    var sameReason := GroupCumCount(rows);
    features := seq(|rows|, i requires 0 <= i < |rows| =>
      Features(count[i], Mean(amounts[i], count[i]), retries[i], byType[0][i], byType[1][i], byType[2][i],
               sameReason[i], HoursSince(rows[i].time, previous[i])));
    forall i | 0 <= i < |rows| ensures features[i] == HistoryOf(rows, rows[i]) {
      SameReasonAndGap(rows, i, sameReason[i], previous[i]);
    }
  }

  lemma SameReasonAndGap(rows: seq<Event>, i: nat, sameReason: int, previous: Option<int>)
    requires InSequence(rows) && i < |rows|
    requires sameReason == GroupTotal(rows[..i], rows[i].customer, OfReason(rows[i].reason))
    requires previous == LastTime(rows[..i], rows[i].customer)
    ensures sameReason == PriorSum(rows, rows[i], OfReason(rows[i].reason)) && previous == LatestPrior(rows, rows[i])
  {
    RowsAboveArePrior(rows, i, OfReason(rows[i].reason));
  }

  /** Whatever the order of the input rows, each output row carries exactly the
      history of its event in the raw data, and the guards never raise. */
  method AddHistoryFeatures(raw: seq<Event>) returns (rows: seq<Event>, features: seq<Features>)
    requires DistinctIds(raw)
    ensures multiset(rows) == multiset(raw) && |features| == |rows| && InSequence(rows)
    ensures forall i :: 0 <= i < |rows| ==> features[i] == HistoryOf(raw, rows[i])
    ensures GuardsHold(features)
  {
    rows := SortedRows(raw);
    SortedRowsInSequence(raw);
    features := FeatureRows(rows);
    forall i | 0 <= i < |rows|
      ensures features[i] == HistoryOf(raw, rows[i])
      ensures features[i].priorEvents == 0 ==> features[i].hoursSincePrevious.None? && features[i].retryTotal == 0
      ensures features[i].hoursSincePrevious.Some? ==> features[i].hoursSincePrevious.value >= 0.0
    {
      HistoryPermuted(rows, raw, rows[i]);
      FirstEventHasNoHistory(raw, rows[i]);
    }
  }

  lemma {:induction false} NoPriorsNoTotal(s: seq<Event>, e: Event, m: Measure)
    ensures PriorSum(s, e, One) >= 0
    ensures PriorSum(s, e, One) == 0 ==> PriorSum(s, e, m) == 0 && LatestPrior(s, e).None?
  {
    if s != [] {
      NoPriorsNoTotal(s[..|s| - 1], e, m);
    }
  }

  lemma FirstEventHasNoHistory(s: seq<Event>, e: Event)
    ensures
      var f := HistoryOf(s, e);
      && (f.priorEvents == 0 ==> f.hoursSincePrevious.None? && f.retryTotal == 0)
      && (f.hoursSincePrevious.Some? ==> f.hoursSincePrevious.value >= 0.0)
  {
    NoPriorsNoTotal(s, e, Retries);
    LatestPriorIsGreatest(s, e);
  }
}
