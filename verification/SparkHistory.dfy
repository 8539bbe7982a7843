/** The Spark implementation: per-customer windows over the rows strictly before the
    current one (pipeline/spark_pipeline.py, `transform`). */
module SparkHistory {
  import opened Wrappers
  import opened EventHistory
  import opened PandasHistory

  /** `Window.partitionBy("customer_id")`. */
  function Partition(s: seq<Event>, customer: int): seq<Event> {
    if s == [] then []
    else Partition(s[..|s| - 1], customer) + if s[|s| - 1].customer == customer then [s[|s| - 1]] else []
  }

  /** `Window.partitionBy("customer_id", "failure_reason")`. */
  function ReasonPartition(s: seq<Event>, customer: int, reason: string): seq<Event> {
    if s == [] then []
    else
      var x := s[|s| - 1];
      ReasonPartition(s[..|s| - 1], customer, reason)
      + if x.customer == customer && x.reason == reason then [x] else []
  }

  /** `row_number() - 1` of `e` in an ordered window. */
  function PositionOf(window: seq<Event>, e: Event): (i: nat)
    requires e in window
    ensures i < |window| && window[i] == e
  {
    if window[|window| - 1] == e then |window| - 1 else PositionOf(window[..|window| - 1], e)
  }

  /** `sum(...)` over a frame; `coalesce` turns the empty frame into 0. */
  function FrameSum(frame: seq<Event>, m: Measure): int {
    if frame == [] then 0 else FrameSum(frame[..|frame| - 1], m) + Value(m, frame[|frame| - 1])
  }

  /** The window columns of the row at position `r` of its customer's window. */
  function FrameFeatures(e: Event, window: seq<Event>, r: nat, sameReason: int): Features
    requires r <= |window|
  {
    var frame := window[..r];
    Features(
      r, if r == 0 then None else Some(FrameSum(frame, Amount) as real / r as real), FrameSum(frame, Retries),
      FrameSum(frame, OfKind("CHECKOUT_ABANDONED")), FrameSum(frame, OfKind("FAILED_PAYMENT")),
      FrameSum(frame, OfKind("FAILED_SUBSCRIPTION")), sameReason,
      if r == 0 then None else Some((e.time - window[r - 1].time) as real / 3600.0))
  }

  /** Within a partition the order (occurred_at_sec, event_id) is the sequence order. */
  function SparkFeatures(raw: seq<Event>, e: Event): Features
    requires e in Partition(raw, e.customer) && e in ReasonPartition(raw, e.customer, e.reason)
  {
    var window := SortedRows(Partition(raw, e.customer));
    var reasonWindow := SortedRows(ReasonPartition(raw, e.customer, e.reason));
    assert e in multiset(window) && e in multiset(reasonWindow);
    FrameFeatures(e, window, PositionOf(window, e), |reasonWindow[..PositionOf(reasonWindow, e)]|)
  }

  // ----- Frames are prior events

  lemma PartitionSnoc(s: seq<Event>, customer: int)
    requires s != []
    ensures
      var p, x := Partition(s[..|s| - 1], customer), s[|s| - 1];
      Partition(s, customer) == if x.customer == customer then p + [x] else p
  {
  }

  lemma ReasonPartitionSnoc(s: seq<Event>, customer: int, reason: string)
    requires s != []
    ensures
      var p, x := ReasonPartition(s[..|s| - 1], customer, reason), s[|s| - 1];
      ReasonPartition(s, customer, reason) == if x.customer == customer && x.reason == reason then p + [x] else p
  {
  }

  lemma {:induction false} PartitionKeepsSums(s: seq<Event>, e: Event, m: Measure)
    ensures PriorSum(Partition(s, e.customer), e, m) == PriorSum(s, e, m)
  {
    if s != [] {
      var n := |s| - 1;
      PartitionKeepsSums(s[..n], e, m);
      PartitionSnoc(s, e.customer);
      PriorSumSnoc(Partition(s[..n], e.customer), s[n], e, m);
    }
  }

  lemma {:induction false} PartitionKeepsLatest(s: seq<Event>, e: Event)
    ensures LatestPrior(Partition(s, e.customer), e) == LatestPrior(s, e)
  {
    if s != [] {
      var n := |s| - 1;
      PartitionKeepsLatest(s[..n], e);
      PartitionSnoc(s, e.customer);
      LatestPriorSnoc(Partition(s[..n], e.customer), s[n], e);
    }
  }

  lemma PartitionKeepsPriors(s: seq<Event>, e: Event, m: Measure)
    ensures PriorSum(Partition(s, e.customer), e, m) == PriorSum(s, e, m)
    ensures LatestPrior(Partition(s, e.customer), e) == LatestPrior(s, e)
  {
    PartitionKeepsSums(s, e, m);
    PartitionKeepsLatest(s, e);
  }

  lemma {:induction false} PartitionMembers(s: seq<Event>, customer: int, x: Event)
    ensures x in Partition(s, customer) <==> x in s && x.customer == customer
  {
    if s != [] {
      var n := |s| - 1;
      assert s == s[..n] + [s[n]];
      PartitionMembers(s[..n], customer, x);
    }
  }

  lemma {:induction false} ReasonPartitionMembers(s: seq<Event>, customer: int, reason: string, x: Event)
    ensures x in ReasonPartition(s, customer, reason) <==> x in s && x.customer == customer && x.reason == reason
  {
    if s != [] {
      var n := |s| - 1;
      assert s == s[..n] + [s[n]];
      ReasonPartitionMembers(s[..n], customer, reason, x);
    }
  }

  lemma {:induction false} ReasonPartitionCounts(s: seq<Event>, e: Event)
    ensures PriorSum(ReasonPartition(s, e.customer, e.reason), e, One) == PriorSum(s, e, OfReason(e.reason))
  {
    if s != [] {
      var n := |s| - 1;
      ReasonPartitionCounts(s[..n], e);
      ReasonPartitionSnoc(s, e.customer, e.reason);
      PriorSumSnoc(ReasonPartition(s[..n], e.customer, e.reason), s[n], e, One);
    }
  }

  lemma {:induction false} FrameSumIsPriorSum(frame: seq<Event>, e: Event, m: Measure)
    requires forall i :: 0 <= i < |frame| ==> Before(frame[i], e)
    ensures FrameSum(frame, m) == PriorSum(frame, e, m) && PriorSum(frame, e, One) == |frame|
  {
    if frame != [] {
      FrameSumIsPriorSum(frame[..|frame| - 1], e, m);
    }
  }

  /** The frame above `e` in an ordered one-customer window holds its prior events. */
  lemma FrameHoldsPriors(window: seq<Event>, e: Event, m: Measure)
    requires InSequence(window) && e in window
    requires forall x :: x in window ==> x.customer == e.customer
    ensures
      var r := PositionOf(window, e);
      && FrameSum(window[..r], m) == PriorSum(window, e, m) && r == PriorSum(window, e, One)
      && LatestPrior(window, e) == if r == 0 then None else Some(window[r - 1].time)
  {
    var r := PositionOf(window, e);
    FrameSumIsPriorSum(window[..r], e, m);
    LaterRowsAddNothing(window, r, e, m);
    LaterRowsAddNothing(window, r, e, One);
    LastTimeIsLatestPrior(window[..r], e);
  }

  lemma {:induction false} PartitionIdsDistinct(s: seq<Event>, customer: int)
    requires DistinctIds(s)
    ensures DistinctIds(Partition(s, customer))
  {
    if s != [] {
      var n := |s| - 1;
      PartitionIdsDistinct(s[..n], customer);
      forall x | x in Partition(s[..n], customer) ensures x.id != s[n].id {
        PartitionMembers(s[..n], customer, x);
      }
    }
  }

  lemma {:induction false} ReasonPartitionIdsDistinct(s: seq<Event>, customer: int, reason: string)
    requires DistinctIds(s)
    ensures DistinctIds(ReasonPartition(s, customer, reason))
  {
    if s != [] {
      var n := |s| - 1;
      ReasonPartitionIdsDistinct(s[..n], customer, reason);
      forall x | x in ReasonPartition(s[..n], customer, reason) ensures x.id != s[n].id {
        ReasonPartitionMembers(s[..n], customer, reason, x);
      }
    }
  }

  /** Sorting a partition into a window loses nothing of the prior events. */
  lemma WindowPriors(part: seq<Event>, e: Event, m: Measure)
    requires DistinctIds(part) && e in part && forall x :: x in part ==> x.customer == e.customer
    ensures
      var window := SortedRows(part);
      && e in window
      && var r := PositionOf(window, e);
      && FrameSum(window[..r], m) == PriorSum(part, e, m) && r == PriorSum(part, e, One)
      && LatestPrior(part, e) == if r == 0 then None else Some(window[r - 1].time)
  {
    var window := SortedRows(part);
    SortedRowsInSequence(part);
    assert forall x :: x in window ==> x in multiset(part);
    assert e in multiset(window);
    FrameHoldsPriors(window, e, m);
    PriorSumPermuted(window, part, e, m);
    PriorSumPermuted(window, part, e, One);
    LatestPriorPermuted(window, part, e);
  }

  lemma SparkTotals(raw: seq<Event>, e: Event, m: Measure)
    requires DistinctIds(raw) && e in raw
    ensures
      var part := Partition(raw, e.customer);
      var window := SortedRows(part);
      && e in part && e in window
      && var r := PositionOf(window, e);
      && FrameSum(window[..r], m) == PriorSum(raw, e, m) && r == PriorSum(raw, e, One)
      && LatestPrior(raw, e) == if r == 0 then None else Some(window[r - 1].time)
  {
    PartitionIdsDistinct(raw, e.customer);
    forall x ensures x in Partition(raw, e.customer) <==> x in raw && x.customer == e.customer {
      PartitionMembers(raw, e.customer, x);
    }
    PartitionKeepsPriors(raw, e, m);
    PartitionKeepsPriors(raw, e, One);
    WindowPriors(Partition(raw, e.customer), e, m);
  }

  lemma FramesMakeTheHistory(raw: seq<Event>, e: Event, window: seq<Event>, r: nat, sameReason: int)
    requires r <= |window| && r == PriorSum(raw, e, One) && sameReason == PriorSum(raw, e, OfReason(e.reason))
    requires forall m: Measure :: FrameSum(window[..r], m) == PriorSum(raw, e, m)
    requires LatestPrior(raw, e) == if r == 0 then None else Some(window[r - 1].time)
    ensures FrameFeatures(e, window, r, sameReason) == HistoryOf(raw, e)
  {
  }

  lemma CustomerWindow(raw: seq<Event>, e: Event)
    requires DistinctIds(raw) && e in raw
    ensures
      var window := SortedRows(Partition(raw, e.customer));
      && e in Partition(raw, e.customer) && e in window
      && var r := PositionOf(window, e);
      && (forall m: Measure :: FrameSum(window[..r], m) == PriorSum(raw, e, m)) && r == PriorSum(raw, e, One)
      && LatestPrior(raw, e) == if r == 0 then None else Some(window[r - 1].time)
  {
    var window := SortedRows(Partition(raw, e.customer));
    SparkTotals(raw, e, One);
    forall m: Measure ensures FrameSum(window[..PositionOf(window, e)], m) == PriorSum(raw, e, m) {
      SparkTotals(raw, e, m);
    }
  }

  lemma ReasonWindow(raw: seq<Event>, e: Event)
    requires DistinctIds(raw) && e in raw
    ensures
      var part := ReasonPartition(raw, e.customer, e.reason);
      && e in part && e in SortedRows(part)
      && PositionOf(SortedRows(part), e) == PriorSum(raw, e, OfReason(e.reason))
  {
    ReasonPartitionCounts(raw, e);
    ReasonPartitionIdsDistinct(raw, e.customer, e.reason);
    forall x ensures x in ReasonPartition(raw, e.customer, e.reason)
                     <==> x in raw && x.customer == e.customer && x.reason == e.reason
    {
      ReasonPartitionMembers(raw, e.customer, e.reason, x);
    }
    WindowPriors(ReasonPartition(raw, e.customer, e.reason), e, One);
  }

  /** Spark and the specification agree on every event of every dataset with distinct
      ids, hence so do Spark and pandas. */
  lemma SparkComputesTheHistory(raw: seq<Event>, e: Event)
    requires DistinctIds(raw) && e in raw
    ensures e in Partition(raw, e.customer) && e in ReasonPartition(raw, e.customer, e.reason)
    ensures SparkFeatures(raw, e) == HistoryOf(raw, e)
  {
    CustomerWindow(raw, e);
    ReasonWindow(raw, e);
    var window := SortedRows(Partition(raw, e.customer));
    var reasonWindow := SortedRows(ReasonPartition(raw, e.customer, e.reason));
    FramesMakeTheHistory(raw, e, window, PositionOf(window, e), PositionOf(reasonWindow, e));
  }

  /** Parity: each pandas row carries the features Spark computes for its event. */
  method EnginesAgree(raw: seq<Event>) returns (rows: seq<Event>, features: seq<Features>)
    requires DistinctIds(raw)
    ensures multiset(rows) == multiset(raw) && |features| == |rows|
    ensures forall i :: 0 <= i < |rows| ==>
      && rows[i] in Partition(raw, rows[i].customer)
      && rows[i] in ReasonPartition(raw, rows[i].customer, rows[i].reason)
      && features[i] == SparkFeatures(raw, rows[i])
  {
    rows, features := AddHistoryFeatures(raw);
    forall i | 0 <= i < |rows|
      ensures rows[i] in Partition(raw, rows[i].customer)
      ensures rows[i] in ReasonPartition(raw, rows[i].customer, rows[i].reason)
      ensures features[i] == SparkFeatures(raw, rows[i])
    {
      assert rows[i] in multiset(raw);
      SparkComputesTheHistory(raw, rows[i]);
    }
  }
}
