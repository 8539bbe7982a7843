/** Reliability bins and the errors computed from them (evaluation/metrics.py,
    `calibration_bins`, `probability_metrics`, `probability_error_metrics`). */
module Calibration {
  import opened Wrappers
  import opened RealSums

  datatype Sample = Sample(positive: bool, p: real, w: real)

  // ----- Bins

  /** `np.linspace(0, 1, n + 1)[b]`. */
  function Edge(b: nat, n: nat): real
    requires n >= 1
  {
    b as real / n as real
  }

  /** `np.digitize(p, edges[1:k + 1])`: how many of the first `k` inner edges are at most `p`. */
  function Digitize(p: real, n: nat, k: nat): (d: nat)
    requires n >= 1
    ensures d <= k
  {
    if k == 0 then 0 else Digitize(p, n, k - 1) + if Edge(k, n) <= p then 1 else 0
  }

  /** The clip of the source is the identity: there are n - 1 inner edges. */
  function BinOf(p: real, n: nat): (b: nat)
    requires n >= 1
    ensures b < n
  {
    Digitize(p, n, n - 1)
  }

  lemma EdgesRise(a: nat, b: nat, n: nat)
    requires n >= 1 && a < b
    ensures Edge(a, n) < Edge(b, n)
  {
    assert a as real < b as real && n as real > 0.0;
  }

  lemma {:induction false} DigitizeSeparates(p: real, n: nat, k: nat)
    requires n >= 1
    ensures
      var d := Digitize(p, n, k);
      && (d > 0 ==> Edge(d, n) <= p) && (d < k ==> p < Edge(d + 1, n))
  {
    if k > 0 {
      DigitizeSeparates(p, n, k - 1);
      var d := Digitize(p, n, k - 1);
      if Edge(k, n) <= p && d < k - 1 {
        EdgesRise(d + 1, k, n);
        assert false;
      }
    }
  }

  lemma OuterEdges(n: nat)
    requires n >= 1
    ensures Edge(0, n) == 0.0 && Edge(n, n) == 1.0
  {
  }

  /** The inner edges cut the unit interval into equal parts. */
  lemma EdgesAreEven(b: nat, n: nat)
    requires n >= 1
    ensures (Edge(b + 1, n) - Edge(b, n)) * n as real == 1.0
  {
    assert Edge(b + 1, n) * n as real == (b + 1) as real;
    assert Edge(b, n) * n as real == b as real;
  }

  /** Every probability lies inside the edges of its bin; the last bin includes 1. */
  lemma BinHoldsProbability(p: real, n: nat)
    requires n >= 1 && 0.0 <= p <= 1.0
    ensures
      var b := BinOf(p, n);
      Edge(b, n) <= p && if b < n - 1 then p < Edge(b + 1, n) else p <= Edge(b + 1, n)
  {
    DigitizeSeparates(p, n, n - 1);
    OuterEdges(n);
  }

  // ----- Weighted terms

  function Label(s: Sample): real {
    if s.positive then 1.0 else 0.0
  }

  function Weight(): Sample -> real {
    (s: Sample) => s.w
  }

  function Predicted(): Sample -> real {
    (s: Sample) => s.p * s.w
  }

  function Observed(): Sample -> real {
    (s: Sample) => Label(s) * s.w
  }

  function Signed(): Sample -> real {
    (s: Sample) => (s.p - Label(s)) * s.w
  }

  function Absolute(): Sample -> real {
    (s: Sample) => Abs(s.p - Label(s)) * s.w
  }

  /** The term `f` on the rows of bin `b` only. */
  function Within(n: nat, b: nat, f: Sample -> real): Sample -> real
    requires n >= 1
  {
    (s: Sample) => if BinOf(s.p, n) == b then f(s) else 0.0
  }

  function CountIn(rows: seq<Sample>, n: nat, b: nat): nat
    requires n >= 1
  {
    if rows == [] then 0
    else CountIn(rows[..|rows| - 1], n, b) + if BinOf(rows[|rows| - 1].p, n) == b then 1 else 0
  }

  datatype Bin = Bin(lower: real, upper: real, count: nat, weight: real,
                     meanPredicted: Option<real>, observedRate: Option<real>, absGap: Option<real>, lowCount: bool)

  function BinWeight(rows: seq<Sample>, n: nat, b: nat): real
    requires n >= 1
  {
    Sum(rows, Within(n, b, Weight()))
  }

  /** Valid probabilities and weights, and no occupied bin of weight zero: there the
      source divides by zero. */
  predicate ValidRows(rows: seq<Sample>, n: nat) {
    && rows != [] && n >= 1
    && (forall i :: 0 <= i < |rows| ==> 0.0 <= rows[i].p <= 1.0 && rows[i].w >= 0.0)
    && (forall b :: 0 <= b < n && CountIn(rows, n, b) > 0 ==> BinWeight(rows, n, b) > 0.0)
  }

  function BinAt(rows: seq<Sample>, n: nat, minCount: nat, b: nat): Bin
    requires ValidRows(rows, n) && b < n
  {
    var count, weight := CountIn(rows, n, b), BinWeight(rows, n, b);
    if count == 0 then Bin(Edge(b, n), Edge(b + 1, n), 0, weight, None, None, None, count < minCount)
    else
      var mean := Sum(rows, Within(n, b, Predicted())) / weight;
      var rate := Sum(rows, Within(n, b, Observed())) / weight;
      Bin(Edge(b, n), Edge(b + 1, n), count, weight, Some(mean), Some(rate), Some(Abs(rate - mean)), count < minCount)
  }

  /** `rows[idx == b]` */
  function Mask(rows: seq<Sample>, n: nat, b: nat): seq<Sample>
    requires n >= 1
  {
    if rows == [] then []
    else
      var s := rows[|rows| - 1];
      Mask(rows[..|rows| - 1], n, b) + if BinOf(s.p, n) == b then [s] else []
  }

  lemma {:induction false} MaskedSum(rows: seq<Sample>, n: nat, b: nat, f: Sample -> real)
    requires n >= 1
    ensures Sum(Mask(rows, n, b), f) == Sum(rows, Within(n, b, f))
    ensures |Mask(rows, n, b)| == CountIn(rows, n, b)
  {
    if rows != [] {
      var k := |rows| - 1;
      MaskedSum(rows[..k], n, b, f);
      var m := Mask(rows[..k], n, b);
      assert (m + [rows[k]])[..|m|] == m && m + [] == m;
    }
  }

  /** `bin` is the row of the samples `m` of bin `b`: their number and weight, and, if there
      are any, their weighted means and the gap between these. */
  predicate Describes(bin: Bin, m: seq<Sample>, n: nat, minCount: nat, b: nat)
    requires n >= 1
  {
    var weight := Sum(m, Weight());
    && bin.lower == Edge(b, n) && bin.upper == Edge(b + 1, n)
    && bin.count == |m| && bin.weight == weight && (bin.lowCount <==> |m| < minCount)
    && if m == [] then bin.meanPredicted.None? && bin.observedRate.None? && bin.absGap.None?
       else
         && weight > 0.0 && bin.meanPredicted == Some(Sum(m, Predicted()) / weight)
         && bin.observedRate == Some(Sum(m, Observed()) / weight)
         && bin.absGap == Some(Abs(bin.observedRate.value - bin.meanPredicted.value))
  }

  lemma BinAtDescribes(rows: seq<Sample>, n: nat, minCount: nat, b: nat)
    requires ValidRows(rows, n) && b < n
    ensures Describes(BinAt(rows, n, minCount, b), Mask(rows, n, b), n, minCount, b)
  {
    MaskedSum(rows, n, b, Weight());
    MaskedSum(rows, n, b, Predicted());
    MaskedSum(rows, n, b, Observed());
  }

  lemma BinsAreDescribed(rows: seq<Sample>, n: nat, minCount: nat)
    requires ValidRows(rows, n)
    ensures
      var bins := BinsUpTo(rows, n, minCount, n);
      |bins| == n && forall b :: 0 <= b < n ==> Describes(bins[b], Mask(rows, n, b), n, minCount, b)
  {
    var bins := BinsUpTo(rows, n, minCount, n);
    forall b | 0 <= b < n ensures Describes(bins[b], Mask(rows, n, b), n, minCount, b) {
      BinAtDescribes(rows, n, minCount, b);
      assert bins[b] == BinAt(rows, n, minCount, b);
    }
  }

  /** One row a bin, in order, from the samples of that bin. */
  method CalibrationBins(rows: seq<Sample>, n: nat, minCount: nat) returns (bins: seq<Bin>)
    requires ValidRows(rows, n)
    ensures |bins| == n && forall b :: 0 <= b < n ==> Describes(bins[b], Mask(rows, n, b), n, minCount, b)
    ensures bins == BinsUpTo(rows, n, minCount, n)
  {
    bins := [];
    for b := 0 to n
      invariant bins == BinsUpTo(rows, n, minCount, b)
    {
      bins := bins + [BinAt(rows, n, minCount, b)];
    }
    BinsAreDescribed(rows, n, minCount);
  }

  function BinsUpTo(rows: seq<Sample>, n: nat, minCount: nat, k: nat): (bins: seq<Bin>)
    requires ValidRows(rows, n) && k <= n
    ensures |bins| == k && forall b :: 0 <= b < k ==> bins[b] == BinAt(rows, n, minCount, b)
  {
    if k == 0 then [] else BinsUpTo(rows, n, minCount, k - 1) + [BinAt(rows, n, minCount, k - 1)]
  }

  // ----- Errors

  function Total(rows: seq<Sample>): real {
    Sum(rows, Weight())
  }

  function ExpectedError(bins: seq<Bin>, total: real): real
    requires total != 0.0
  {
    if bins == [] then 0.0
    else
      var b := bins[|bins| - 1];
      ExpectedError(bins[..|bins| - 1], total)
      + if b.absGap.Some? then b.weight / total * b.absGap.value else 0.0
  }

  function MaximumError(bins: seq<Bin>): Option<real> {
    if bins == [] then None
    else
      var rest := MaximumError(bins[..|bins| - 1]);
      var gap := bins[|bins| - 1].absGap;
      if gap.Some? && (rest.None? || rest.value < gap.value) then gap else rest
  }

  function MeanAbsoluteError(rows: seq<Sample>): real
    requires Total(rows) != 0.0
  {
    Sum(rows, Absolute()) / Total(rows)
  }

  function MeanError(rows: seq<Sample>): real
    requires Total(rows) != 0.0
  {
    Sum(rows, Signed()) / Total(rows)
  }

  // ----- The bins partition every sum

  function OverBins(rows: seq<Sample>, n: nat, k: nat, f: Sample -> real): real
    requires n >= 1
  {
    if k == 0 then 0.0 else OverBins(rows, n, k - 1, f) + Sum(rows, Within(n, k - 1, f))
  }

  lemma {:induction false} OverBinsSnoc(rows: seq<Sample>, n: nat, k: nat, f: Sample -> real)
    requires n >= 1 && rows != []
    ensures
      var s := rows[|rows| - 1];
      OverBins(rows, n, k, f) == OverBins(rows[..|rows| - 1], n, k, f) + if BinOf(s.p, n) < k then f(s) else 0.0
    decreases k
  {
    if k > 0 {
      OverBinsSnoc(rows, n, k - 1, f);
    }
  }

  lemma {:induction false} BinsPartitionSums(rows: seq<Sample>, n: nat, f: Sample -> real)
    requires n >= 1
    ensures OverBins(rows, n, n, f) == Sum(rows, f)
  {
    if rows == [] {
      NoRows(n, n, f);
    } else {
      OverBinsSnoc(rows, n, n, f);
      BinsPartitionSums(rows[..|rows| - 1], n, f);
    }
  }

  lemma {:induction false} NoRows(n: nat, k: nat, f: Sample -> real)
    requires n >= 1
    ensures OverBins([], n, k, f) == 0.0
  {
    if k > 0 {
      NoRows(n, k - 1, f);
    }
  }

  // ----- What a bin contributes

  lemma {:induction false} EmptyBin(rows: seq<Sample>, n: nat, b: nat)
    requires n >= 1 && CountIn(rows, n, b) == 0
    ensures forall i :: 0 <= i < |rows| ==> BinOf(rows[i].p, n) != b
  {
    if rows != [] {
      EmptyBin(rows[..|rows| - 1], n, b);
    }
  }

  lemma SignedIsDifference(s: Sample)
    ensures Predicted()(s) - Observed()(s) == Signed()(s)
    ensures s.w >= 0.0 ==> Abs(Signed()(s)) == Absolute()(s)
  {
    TimesDifference(s.p, Label(s), s.w);
    AbsoluteTimes(s.p - Label(s), s.w);
  }

  lemma TimesDifference(x: real, y: real, w: real)
    ensures x * w - y * w == (x - y) * w
  {
  }

  lemma AbsoluteTimes(x: real, w: real)
    ensures w >= 0.0 ==> Abs(x * w) == Abs(x) * w
  {
    if w >= 0.0 && x < 0.0 {
      assert -x * w == -(x * w);
      NonNegativeProduct(-x, w);
    } else if w >= 0.0 {
      NonNegativeProduct(x, w);
    }
  }

  lemma BinSums(rows: seq<Sample>, n: nat, b: nat)
    requires ValidRows(rows, n) && b < n
    ensures Sum(rows, Within(n, b, Predicted())) - Sum(rows, Within(n, b, Observed()))
         == Sum(rows, Within(n, b, Signed()))
    ensures Abs(Sum(rows, Within(n, b, Signed()))) <= Sum(rows, Within(n, b, Absolute()))
    ensures BinWeight(rows, n, b) >= 0.0
    ensures CountIn(rows, n, b) == 0 ==> Sum(rows, Within(n, b, Signed())) == 0.0 && BinWeight(rows, n, b) == 0.0
  {
    forall i | 0 <= i < |rows|
      ensures Within(n, b, Predicted())(rows[i]) - Within(n, b, Observed())(rows[i]) == Within(n, b, Signed())(rows[i])
      ensures Abs(Within(n, b, Signed())(rows[i])) <= Within(n, b, Absolute())(rows[i])
    {
      SignedIsDifference(rows[i]);
    }
    SumSubtract(rows, Within(n, b, Predicted()), Within(n, b, Observed()), Within(n, b, Signed()));
    SumAbsolute(rows, Within(n, b, Signed()), Within(n, b, Absolute()));
    SumAbsolute(rows, Within(n, b, Weight()), Within(n, b, Weight()));
    if CountIn(rows, n, b) == 0 {
      EmptyBin(rows, n, b);
      SumZero(rows, Within(n, b, Signed()));
      SumZero(rows, Within(n, b, Weight()));
    }
  }

  lemma GapTimesWeight(weight: real, rate: real, mean: real)
    requires weight > 0.0
    ensures IsProduct(weight, Abs(rate / weight - mean / weight), Abs(mean - rate))
  {
    var gap := rate / weight - mean / weight;
    assert weight * gap == rate - mean;
    if gap < 0.0 {
      assert weight * -gap == mean - rate;
    }
  }

  function Gap(rows: seq<Sample>, n: nat, b: nat): real
    requires n >= 1
  {
    Abs(Sum(rows, Within(n, b, Signed())))
  }

  /** A bin's share of the expected error is its signed error, weighted and rectified. */
  lemma BinContribution(rows: seq<Sample>, n: nat, minCount: nat, b: nat)
    requires ValidRows(rows, n) && b < n
    ensures
      var bin := BinAt(rows, n, minCount, b);
      && (bin.absGap.Some? ==> bin.weight > 0.0 && IsProduct(bin.weight, bin.absGap.value, Gap(rows, n, b)))
      && (bin.absGap.None? ==> Gap(rows, n, b) == 0.0 && bin.weight == 0.0)
  {
    GapIsDifference(rows, n, b);
    if CountIn(rows, n, b) > 0 {
      GapTimesWeight(BinWeight(rows, n, b), Sum(rows, Within(n, b, Observed())), Sum(rows, Within(n, b, Predicted())));
    }
  }

  lemma GapIsDifference(rows: seq<Sample>, n: nat, b: nat)
    requires ValidRows(rows, n) && b < n
    ensures Gap(rows, n, b) == Abs(Sum(rows, Within(n, b, Predicted())) - Sum(rows, Within(n, b, Observed())))
    ensures CountIn(rows, n, b) == 0 ==> Gap(rows, n, b) == 0.0 && BinWeight(rows, n, b) == 0.0
  {
    BinSums(rows, n, b);
  }

  function Gaps(rows: seq<Sample>, n: nat, k: nat): real
    requires n >= 1
  {
    if k == 0 then 0.0 else Gaps(rows, n, k - 1) + Gap(rows, n, k - 1)
  }

  lemma ShareOfTotal(sum: real, weight: real, total: real, gap: real)
    requires total > 0.0
    ensures (sum + weight / total * gap) * total == sum * total + weight * gap
  {
    assert weight / total * gap * total == weight * gap;
  }

  function WeightedGap(bin: Bin): real {
    if bin.absGap.Some? then bin.weight * bin.absGap.value else 0.0
  }

  function WeightedGaps(bins: seq<Bin>): real {
    if bins == [] then 0.0 else WeightedGaps(bins[..|bins| - 1]) + WeightedGap(bins[|bins| - 1])
  }

  lemma {:induction false} ExpectedErrorTimesTotal(bins: seq<Bin>, total: real)
    requires total > 0.0
    ensures IsProduct(ExpectedError(bins, total), total, WeightedGaps(bins))
  {
    if bins != [] {
      var n := |bins| - 1;
      ExpectedErrorTimesTotal(bins[..n], total);
      if bins[n].absGap.Some? {
        ShareOfTotal(ExpectedError(bins[..n], total), bins[n].weight, total, bins[n].absGap.value);
      }
    }
  }

  lemma BinWeightedGap(rows: seq<Sample>, n: nat, minCount: nat, b: nat)
    requires ValidRows(rows, n) && b < n
    ensures WeightedGap(BinAt(rows, n, minCount, b)) == Gap(rows, n, b)
  {
    BinContribution(rows, n, minCount, b);
  }

  lemma {:induction false} EqualGapsAddUp(rows: seq<Sample>, n: nat, bins: seq<Bin>)
    requires n >= 1 && forall b :: 0 <= b < |bins| ==> WeightedGap(bins[b]) == Gap(rows, n, b)
    ensures WeightedGaps(bins) == Gaps(rows, n, |bins|)
  {
    if bins != [] {
      EqualGapsAddUp(rows, n, bins[..|bins| - 1]);
    }
  }

  lemma WeightedGapsAreGaps(rows: seq<Sample>, n: nat, minCount: nat)
    requires ValidRows(rows, n)
    ensures WeightedGaps(BinsUpTo(rows, n, minCount, n)) == Gaps(rows, n, n)
  {
    var bins := BinsUpTo(rows, n, minCount, n);
    forall b | 0 <= b < n ensures WeightedGap(bins[b]) == Gap(rows, n, b) {
      BinWeightedGap(rows, n, minCount, b);
      assert bins[b] == BinAt(rows, n, minCount, b);
    }
    EqualGapsAddUp(rows, n, bins);
  }

  lemma {:induction false} GapsBetween(rows: seq<Sample>, n: nat, k: nat)
    requires ValidRows(rows, n) && k <= n
    ensures Abs(OverBins(rows, n, k, Signed())) <= Gaps(rows, n, k) <= OverBins(rows, n, k, Absolute())
    decreases k
  {
    if k > 0 {
      GapsBetween(rows, n, k - 1);
      BinSums(rows, n, k - 1);
    }
  }

  lemma {:induction false} MaximumErrorIsLargest(bins: seq<Bin>, b: nat)
    requires b < |bins| && bins[b].absGap.Some?
    ensures MaximumError(bins).Some? && bins[b].absGap.value <= MaximumError(bins).value
  {
    if b < |bins| - 1 {
      MaximumErrorIsLargest(bins[..|bins| - 1], b);
    }
  }

  lemma {:induction false} MaximumErrorIsAGap(bins: seq<Bin>) returns (b: nat)
    ensures MaximumError(bins).Some? ==> b < |bins| && bins[b].absGap == MaximumError(bins)
  {
    b := 0;
    if bins != [] {
      if MaximumError(bins) == bins[|bins| - 1].absGap {
        b := |bins| - 1;
      } else {
        b := MaximumErrorIsAGap(bins[..|bins| - 1]);
      }
    }
  }

  /** The maximum error is the greatest gap of a bin, and undefined iff no bin has one. */
  lemma MaximumErrorIsGreatestGap(bins: seq<Bin>)
    ensures MaximumError(bins).None? <==> forall b :: 0 <= b < |bins| ==> bins[b].absGap.None?
    ensures MaximumError(bins).Some? ==>
      && (exists b :: 0 <= b < |bins| && bins[b].absGap == MaximumError(bins))
      && forall b :: 0 <= b < |bins| && bins[b].absGap.Some? ==> bins[b].absGap.value <= MaximumError(bins).value
  {
    var b := MaximumErrorIsAGap(bins);
    forall b | 0 <= b < |bins| && bins[b].absGap.Some?
      ensures MaximumError(bins).Some? && bins[b].absGap.value <= MaximumError(bins).value
    {
      MaximumErrorIsLargest(bins, b);
    }
  }

  /** The weight of the positive samples. */
  function PositiveWeight(): Sample -> real {
    (s: Sample) => if s.positive then s.w else 0.0
  }

  /** How far the prediction is from the label, by the label. */
  function Miss(): Sample -> real {
    (s: Sample) => (if s.positive then 1.0 - s.p else s.p) * s.w
  }

  /** What the sums mean: the observed sum is the weight of the positives, the signed sum the
      excess of the predictions over it, and the absolute sum adds up the misses. */
  lemma SumsMean(rows: seq<Sample>)
    requires forall i :: 0 <= i < |rows| ==> 0.0 <= rows[i].p <= 1.0
    ensures Sum(rows, Observed()) == Sum(rows, PositiveWeight())
    ensures Sum(rows, Signed()) == Sum(rows, Predicted()) - Sum(rows, PositiveWeight())
    ensures Sum(rows, Absolute()) == Sum(rows, Miss())
  {
    forall i | 0 <= i < |rows|
      ensures Observed()(rows[i]) == PositiveWeight()(rows[i]) && Absolute()(rows[i]) == Miss()(rows[i])
      ensures Predicted()(rows[i]) - Observed()(rows[i]) == Signed()(rows[i])
    {
      SignedIsDifference(rows[i]);
    }
    SameSums(rows, Observed(), PositiveWeight());
    SameSums(rows, Absolute(), Miss());
    SumSubtract(rows, Predicted(), Observed(), Signed());
  }

  lemma {:induction false} SameSums(rows: seq<Sample>, f: Sample -> real, g: Sample -> real)
    requires forall i :: 0 <= i < |rows| ==> f(rows[i]) == g(rows[i])
    ensures Sum(rows, f) == Sum(rows, g)
  {
    if rows != [] {
      SameSums(rows[..|rows| - 1], f, g);
    }
  }

  /** The expected error, times the weight of all samples, adds up the rectified signed errors
      of the bins. */
  lemma ExpectedErrorAddsUpBins(rows: seq<Sample>, n: nat, minCount: nat)
    requires ValidRows(rows, n)
    ensures Total(rows) > 0.0
    ensures IsProduct(ExpectedError(BinsUpTo(rows, n, minCount, n), Total(rows)), Total(rows), Gaps(rows, n, n))
  {
    var filled := SomeBinIsFilled(rows, n);
    ExpectedErrorTimesTotal(BinsUpTo(rows, n, minCount, n), Total(rows));
    WeightedGapsAreGaps(rows, n, minCount);
  }

  predicate GapWithin(rows: seq<Sample>, n: nat, b: nat, largest: real)
    requires n >= 1
  {
    Gap(rows, n, b) <= largest * BinWeight(rows, n, b)
  }

  lemma GapWithinLargest(rows: seq<Sample>, n: nat, minCount: nat, b: nat, largest: real)
    requires ValidRows(rows, n) && b < n
    requires
      var gap := BinAt(rows, n, minCount, b).absGap;
      gap.Some? ==> gap.value <= largest
    ensures GapWithin(rows, n, b, largest)
  {
    var bin := BinAt(rows, n, minCount, b);
    BinContribution(rows, n, minCount, b);
    if bin.absGap.Some? {
      ScaledGap(bin.weight, bin.absGap.value, largest);
    }
  }

  lemma ScaledGap(weight: real, gap: real, largest: real)
    requires weight >= 0.0 && gap <= largest
    ensures weight * gap <= largest * weight
  {
  }

  lemma Distribute(x: real, y: real, z: real)
    ensures x * (y + z) == x * y + x * z
  {
  }

  lemma {:induction false} GapsAtMostLargest(rows: seq<Sample>, n: nat, k: nat, largest: real)
    requires 1 <= n && k <= n
    requires forall b :: 0 <= b < n ==> GapWithin(rows, n, b, largest)
    ensures Gaps(rows, n, k) <= largest * OverBins(rows, n, k, Weight())
    decreases k
  {
    if k > 0 {
      GapsAtMostLargest(rows, n, k - 1, largest);
      assert GapWithin(rows, n, k - 1, largest);
      Distribute(largest, OverBins(rows, n, k - 1, Weight()), BinWeight(rows, n, k - 1));
    }
  }

  lemma SomeBinIsFilled(rows: seq<Sample>, n: nat) returns (b: nat)
    requires ValidRows(rows, n)
    ensures b < n && CountIn(rows, n, b) > 0 && Total(rows) > 0.0
  {
    b := BinOf(rows[|rows| - 1].p, n);
    forall i | 0 <= i < |rows| ensures Within(n, b, Weight())(rows[i]) <= Weight()(rows[i]) {
    }
    SumAtMost(rows, Within(n, b, Weight()), Weight());
  }

  lemma Quotients(ece: real, total: real, gaps: real, signed: real, absolute: real)
    requires total > 0.0 && IsProduct(ece, total, gaps) && Abs(signed) <= gaps <= absolute
    ensures Abs(signed / total) <= ece <= absolute / total
  {
    assert (signed / total) * total == signed && (absolute / total) * total == absolute;
  }

  lemma LargestQuotient(ece: real, total: real, gaps: real, largest: real)
    requires total > 0.0 && IsProduct(ece, total, gaps) && gaps <= largest * total
    ensures ece <= largest
  {
  }

  lemma GapsBetweenSums(rows: seq<Sample>, n: nat, minCount: nat)
    requires ValidRows(rows, n)
    ensures Abs(Sum(rows, Signed())) <= WeightedGaps(BinsUpTo(rows, n, minCount, n)) <= Sum(rows, Absolute())
  {
    WeightedGapsAreGaps(rows, n, minCount);
    GapsBetween(rows, n, n);
    BinsPartitionSums(rows, n, Signed());
    BinsPartitionSums(rows, n, Absolute());
  }

  lemma ErrorBetweenMeans(rows: seq<Sample>, n: nat, minCount: nat)
    requires ValidRows(rows, n) && Total(rows) > 0.0
    ensures
      var ece := ExpectedError(BinsUpTo(rows, n, minCount, n), Total(rows));
      Abs(MeanError(rows)) <= ece <= MeanAbsoluteError(rows)
  {
    var bins := BinsUpTo(rows, n, minCount, n);
    GapsBetweenSums(rows, n, minCount);
    ExpectedErrorTimesTotal(bins, Total(rows));
    Quotients(
      ExpectedError(bins, Total(rows)), Total(rows), WeightedGaps(bins), Sum(rows, Signed()), Sum(rows, Absolute()));
  }

  lemma EveryGapWithinMaximum(rows: seq<Sample>, n: nat, minCount: nat, b: nat, largest: real)
    requires ValidRows(rows, n) && b < n && MaximumError(BinsUpTo(rows, n, minCount, n)) == Some(largest)
    ensures GapWithin(rows, n, b, largest)
  {
    if BinAt(rows, n, minCount, b).absGap.Some? {
      MaximumErrorIsLargest(BinsUpTo(rows, n, minCount, n), b);
    }
    GapWithinLargest(rows, n, minCount, b, largest);
  }

  lemma GapsAtMostTotal(rows: seq<Sample>, n: nat, largest: real)
    requires n >= 1 && forall b :: 0 <= b < n ==> GapWithin(rows, n, b, largest)
    ensures Gaps(rows, n, n) <= largest * Total(rows)
  {
    GapsAtMostLargest(rows, n, n, largest);
    BinsPartitionSums(rows, n, Weight());
  }

  lemma ErrorAtMostLargest(bins: seq<Bin>, total: real, largest: real)
    requires total > 0.0 && WeightedGaps(bins) <= largest * total
    ensures ExpectedError(bins, total) <= largest
  {
    ExpectedErrorTimesTotal(bins, total);
    LargestQuotient(ExpectedError(bins, total), total, WeightedGaps(bins), largest);
  }

  lemma GapsBoundTheError(rows: seq<Sample>, n: nat, minCount: nat, largest: real)
    requires ValidRows(rows, n) && Total(rows) > 0.0
    requires forall b :: 0 <= b < n ==> GapWithin(rows, n, b, largest)
    ensures ExpectedError(BinsUpTo(rows, n, minCount, n), Total(rows)) <= largest
  {
    GapsAtMostTotal(rows, n, largest);
    WeightedGapsAreGaps(rows, n, minCount);
    ErrorAtMostLargest(BinsUpTo(rows, n, minCount, n), Total(rows), largest);
  }

  lemma ErrorAtMostMaximum(rows: seq<Sample>, n: nat, minCount: nat, largest: real)
    requires ValidRows(rows, n) && Total(rows) > 0.0
    requires MaximumError(BinsUpTo(rows, n, minCount, n)) == Some(largest)
    ensures ExpectedError(BinsUpTo(rows, n, minCount, n), Total(rows)) <= largest
  {
    forall b | 0 <= b < n ensures GapWithin(rows, n, b, largest) {
      EveryGapWithinMaximum(rows, n, minCount, b, largest);
    }
    GapsBoundTheError(rows, n, minCount, largest);
  }

  /** |mean error| <= ECE <= MAE and ECE <= MCE, for every valid input and any number
      of bins. */
  lemma CalibrationChain(rows: seq<Sample>, n: nat, minCount: nat)
    requires ValidRows(rows, n)
    ensures Total(rows) > 0.0
    ensures
      var bins := BinsUpTo(rows, n, minCount, n);
      var ece := ExpectedError(bins, Total(rows));
      && Abs(MeanError(rows)) <= ece <= MeanAbsoluteError(rows)
      && MaximumError(bins).Some? && ece <= MaximumError(bins).value
  {
    var filled := SomeBinIsFilled(rows, n);
    ErrorBetweenMeans(rows, n, minCount);
    MaximumErrorIsLargest(BinsUpTo(rows, n, minCount, n), filled);
    ErrorAtMostMaximum(rows, n, minCount, MaximumError(BinsUpTo(rows, n, minCount, n)).value);
  }
}
