/** `_weighted_median` (evaluation/metrics.py). */
module WeightedMedian {
  import opened Sorting
  import opened RealSums

  datatype Point = Point(x: real, w: real)

  predicate PointLeq(a: Point, b: Point) {
    a.x <= b.x
  }

  function Weight(): Point -> real {
    (p: Point) => p.w
  }

  function BelowWeight(m: real): Point -> real {
    (p: Point) => if p.x < m then p.w else 0.0
  }

  function AboveWeight(m: real): Point -> real {
    (p: Point) => if p.x > m then p.w else 0.0
  }

  function Deviation(c: real): Point -> real {
    (p: Point) => p.w * Abs(p.x - c)
  }

  predicate NonNegativeWeights(s: seq<Point>) {
    forall i :: 0 <= i < |s| ==> s[i].w >= 0.0
  }

  /** What `validate_inputs` lets through. */
  predicate ValidSample(s: seq<Point>) {
    s != [] && NonNegativeWeights(s) && Sum(s, Weight()) > 0.0
  }

  function SortedPoints(s: seq<Point>): (r: seq<Point>)
    ensures Sorted(r, PointLeq) && multiset(r) == multiset(s) && |r| == |s|
  {
    Sort(s, PointLeq)
  }

  /** `np.median` of the values. */
  function PlainMedian(sorted: seq<Point>): real
    requires sorted != []
  {
    var n := |sorted|;
    if n % 2 == 1 then sorted[n / 2].x else (sorted[n / 2 - 1].x + sorted[n / 2].x) / 2.0
  }

  /** Entry `j - 1` of `np.cumsum`: the weight of the first `j` points. */
  function Running(sorted: seq<Point>, j: nat): real
    requires j <= |sorted|
  {
    Sum(sorted[..j], Weight())
  }

  /** `np.searchsorted(cw, half)`: the first position whose running weight reaches `half`. */
  function FirstReaching(sorted: seq<Point>, half: real, i: nat): (r: nat)
    requires i <= |sorted|
    ensures i <= r <= |sorted|
    ensures forall j :: i < j <= r ==> Running(sorted, j) < half
    ensures r < |sorted| ==> Running(sorted, r + 1) >= half
    decreases |sorted| - i
  {
    if i == |sorted| || Running(sorted, i + 1) >= half then i else FirstReaching(sorted, half, i + 1)
  }

  predicate EquallyWeighted(s: seq<Point>) {
    forall i :: 0 <= i < |s| ==> s[i].w == s[0].w
  }

  function Median(s: seq<Point>): real
    requires ValidSample(s)
  {
    var sorted := SortedPoints(s);
    if EquallyWeighted(s) then PlainMedian(sorted)
    else
      var i := FirstReaching(sorted, 0.5 * Sum(sorted, Weight()), 0);
      HalfIsReached(s);
      sorted[i].x
  }

  lemma HalfIsReached(s: seq<Point>)
    requires ValidSample(s)
    ensures
      var sorted := SortedPoints(s);
      FirstReaching(sorted, 0.5 * Sum(sorted, Weight()), 0) < |s|
  {
    var sorted := SortedPoints(s);
    SumPermuted(sorted, s, Weight());
    assert sorted[..|sorted|] == sorted;
    assert Running(sorted, |sorted|) == Sum(sorted, Weight());
  }

  // ----- A median splits the weight

  predicate Halves(s: seq<Point>, m: real) {
    && 2.0 * Sum(s, BelowWeight(m)) <= Sum(s, Weight())
    && 2.0 * Sum(s, AboveWeight(m)) <= Sum(s, Weight())
  }

  lemma {:induction false} SideWeights(s: seq<Point>, m: real)
    requires NonNegativeWeights(s)
    ensures 0.0 <= Sum(s, BelowWeight(m)) <= Sum(s, Weight())
    ensures 0.0 <= Sum(s, AboveWeight(m)) <= Sum(s, Weight())
    ensures (forall i :: 0 <= i < |s| ==> s[i].x >= m) ==> Sum(s, BelowWeight(m)) == 0.0
    ensures (forall i :: 0 <= i < |s| ==> s[i].x <= m) ==> Sum(s, AboveWeight(m)) == 0.0
  {
    if s != [] {
      SideWeights(s[..|s| - 1], m);
    }
  }

  /** The values below `m` weigh at most the first `j` points, if `m` is at most all
      later ones; and the values above it at most the rest, if it is at least all
      earlier ones. */
  lemma CutWeights(s: seq<Point>, j: nat, m: real)
    requires j <= |s| && NonNegativeWeights(s)
    ensures (forall i :: j <= i < |s| ==> s[i].x >= m) ==> Sum(s, BelowWeight(m)) <= Sum(s[..j], Weight())
    ensures (forall i :: 0 <= i < j ==> s[i].x <= m) ==>
      Sum(s, AboveWeight(m)) <= Sum(s, Weight()) - Sum(s[..j], Weight())
  {
    assert s == s[..j] + s[j..];
    SumConcat(s[..j], s[j..], BelowWeight(m));
    SumConcat(s[..j], s[j..], AboveWeight(m));
    SumConcat(s[..j], s[j..], Weight());
    SideWeights(s[..j], m);
    SideWeights(s[j..], m);
  }

  /** `n` equal weights. */
  function Repeat(n: nat, w: real): real {
    if n == 0 then 0.0 else Repeat(n - 1, w) + w
  }

  lemma {:induction false} EqualWeights(s: seq<Point>, w: real)
    requires forall i :: 0 <= i < |s| ==> s[i].w == w
    ensures Sum(s, Weight()) == Repeat(|s|, w)
  {
    if s != [] {
      EqualWeights(s[..|s| - 1], w);
    }
  }

  lemma {:induction false} RepeatZero(n: nat)
    ensures Repeat(n, 0.0) == 0.0
  {
    if n > 0 {
      RepeatZero(n - 1);
    }
  }

  lemma {:induction false} RepeatAdds(a: nat, b: nat, w: real)
    requires w > 0.0
    ensures Repeat(a + b, w) == Repeat(a, w) + Repeat(b, w) && Repeat(b, w) >= 0.0
  {
    if b > 0 {
      RepeatAdds(a, b - 1, w);
    }
  }

  lemma RepeatTwice(n: nat, w: real)
    requires w > 0.0
    ensures Repeat(2 * n, w) == Repeat(n, w) + Repeat(n, w)
  {
    RepeatAdds(n, n, w);
  }

  lemma {:induction false} CutsOfEqualWeights(low: nat, high: nat, n: nat, w: real)
    requires 2 * low <= n <= 2 * high && w > 0.0
    ensures Repeat(low, w) + Repeat(low, w) <= Repeat(n, w) <= Repeat(high, w) + Repeat(high, w)
  {
    RepeatTwice(low, w);
    RepeatAdds(2 * low, n - 2 * low, w);
    RepeatTwice(high, w);
    RepeatAdds(n, 2 * high - n, w);
  }

  /** A cut after `low` points from below and after `high` points from above halves
      equal weights. */
  lemma EqualCutsHalve(s: seq<Point>, low: nat, high: nat, m: real, w: real)
    requires low <= |s| && high <= |s| && 2 * low <= |s| <= 2 * high && w > 0.0
    requires forall i :: 0 <= i < |s| ==> s[i].w == w
    requires forall i :: low <= i < |s| ==> s[i].x >= m
    requires forall i :: 0 <= i < high ==> s[i].x <= m
    ensures Halves(s, m)
  {
    CutWeights(s, low, m);
    CutWeights(s, high, m);
    EqualWeights(s, w);
    EqualWeights(s[..low], w);
    EqualWeights(s[..high], w);
    CutsOfEqualWeights(low, high, |s|, w);
  }

  lemma MiddleIsBetween(sorted: seq<Point>, low: nat, high: nat)
    requires sorted != [] && Sorted(sorted, PointLeq)
    requires low == |sorted| / 2 && high == |sorted| - |sorted| / 2
    ensures forall i :: low <= i < |sorted| ==> sorted[i].x >= PlainMedian(sorted)
    ensures forall i :: 0 <= i < high ==> sorted[i].x <= PlainMedian(sorted)
  {
  }

  lemma PlainMedianHalves(sorted: seq<Point>, w: real)
    requires sorted != [] && Sorted(sorted, PointLeq) && w > 0.0
    requires forall i :: 0 <= i < |sorted| ==> sorted[i].w == w
    ensures Halves(sorted, PlainMedian(sorted))
  {
    var low, high := |sorted| / 2, |sorted| - |sorted| / 2;
    MiddleIsBetween(sorted, low, high);
    EqualCutsHalve(sorted, low, high, PlainMedian(sorted), w);
  }

  lemma WeightedMedianHalves(sorted: seq<Point>, i: nat)
    requires Sorted(sorted, PointLeq) && i < |sorted|
    requires NonNegativeWeights(sorted)
    requires Running(sorted, i + 1) >= 0.5 * Sum(sorted, Weight()) && Sum(sorted, Weight()) > 0.0
    requires i > 0 ==> Running(sorted, i) < 0.5 * Sum(sorted, Weight())
    ensures Halves(sorted, sorted[i].x)
  {
    var m := sorted[i].x;
    AroundIsOrdered(sorted, i);
    CutWeights(sorted, i, m);
    CutWeights(sorted, i + 1, m);
  }

  lemma AroundIsOrdered(sorted: seq<Point>, i: nat)
    requires Sorted(sorted, PointLeq) && i < |sorted|
    ensures forall k :: 0 <= k <= i ==> sorted[k].x <= sorted[i].x
    ensures forall k :: i <= k < |sorted| ==> sorted[i].x <= sorted[k].x
  {
  }

  lemma SortedSample(s: seq<Point>)
    requires ValidSample(s)
    ensures
      var sorted := SortedPoints(s);
      && Sum(sorted, Weight()) == Sum(s, Weight())
      && NonNegativeWeights(sorted)
      && (EquallyWeighted(s) ==> s[0].w > 0.0 && forall i :: 0 <= i < |sorted| ==> sorted[i].w == s[0].w)
  {
    var sorted := SortedPoints(s);
    forall i | 0 <= i < |sorted| ensures sorted[i] in s {
      assert sorted[i] in multiset(sorted);
    }
    SumPermuted(sorted, s, Weight());
    if EquallyWeighted(s) && s[0].w == 0.0 {
      EqualWeights(s, 0.0);
      RepeatZero(|s|);
    }
  }

  // ----- Which of the medians it is

  /** The weight of the values up to `m`. */
  function UpTo(m: real): Point -> real {
    (p: Point) => if p.x <= m then p.w else 0.0
  }

  /** With equal weights the result is half way between the two middle values, which are one
      for an odd number of values. */
  lemma EqualWeightsGiveTheMidpoint(s: seq<Point>)
    requires ValidSample(s) && EquallyWeighted(s)
    ensures
      var sorted := SortedPoints(s);
      2.0 * Median(s) == sorted[(|s| - 1) / 2].x + sorted[|s| / 2].x
  {
  }

  lemma {:induction false} UpToPrefix(sorted: seq<Point>, j: nat, m: real)
    requires j <= |sorted| && NonNegativeWeights(sorted)
    ensures (forall i :: 0 <= i < j ==> sorted[i].x <= m) ==> Running(sorted, j) <= Sum(sorted, UpTo(m))
    ensures (forall i :: j <= i < |sorted| ==> sorted[i].x > m) ==> Sum(sorted, UpTo(m)) <= Running(sorted, j)
  {
    var n := |sorted|;
    if n == 0 {
      assert sorted[..j] == sorted;
    } else if j == n {
      assert sorted[..n] == sorted && sorted[..n - 1][..n - 1] == sorted[..n - 1];
      UpToPrefix(sorted[..n - 1], n - 1, m);
    } else {
      assert sorted[..n - 1][..j] == sorted[..j];
      UpToPrefix(sorted[..n - 1], j, m);
    }
  }

  /** With unequal weights the result is the least value of the sample up to which lies half of
      the weight. */
  lemma UnequalWeightsGiveTheLeast(s: seq<Point>)
    requires ValidSample(s) && !EquallyWeighted(s)
    ensures exists i :: 0 <= i < |s| && s[i].x == Median(s)
    ensures 2.0 * Sum(s, UpTo(Median(s))) >= Sum(s, Weight())
    ensures forall i :: 0 <= i < |s| && s[i].x < Median(s) ==> 2.0 * Sum(s, UpTo(s[i].x)) < Sum(s, Weight())
  {
    var r := HalvingPosition(s);
    assert SortedPoints(s)[r] in multiset(SortedPoints(s)) && SortedPoints(s)[r] in s;
    ReachedIsEnough(s, SortedPoints(s), r);
    forall i | 0 <= i < |s| && s[i].x < Median(s) ensures 2.0 * Sum(s, UpTo(s[i].x)) < Sum(s, Weight()) {
      BelowIsLess(s, SortedPoints(s), r, s[i].x);
    }
  }

  /** Where the running weight first reaches half of the weight. */
  lemma HalvingPosition(s: seq<Point>) returns (r: nat)
    requires ValidSample(s) && !EquallyWeighted(s)
    ensures
      var sorted := SortedPoints(s);
      var half := 0.5 * Sum(sorted, Weight());
      && r < |sorted| && Median(s) == sorted[r].x && NonNegativeWeights(sorted) && half > 0.0
      && Running(sorted, r + 1) >= half && forall j :: 0 < j <= r ==> Running(sorted, j) < half
  {
    SortedSample(s);
    HalfIsReached(s);
    r := FirstReaching(SortedPoints(s), 0.5 * Sum(SortedPoints(s), Weight()), 0);
  }

  lemma ReachedIsEnough(s: seq<Point>, sorted: seq<Point>, r: nat)
    requires multiset(s) == multiset(sorted) && Sorted(sorted, PointLeq) && NonNegativeWeights(sorted)
    requires r < |sorted| && Running(sorted, r + 1) >= 0.5 * Sum(sorted, Weight())
    ensures 2.0 * Sum(s, UpTo(sorted[r].x)) >= Sum(s, Weight())
  {
    AroundIsOrdered(sorted, r);
    UpToPrefix(sorted, r + 1, sorted[r].x);
    SumPermuted(sorted, s, UpTo(sorted[r].x));
    SumPermuted(sorted, s, Weight());
  }

  lemma BelowIsLess(s: seq<Point>, sorted: seq<Point>, r: nat, v: real)
    requires multiset(s) == multiset(sorted) && Sorted(sorted, PointLeq) && NonNegativeWeights(sorted)
    requires r < |sorted| && v < sorted[r].x && Sum(sorted, Weight()) > 0.0
    requires forall j :: 0 < j <= r ==> Running(sorted, j) < 0.5 * Sum(sorted, Weight())
    ensures 2.0 * Sum(s, UpTo(v)) < Sum(s, Weight())
  {
    AroundIsOrdered(sorted, r);
    UpToPrefix(sorted, r, v);
    SumPermuted(sorted, s, UpTo(v));
    SumPermuted(sorted, s, Weight());
    if r == 0 {
      assert Running(sorted, 0) == 0.0;
    }
  }

  lemma WeightedHalves(s: seq<Point>)
    requires ValidSample(s) && !EquallyWeighted(s)
    ensures Halves(SortedPoints(s), Median(s))
  {
    var sorted := SortedPoints(s);
    SortedSample(s);
    HalfIsReached(s);
    WeightedMedianHalves(sorted, FirstReaching(sorted, 0.5 * Sum(sorted, Weight()), 0));
  }

  lemma SortedMedianHalves(s: seq<Point>)
    requires ValidSample(s)
    ensures Halves(SortedPoints(s), Median(s))
  {
    var sorted := SortedPoints(s);
    SortedSample(s);
    if EquallyWeighted(s) {
      PlainMedianHalves(sorted, s[0].w);
    } else {
      WeightedHalves(s);
    }
  }

  /** The result is a true weighted median: at most half of the weight lies strictly
      on either side of it. */
  lemma MedianHalves(s: seq<Point>)
    requires ValidSample(s)
    ensures Halves(s, Median(s))
  {
    var m := Median(s);
    SortedMedianHalves(s);
    SumPermuted(SortedPoints(s), s, Weight());
    SumPermuted(SortedPoints(s), s, BelowWeight(m));
    SumPermuted(SortedPoints(s), s, AboveWeight(m));
  }

  // ----- A median minimises the absolute deviation

  /** Weight counts for `m` at or below it and against `m` above it. */
  function NetWeight(m: real): Point -> real {
    (p: Point) => if p.x > m then -p.w else p.w
  }

  function ScaledNet(m: real, d: real): Point -> real {
    (p: Point) => d * NetWeight(m)(p)
  }

  lemma {:induction false} NetIsDifference(s: seq<Point>, m: real)
    ensures Sum(s, NetWeight(m)) == Sum(s, Weight()) - 2.0 * Sum(s, AboveWeight(m))
  {
    if s != [] {
      NetIsDifference(s[..|s| - 1], m);
    }
  }

  /** Moving the centre up by `d` adds d for a point at or below it and takes at most
      d for a point above it. */
  lemma PointGain(p: Point, m: real, d: real)
    requires p.w >= 0.0 && d >= 0.0
    ensures Deviation(m + d)(p) - Deviation(m)(p) >= ScaledNet(m, d)(p)
  {
    var change := Abs(p.x - (m + d)) - Abs(p.x - m);
    assert p.w * Abs(p.x - (m + d)) - p.w * Abs(p.x - m) == p.w * change;
    if p.x > m {
      assert change >= -d;
      NonNegativeProduct(p.w, change + d);
      assert p.w * (change + d) == p.w * change + p.w * d;
      assert d * NetWeight(m)(p) == d * -p.w == -(p.w * d);
    } else {
      assert change == d;
      assert d * NetWeight(m)(p) == d * p.w;
    }
  }

  lemma NetGain(s: seq<Point>, m: real, d: real)
    requires d >= 0.0 && 2.0 * Sum(s, AboveWeight(m)) <= Sum(s, Weight())
    ensures Sum(s, ScaledNet(m, d)) >= 0.0
  {
    SumScaled(s, d, NetWeight(m), ScaledNet(m, d));
    NetIsDifference(s, m);
    NonNegativeProduct(d, Sum(s, NetWeight(m)));
  }

  lemma HigherIsNoBetter(s: seq<Point>, m: real, c: real)
    requires m <= c && NonNegativeWeights(s)
    requires 2.0 * Sum(s, AboveWeight(m)) <= Sum(s, Weight())
    ensures Sum(s, Deviation(m)) <= Sum(s, Deviation(c))
  {
    var d := c - m;
    forall i | 0 <= i < |s| ensures Deviation(c)(s[i]) - Deviation(m)(s[i]) >= ScaledNet(m, d)(s[i]) {
      PointGain(s[i], m, d);
      assert m + d == c;
    }
    SumOfDifferences(s, Deviation(c), Deviation(m), ScaledNet(m, d));
    NetGain(s, m, d);
  }

  function Reflect(p: Point): Point {
    Point(-p.x, p.w)
  }

  function Mirror(s: seq<Point>): seq<Point> {
    if s == [] then [] else Mirror(s[..|s| - 1]) + [Reflect(s[|s| - 1])]
  }

  lemma {:induction false} MirrorSum(s: seq<Point>, f: Point -> real, g: Point -> real)
    requires forall p :: f(Reflect(p)) == g(p)
    ensures Sum(Mirror(s), f) == Sum(s, g)
    ensures NonNegativeWeights(s) ==> NonNegativeWeights(Mirror(s))
  {
    if s != [] {
      var n := |s| - 1;
      MirrorSum(s[..n], f, g);
      assert Mirror(s)[..|Mirror(s)| - 1] == Mirror(s[..n]);
    }
  }

  lemma MirrorDeviation(s: seq<Point>, c: real)
    ensures Sum(Mirror(s), Deviation(-c)) == Sum(s, Deviation(c))
  {
    forall p ensures Deviation(-c)(Reflect(p)) == Deviation(c)(p) {
      assert Abs(Reflect(p).x - -c) == Abs(p.x - c);
    }
    MirrorSum(s, Deviation(-c), Deviation(c));
  }

  lemma MirrorWeights(s: seq<Point>, m: real)
    requires NonNegativeWeights(s)
    ensures NonNegativeWeights(Mirror(s))
    ensures Sum(Mirror(s), Weight()) == Sum(s, Weight())
    ensures Sum(Mirror(s), AboveWeight(-m)) == Sum(s, BelowWeight(m))
  {
    MirrorSum(s, Weight(), Weight());
    MirrorSum(s, AboveWeight(-m), BelowWeight(m));
  }

  lemma MirrorIsNoBetter(s: seq<Point>, m: real, c: real)
    requires c <= m && NonNegativeWeights(s)
    requires 2.0 * Sum(s, BelowWeight(m)) <= Sum(s, Weight())
    ensures Sum(Mirror(s), Deviation(-m)) <= Sum(Mirror(s), Deviation(-c))
  {
    MirrorWeights(s, m);
    HigherIsNoBetter(Mirror(s), -m, -c);
  }

  lemma LowerIsNoBetter(s: seq<Point>, m: real, c: real)
    requires c <= m && NonNegativeWeights(s)
    requires 2.0 * Sum(s, BelowWeight(m)) <= Sum(s, Weight())
    ensures Sum(s, Deviation(m)) <= Sum(s, Deviation(c))
  {
    MirrorIsNoBetter(s, m, c);
    MirrorDeviation(s, m);
    MirrorDeviation(s, c);
  }

  lemma HalvingMinimises(s: seq<Point>, m: real, c: real)
    requires Halves(s, m) && NonNegativeWeights(s)
    ensures Sum(s, Deviation(m)) <= Sum(s, Deviation(c))
  {
    if c >= m {
      HigherIsNoBetter(s, m, c);
    } else {
      LowerIsNoBetter(s, m, c);
    }
  }

  /** Hence no other value has a smaller weighted sum of absolute deviations. */
  lemma MedianMinimisesDeviation(s: seq<Point>, c: real)
    requires ValidSample(s)
    ensures Sum(s, Deviation(Median(s))) <= Sum(s, Deviation(c))
  {
    MedianHalves(s);
    HalvingMinimises(s, Median(s), c);
  }
}
