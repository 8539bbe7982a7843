/** The chronological split `rr-split.v2`: cut-offs by sorting (pandas) and by grouped
    cumulative counts (Spark), and the split they induce (pipeline/splits.py,
    pipeline/spark_pipeline.py `exact_cutoffs`). */
module ChronoSplit {
  import opened Wrappers
  import opened Sorting

  predicate TimeLeq(a: int, b: int) {
    a <= b
  }

  const SPLIT_FRACTIONS := [0.70, 0.85]

  /** `min(floor(q * n), n - 1)`. */
  function Rank(q: real, n: nat): int {
    var k := (q * n as real).Floor;
    if k <= n - 1 then k else n - 1
  }

  function SortedTimes(ts: seq<int>): (r: seq<int>)
    ensures |r| == |ts| && multiset(r) == multiset(ts) && Sorted(r, TimeLeq)
  {
    Sort(ts, TimeLeq)
  }

  lemma RanksInRange(n: nat)
    requires n > 0
    ensures 0 <= Rank(SPLIT_FRACTIONS[0], n) <= Rank(SPLIT_FRACTIONS[1], n) < n
  {
  }

  /** `chrono_cutoffs`; `None` is the ValueError on an empty column. */
  function ChronoCutoffs(ts: seq<int>): (r: Option<(int, int)>)
    ensures r.None? <==> ts == []
  {
    if ts == [] then None
    else
      RanksInRange(|ts|);
      var sorted := SortedTimes(ts);
      Some((sorted[Rank(SPLIT_FRACTIONS[0], |ts|)], sorted[Rank(SPLIT_FRACTIONS[1], |ts|)]))
  }

  // ----- Counting

  /** How many times are below `v` (`strict`) or at most `v`. */
  function CountTimes(ts: seq<int>, v: int, strict: bool): nat {
    if ts == [] then 0
    else
      var t := ts[|ts| - 1];
      CountTimes(ts[..|ts| - 1], v, strict) + if t < v || (t == v && !strict) then 1 else 0
  }

  lemma CountSnoc(ts: seq<int>, t: int, v: int, strict: bool)
    ensures CountTimes(ts + [t], v, strict) == CountTimes(ts, v, strict) + if t < v || (t == v && !strict) then 1 else 0
  {
    assert (ts + [t])[..|ts|] == ts;
  }

  lemma {:induction false} CountRemove(ts: seq<int>, i: nat, v: int, strict: bool)
    requires i < |ts|
    ensures CountTimes(ts, v, strict)
         == CountTimes(ts[..i] + ts[i + 1..], v, strict) + if ts[i] < v || (ts[i] == v && !strict) then 1 else 0
    decreases |ts|
  {
    var n := |ts| - 1;
    if i < n {
      LastStays(ts, i);
      CountSnoc(ts[..n][..i] + ts[..n][i + 1..], ts[n], v, strict);
      CountRemove(ts[..n], i, v, strict);
    } else {
      assert ts[..i] + ts[i + 1..] == ts[..n];
    }
  }

  lemma {:induction false} CountPermuted(s: seq<int>, t: seq<int>, v: int, strict: bool)
    requires multiset(s) == multiset(t)
    ensures CountTimes(s, v, strict) == CountTimes(t, v, strict)
    decreases |s|
  {
    if s == [] {
      assert |t| == |multiset(t)| == 0;
    } else {
      var n := |s| - 1;
      assert s == s[..n] + [s[n]];
      var i := FindAndRemove(t, s[n]);
      CountRemove(t, i, v, strict);
      CountPermuted(s[..n], t[..i] + t[i + 1..], v, strict);
    }
  }

  /** Below `w` are at least as many times as up to any earlier `v`. */
  lemma {:induction false} CountOrder(ts: seq<int>, v: int, w: int)
    ensures v < w ==> CountTimes(ts, v, false) <= CountTimes(ts, w, true)
    ensures CountTimes(ts, v, true) <= CountTimes(ts, v, false) <= |ts|
    ensures v <= w ==> CountTimes(ts, v, true) <= CountTimes(ts, w, true)
  {
    if ts != [] {
      CountOrder(ts[..|ts| - 1], v, w);
    }
  }

  lemma {:induction false} SortedCounts(s: seq<int>, k: nat)
    requires Sorted(s, TimeLeq) && k < |s|
    ensures CountTimes(s, s[k], true) <= k < CountTimes(s, s[k], false)
  {
    var n := |s| - 1;
    if k < n {
      assert TimeLeq(s[k], s[n]);
      SortedCounts(s[..n], k);
    } else {
      AllCounted(s[..n], s[n]);
      CountOrder(s[..n], s[n], s[n]);
    }
  }

  lemma {:induction false} AllCounted(s: seq<int>, v: int)
    requires forall i :: 0 <= i < |s| ==> s[i] <= v
    ensures CountTimes(s, v, false) == |s|
  {
    if s != [] {
      AllCounted(s[..|s| - 1], v);
    }
  }

  /** The k-th smallest time, counted rather than sorted. */
  lemma KthSmallestByCounting(ts: seq<int>, k: nat)
    requires k < |ts|
    ensures
      var v := SortedTimes(ts)[k];
      v in ts && CountTimes(ts, v, true) <= k < CountTimes(ts, v, false)
  {
    var s := SortedTimes(ts);
    SortedCounts(s, k);
    CountPermuted(s, ts, s[k], true);
    CountPermuted(s, ts, s[k], false);
    assert s[k] in multiset(ts);
  }

  // ----- Spark

  datatype Group = Group(time: int, count: nat)

  /** `groupBy(ts_col).count()`: one row a time, in no particular order. */
  function GroupByTime(ts: seq<int>): seq<Group> {
    if ts == [] then [] else AddToGroup(GroupByTime(ts[..|ts| - 1]), ts[|ts| - 1])
  }

  function AddToGroup(groups: seq<Group>, t: int): seq<Group> {
    if groups == [] then [Group(t, 1)]
    else
      var g := groups[|groups| - 1];
      if g.time == t then groups[..|groups| - 1] + [Group(t, g.count + 1)]
      else AddToGroup(groups[..|groups| - 1], t) + [g]
  }

  /** `sum("count")` over the rows ordered by time up to the row of time `v`. */
  function CumulativeCount(groups: seq<Group>, v: int): nat {
    if groups == [] then 0
    else
      var g := groups[|groups| - 1];
      CumulativeCount(groups[..|groups| - 1], v) + if g.time <= v then g.count else 0
  }

  /** `filter(cum >= k + 1).agg(min(ts_col))`, over the rows `some` of `groups`. */
  function SmallestReaching(some: seq<Group>, groups: seq<Group>, k: int): Option<int> {
    if some == [] then None
    else
      var rest := SmallestReaching(some[..|some| - 1], groups, k);
      var v := some[|some| - 1].time;
      if CumulativeCount(groups, v) >= k + 1 && (rest.None? || v < rest.value) then Some(v) else rest
  }

  lemma {:induction false} AddToGroupCounts(groups: seq<Group>, t: int, v: int)
    ensures CumulativeCount(AddToGroup(groups, t), v) == CumulativeCount(groups, v) + if t <= v then 1 else 0
    ensures (exists g :: g in AddToGroup(groups, t) && g.time == v)
            <==> v == t || exists g :: g in groups && g.time == v
  {
    if groups != [] {
      var n := |groups| - 1;
      var g := groups[n];
      assert groups == groups[..n] + [g];
      if g.time == t {
        assert (groups[..n] + [Group(t, g.count + 1)])[..n] == groups[..n];
        assert Group(t, g.count + 1) in AddToGroup(groups, t);
      } else {
        AddToGroupCounts(groups[..n], t, v);
        var added := AddToGroup(groups[..n], t);
        assert (added + [g])[..|added|] == added;
      }
    }
  }

  /** Grouping loses no time: cumulative counts are counts, and the rows are the times. */
  lemma {:induction false} GroupsCount(ts: seq<int>, v: int)
    ensures CumulativeCount(GroupByTime(ts), v) == CountTimes(ts, v, false)
    ensures (exists g :: g in GroupByTime(ts) && g.time == v) <==> v in ts
  {
    if ts != [] {
      var n := |ts| - 1;
      assert ts == ts[..n] + [ts[n]];
      GroupsCount(ts[..n], v);
      AddToGroupCounts(GroupByTime(ts[..n]), ts[n], v);
    }
  }

  lemma {:induction false} SmallestReachingIsLeast(some: seq<Group>, groups: seq<Group>, k: int)
    ensures
      var m := SmallestReaching(some, groups, k);
      && (m.Some? ==> CumulativeCount(groups, m.value) >= k + 1 && exists g :: g in some && g.time == m.value)
      && forall g :: g in some && CumulativeCount(groups, g.time) >= k + 1 ==> m.Some? && m.value <= g.time
  {
    if some != [] {
      var n := |some| - 1;
      assert some == some[..n] + [some[n]];
      SmallestReachingIsLeast(some[..n], groups, k);
      assert some[n] in some;
    }
  }

  /** For every rank the grouped cut-off is the sorted one. */
  lemma GroupedCutoffIsKthSmallest(ts: seq<int>, k: nat)
    requires k < |ts|
    ensures SmallestReaching(GroupByTime(ts), GroupByTime(ts), k) == Some(SortedTimes(ts)[k])
  {
    var groups := GroupByTime(ts);
    var v := SortedTimes(ts)[k];
    KthSmallestByCounting(ts, k);
    GroupsCount(ts, v);
    SmallestReachingIsLeast(groups, groups, k);
    var m := SmallestReaching(groups, groups, k).value;
    GroupsCount(ts, m);
    CountOrder(ts, m, v);
  }

  /** `exact_cutoffs` computes the cut-offs of the reference rule. */
  method ExactCutoffs(ts: seq<int>) returns (cutoffs: Option<(int, int)>)
    ensures cutoffs == ChronoCutoffs(ts) && (cutoffs.None? <==> ts == [])
    ensures cutoffs.Some? ==>
      HasRank(ts, cutoffs.value.0, 7 * |ts| / 10) && HasRank(ts, cutoffs.value.1, 17 * |ts| / 20)
  {
    var n := |ts|;
    if n == 0 {
      return None;
    }
    RanksInRange(n);
    CutoffsHoldFractions(ts);
    var groups := GroupByTime(ts);
    var out: seq<int> := [];
    for i := 0 to |SPLIT_FRACTIONS|
      invariant |out| == i
      invariant forall j :: 0 <= j < i ==> 0 <= Rank(SPLIT_FRACTIONS[j], n) < n
                                           && out[j] == SortedTimes(ts)[Rank(SPLIT_FRACTIONS[j], n)]
    {
      var k := Rank(SPLIT_FRACTIONS[i], n);
      GroupedCutoffIsKthSmallest(ts, k);
      out := out + [SmallestReaching(groups, groups, k).value];
    }
    return Some((out[0], out[1]));
  }

  // ----- The split

  datatype Split = Train | Validation | Test

  function AssignSplit(t: int, cutoffs: (int, int)): Split {
    if t < cutoffs.0 then Train else if t < cutoffs.1 then Validation else Test
  }

  function CountSplit(ts: seq<int>, cutoffs: (int, int), s: Split): nat {
    if ts == [] then 0
    else CountSplit(ts[..|ts| - 1], cutoffs, s) + if AssignSplit(ts[|ts| - 1], cutoffs) == s then 1 else 0
  }

  lemma {:induction false} SplitSizes(ts: seq<int>, cutoffs: (int, int))
    requires cutoffs.0 <= cutoffs.1
    ensures CountSplit(ts, cutoffs, Train) == CountTimes(ts, cutoffs.0, true)
    ensures CountSplit(ts, cutoffs, Train) + CountSplit(ts, cutoffs, Validation) == CountTimes(ts, cutoffs.1, true)
    ensures CountSplit(ts, cutoffs, Train) + CountSplit(ts, cutoffs, Validation) + CountSplit(ts, cutoffs, Test) == |ts|
  {
    if ts != [] {
      SplitSizes(ts[..|ts| - 1], cutoffs);
    }
  }

  /** With cut-offs at any ranks k70 <= k85 < n: training holds at most k70 events and
      training with validation at most k85, so the test split is never empty. */
  lemma SplitGuarantee(ts: seq<int>, k70: nat, k85: nat)
    requires k70 <= k85 < |ts|
    ensures
      var cutoffs := (SortedTimes(ts)[k70], SortedTimes(ts)[k85]);
      && cutoffs.0 <= cutoffs.1
      && CountSplit(ts, cutoffs, Train) <= k70
      && CountSplit(ts, cutoffs, Train) + CountSplit(ts, cutoffs, Validation) <= k85
      && CountSplit(ts, cutoffs, Test) >= |ts| - k85 > 0
  {
    CutoffsRise(ts, k70, k85);
    SplitSizesAtRanks(ts, k70, k85, (SortedTimes(ts)[k70], SortedTimes(ts)[k85]));
  }

  lemma CutoffsRise(ts: seq<int>, k70: nat, k85: nat)
    requires k70 <= k85 < |ts|
    ensures SortedTimes(ts)[k70] <= SortedTimes(ts)[k85]
  {
  }

  // ----- The promised fractions

  predicate Distinct(ts: seq<int>) {
    forall i, j :: 0 <= i < j < |ts| ==> ts[i] != ts[j]
  }

  lemma RanksAreFractions(n: nat)
    requires n > 0
    ensures Rank(SPLIT_FRACTIONS[0], n) == 7 * n / 10 && Rank(SPLIT_FRACTIONS[1], n) == 17 * n / 20
  {
    FloorIs(0.70 * n as real, 7 * n / 10);
    FloorIs(0.85 * n as real, 17 * n / 20);
  }

  lemma FloorIs(x: real, k: int)
    requires k as real <= x < k as real + 1.0
    ensures x.Floor == k
  {
  }

  lemma {:induction false} DistinctCount(ts: seq<int>, v: int)
    requires Distinct(ts)
    ensures CountTimes(ts, v, false) == CountTimes(ts, v, true) + if v in ts then 1 else 0
  {
    if ts != [] {
      var n := |ts| - 1;
      assert ts == ts[..n] + [ts[n]];
      DistinctCount(ts[..n], v);
    }
  }

  /** `v` has at most `k` of the times below it and more than `k` up to it. */
  predicate HasRank(ts: seq<int>, v: int, k: int) {
    v in ts && CountTimes(ts, v, true) <= k < CountTimes(ts, v, false)
  }

  /** The cut-offs stand at floor(0.70 N) and floor(0.85 N) of the times in order. */
  lemma CutoffsHoldFractions(ts: seq<int>)
    requires ts != []
    ensures
      var cutoffs := ChronoCutoffs(ts).value;
      && HasRank(ts, cutoffs.0, 7 * |ts| / 10) && HasRank(ts, cutoffs.1, 17 * |ts| / 20)
      && cutoffs.0 <= cutoffs.1
  {
    RanksAreFractions(|ts|);
    KthSmallestByCounting(ts, 7 * |ts| / 10);
    KthSmallestByCounting(ts, 17 * |ts| / 20);
    CutoffsRise(ts, 7 * |ts| / 10, 17 * |ts| / 20);
  }

  /** Training takes at most floor(0.70 N) of the events and training with validation at most
      floor(0.85 N); with distinct times exactly that many. */
  lemma SplitFractions(ts: seq<int>, cutoffs: (int, int))
    requires HasRank(ts, cutoffs.0, 7 * |ts| / 10) && HasRank(ts, cutoffs.1, 17 * |ts| / 20)
    requires cutoffs.0 <= cutoffs.1
    ensures
      var train, validation := CountSplit(ts, cutoffs, Train), CountSplit(ts, cutoffs, Validation);
      && train <= 7 * |ts| / 10 && train + validation <= 17 * |ts| / 20
      && (Distinct(ts) ==> train == 7 * |ts| / 10 && train + validation == 17 * |ts| / 20)
  {
    SplitSizes(ts, cutoffs);
    if Distinct(ts) {
      DistinctCount(ts, cutoffs.0);
      DistinctCount(ts, cutoffs.1);
    }
  }

  /** The splits follow each other strictly in time, and equal times share a split. */
  lemma SplitsFollowInTime(cutoffs: (int, int), t: int, u: int)
    requires cutoffs.0 <= cutoffs.1
    ensures AssignSplit(t, cutoffs) != AssignSplit(u, cutoffs) ==> t != u
    ensures AssignSplit(t, cutoffs).Train? && AssignSplit(u, cutoffs).Validation? ==> t < u
    ensures !AssignSplit(t, cutoffs).Test? && AssignSplit(u, cutoffs).Test? ==> t < u
  {
  }

  lemma SplitSizesAtRanks(ts: seq<int>, k70: nat, k85: nat, cutoffs: (int, int))
    requires k70 <= k85 < |ts| && cutoffs.0 <= cutoffs.1
    requires cutoffs == (SortedTimes(ts)[k70], SortedTimes(ts)[k85])
    ensures CountSplit(ts, cutoffs, Train) <= k70
    ensures CountSplit(ts, cutoffs, Train) + CountSplit(ts, cutoffs, Validation) <= k85
    ensures CountSplit(ts, cutoffs, Test) >= |ts| - k85
  {
    KthSmallestByCounting(ts, k70);
    KthSmallestByCounting(ts, k85);
    SplitSizes(ts, cutoffs);
  }
}
