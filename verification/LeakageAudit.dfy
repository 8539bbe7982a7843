/** The leakage audit, and the preprocessor that is gated by it
    (pipeline/leakage_audit.py, pipeline/pandas_preprocessor.py `transform`). */
module LeakageAudit {
  import opened Wrappers
  import opened Letters
  import opened EventHistory
  import opened PandasHistory
  import opened ChronoSplit

  /** One row of the audited frame; `time` is `None` where it does not parse. */
  datatype AuditRow = AuditRow(time: Option<int>, split: Split, hours: Option<real>)

  datatype Violation =
    | ForbiddenFeatures | UnparseableTimes | TrainOverlapsValidation | ValidationOverlapsTest | NegativeDeltas

  const FORBIDDEN_FEATURES :=
    ["recovered", "verification_outcome", "verified_amount", "actual_recovery", "future_event"]

  predicate AnyForbidden(names: seq<string>) {
    exists i :: 0 <= i < |names| && Lower(names[i]) in FORBIDDEN_FEATURES
  }

  /** The names that give the outcome away. */
  predicate TellsOutcome(name: string) {
    || name == "recovered" || name == "verification_outcome" || name == "verified_amount"
    || name == "actual_recovery" || name == "future_event"
  }

  lemma ForbiddenAreLowerCase(f: string)
    ensures TellsOutcome(f) <==> f in FORBIDDEN_FEATURES
    ensures TellsOutcome(f) ==> Lower(f) == f
  {
    if TellsOutcome(f) {
      assert |Lower(f)| == |f| && forall i :: 0 <= i < |f| ==> Lower(f)[i] == f[i];
    }
  }

  lemma ForbiddenNameIff(name: string)
    ensures Lower(name) in FORBIDDEN_FEATURES <==> exists f :: TellsOutcome(f) && SameLetters(name, f)
  {
    ForbiddenAreLowerCase(Lower(name));
    if Lower(name) in FORBIDDEN_FEATURES {
      LowerMeansSameLetters(name, Lower(name));
    }
    forall f | TellsOutcome(f) && SameLetters(name, f) ensures Lower(name) in FORBIDDEN_FEATURES {
      ForbiddenAreLowerCase(f);
      LowerMeansSameLetters(name, f);
    }
  }

  /** A name is forbidden in whatever letter case it is written. */
  lemma ForbiddenInAnyCase(names: seq<string>)
    ensures AnyForbidden(names) <==>
      exists i, f :: 0 <= i < |names| && TellsOutcome(f) && SameLetters(names[i], f)
  {
    forall i | 0 <= i < |names|
      ensures Lower(names[i]) in FORBIDDEN_FEATURES <==> exists f :: TellsOutcome(f) && SameLetters(names[i], f)
    {
      ForbiddenNameIff(names[i]);
    }
  }

  function LatestIn(rows: seq<AuditRow>, s: Split): Option<int> {
    if rows == [] then None
    else
      var rest := LatestIn(rows[..|rows| - 1], s);
      var r := rows[|rows| - 1];
      if r.split == s && r.time.Some? && (rest.None? || rest.value < r.time.value) then r.time else rest
  }

  function EarliestIn(rows: seq<AuditRow>, s: Split): Option<int> {
    if rows == [] then None
    else
      var rest := EarliestIn(rows[..|rows| - 1], s);
      var r := rows[|rows| - 1];
      if r.split == s && r.time.Some? && (rest.None? || r.time.value < rest.value) then r.time else rest
  }

  predicate InSplit(rows: seq<AuditRow>, s: Split, t: int) {
    exists i :: 0 <= i < |rows| && rows[i].split == s && rows[i].time == Some(t)
  }

  lemma {:induction false} ExtremesAreExtreme(rows: seq<AuditRow>, s: Split)
    ensures LatestIn(rows, s).Some? ==> InSplit(rows, s, LatestIn(rows, s).value)
    ensures EarliestIn(rows, s).Some? ==> InSplit(rows, s, EarliestIn(rows, s).value)
    ensures forall t :: InSplit(rows, s, t) ==>
      && LatestIn(rows, s).Some? && t <= LatestIn(rows, s).value
      && EarliestIn(rows, s).Some? && EarliestIn(rows, s).value <= t
  {
    if rows != [] {
      var n := |rows| - 1;
      ExtremesAreExtreme(rows[..n], s);
      forall t
        ensures InSplit(rows, s, t) <==> InSplit(rows[..n], s, t) || (rows[n].split == s && rows[n].time == Some(t))
      {
        if InSplit(rows[..n], s, t) {
          var i :| 0 <= i < n && rows[..n][i].split == s && rows[..n][i].time == Some(t);
          assert rows[i].split == s;
        }
        if InSplit(rows, s, t) {
          var i :| 0 <= i < |rows| && rows[i].split == s && rows[i].time == Some(t);
          if i < n {
            assert rows[..n][i].split == s;
          }
        }
      }
    }
  }

  /** Every time of split `a` is at most every time of split `b`. */
  ghost predicate NotAfter(rows: seq<AuditRow>, a: Split, b: Split) {
    forall t, u :: InSplit(rows, a, t) && InSplit(rows, b, u) ==> t <= u
  }

  predicate AnyUnparseable(rows: seq<AuditRow>) {
    exists i :: 0 <= i < |rows| && rows[i].time.None?
  }

  predicate AnyNegative(rows: seq<AuditRow>) {
    exists i :: 0 <= i < |rows| && rows[i].hours.Some? && rows[i].hours.value < 0.0
  }

  /** What each violation stands for, over all names, rows and pairs of rows. */
  ghost predicate Leaks(rows: seq<AuditRow>, names: seq<string>, v: Violation) {
    match v
    case ForbiddenFeatures => AnyForbidden(names)
    case UnparseableTimes => AnyUnparseable(rows)
    case TrainOverlapsValidation => !NotAfter(rows, Train, Validation)
    case ValidationOverlapsTest => !NotAfter(rows, Validation, Test)
    case NegativeDeltas => AnyNegative(rows)
  }

  ghost predicate NoLeak(rows: seq<AuditRow>, names: seq<string>) {
    forall v :: !Leaks(rows, names, v)
  }

  lemma NoLeakMeans(rows: seq<AuditRow>, names: seq<string>)
    ensures
      NoLeak(rows, names) <==>
        && !AnyForbidden(names)
        && (forall i :: 0 <= i < |rows| ==> rows[i].time.Some?)
        && NotAfter(rows, Train, Validation) && NotAfter(rows, Validation, Test)
        && (forall i :: 0 <= i < |rows| && rows[i].hours.Some? ==> rows[i].hours.value >= 0.0)
  {
    assert NoLeak(rows, names) ==>
      !Leaks(rows, names, ForbiddenFeatures) && !Leaks(rows, names, UnparseableTimes)
      && !Leaks(rows, names, TrainOverlapsValidation) && !Leaks(rows, names, ValidationOverlapsTest)
      && !Leaks(rows, names, NegativeDeltas);
  }

  lemma OverlapIsSeen(rows: seq<AuditRow>, a: Split, b: Split)
    ensures
      var latest, earliest := LatestIn(rows, a), EarliestIn(rows, b);
      NotAfter(rows, a, b) <==> !(latest.Some? && earliest.Some? && latest.value > earliest.value)
  {
    ExtremesAreExtreme(rows, a);
    ExtremesAreExtreme(rows, b);
  }

  /** One more violation where `found`. */
  function Report(violations: seq<Violation>, v: Violation, found: bool): (r: seq<Violation>)
    ensures forall u :: u in r <==> u in violations || (found && u == v)
  {
    if found then violations + [v] else violations
  }

  lemma AllReported(forbidden: bool, unparseable: bool, trainOverlaps: bool, validationOverlaps: bool, negative: bool)
    ensures
      var r := Report(Report([], ForbiddenFeatures, forbidden), UnparseableTimes, unparseable);
      var s := Report(Report(r, TrainOverlapsValidation, trainOverlaps), ValidationOverlapsTest, validationOverlaps);
      forall v :: v in Report(s, NegativeDeltas, negative) <==>
        match v
        case ForbiddenFeatures => forbidden
        case UnparseableTimes => unparseable
        case TrainOverlapsValidation => trainOverlaps
        case ValidationOverlapsTest => validationOverlaps
        case NegativeDeltas => negative
  {
  }

  lemma NothingReported(rows: seq<AuditRow>, names: seq<string>, violations: seq<Violation>)
    requires forall v :: v in violations <==> Leaks(rows, names, v)
    ensures violations == [] <==> NoLeak(rows, names)
  {
    assert violations != [] ==> violations[0] in violations;
  }

  /** The audit reports exactly the kinds of leak that some name, row or pair of rows
      shows. */
  method AuditFeaturesAndSplits(rows: seq<AuditRow>, names: seq<string>) returns (violations: seq<Violation>)
    ensures forall v :: v in violations <==> Leaks(rows, names, v)
    ensures violations == [] <==> NoLeak(rows, names)
  {
    var forbidden := AnyForbidden(names);
    var unparseable := AnyUnparseable(rows);
    var trainMax, validationMin := LatestIn(rows, Train), EarliestIn(rows, Validation);
    var validationMax, testMin := LatestIn(rows, Validation), EarliestIn(rows, Test);
    var trainOverlaps := trainMax.Some? && validationMin.Some? && trainMax.value > validationMin.value;
    var validationOverlaps := validationMax.Some? && testMin.Some? && validationMax.value > testMin.value;
    var negative := AnyNegative(rows);
    assert trainOverlaps == Leaks(rows, names, TrainOverlapsValidation) by {
      OverlapIsSeen(rows, Train, Validation);
    }
    assert validationOverlaps == Leaks(rows, names, ValidationOverlapsTest) by {
      OverlapIsSeen(rows, Validation, Test);
    }
    violations := Report([], ForbiddenFeatures, forbidden);
    violations := Report(violations, UnparseableTimes, unparseable);
    violations := Report(violations, TrainOverlapsValidation, trainOverlaps);
    violations := Report(violations, ValidationOverlapsTest, validationOverlaps);
    violations := Report(violations, NegativeDeltas, negative);
    AllReported(forbidden, unparseable, trainOverlaps, validationOverlaps, negative);
    NothingReported(rows, names, violations);
  }

  // ----- What a clean audit does and does not say

  /** Training never overlaps test in a clean frame, provided there is validation data. */
  lemma CleanAuditOrdersTrainAndTest(rows: seq<AuditRow>, names: seq<string>)
    requires NoLeak(rows, names) && exists t :: InSplit(rows, Validation, t)
    ensures NotAfter(rows, Train, Test)
  {
    NoLeakMeans(rows, names);
    var v :| InSplit(rows, Validation, v);
    forall t, u | InSplit(rows, Train, t) && InSplit(rows, Test, u) ensures t <= u {
      assert t <= v <= u;
    }
  }

  /** Without validation data the audit compares no times at all: it accepts every
      frame whose times parse, whatever training and test look like. */
  lemma AuditIsBlindWithoutValidation(rows: seq<AuditRow>, names: seq<string>)
    requires forall i :: 0 <= i < |rows| ==> rows[i].time.Some? && !rows[i].split.Validation?
    ensures
      NoLeak(rows, names) <==>
        !AnyForbidden(names) && forall i :: 0 <= i < |rows| && rows[i].hours.Some? ==> rows[i].hours.value >= 0.0
  {
    NoLeakMeans(rows, names);
    assert forall t :: !InSplit(rows, Validation, t);
  }

  lemma AuditAcceptsTrainTestOverlap(names: seq<string>) returns (rows: seq<AuditRow>)
    requires !AnyForbidden(names)
    ensures NoLeak(rows, names) && !NotAfter(rows, Train, Test) && Occupied(rows, {Train, Test})
  {
    rows := [AuditRow(Some(10), Train, None), AuditRow(Some(5), Test, None)];
    AuditIsBlindWithoutValidation(rows, names);
    assert rows[0].split == Train && rows[1].split == Test;
    assert InSplit(rows, Train, 10) && InSplit(rows, Test, 5);
  }

  /** The splits that have rows. */
  ghost predicate Occupied(rows: seq<AuditRow>, splits: set<Split>) {
    forall s :: s in splits <==> exists i :: 0 <= i < |rows| && rows[i].split == s
  }

  lemma OccupiedSplitHasTimes(rows: seq<AuditRow>, splits: set<Split>, s: Split)
    requires Occupied(rows, splits) && forall i :: 0 <= i < |rows| ==> rows[i].time.Some?
    ensures s in splits <==> exists t :: InSplit(rows, s, t)
  {
    if s in splits {
      var i :| 0 <= i < |rows| && rows[i].split == s;
      assert InSplit(rows, s, rows[i].time.value);
    }
  }

  lemma CleanAuditOrders(rows: seq<AuditRow>, names: seq<string>, splits: set<Split>)
    requires NoLeak(rows, names) && Occupied(rows, splits)
    requires Validation in splits || Train !in splits || Test !in splits
    ensures NotAfter(rows, Train, Test)
  {
    NoLeakMeans(rows, names);
    OccupiedSplitHasTimes(rows, splits, Train);
    OccupiedSplitHasTimes(rows, splits, Validation);
    OccupiedSplitHasTimes(rows, splits, Test);
    if Validation in splits {
      CleanAuditOrdersTrainAndTest(rows, names);
    }
  }

  /** Every clean frame with rows in just these splits has training before test exactly when
      one of them is validation, or training or test is not among them. */
  lemma AuditOrdersTrainAndTestIff(names: seq<string>, splits: set<Split>)
    requires !AnyForbidden(names)
    ensures
      (forall rows: seq<AuditRow> :: NoLeak(rows, names) && Occupied(rows, splits) ==> NotAfter(rows, Train, Test))
      <==> Validation in splits || Train !in splits || Test !in splits
  {
    if Validation in splits || Train !in splits || Test !in splits {
      forall rows: seq<AuditRow> | NoLeak(rows, names) && Occupied(rows, splits) ensures NotAfter(rows, Train, Test) {
        CleanAuditOrders(rows, names, splits);
      }
    } else {
      var rows := AuditAcceptsTrainTestOverlap(names);
      assert splits == {Train, Test} by {
        assert forall s :: s in splits ==> s == Train || s == Test;
      }
    }
  }

  // ----- The gated preprocessor

  const ALL_FEATURES := [
    "event_type", "failure_reason", "payment_method", "device_type", "country",
    "amount_paise", "retry_count", "event_hour_utc", "event_dayofweek_utc",
    "cust_prior_events", "cust_prior_amount_mean", "cust_prior_retry_total",
    "cust_prior_checkout_abandoned", "cust_prior_failed_payment", "cust_prior_failed_subscription",
    "cust_prior_same_failure_reason", "hours_since_prev_event"]

  lemma FeatureNamesAllowed()
    ensures !AnyForbidden(ALL_FEATURES)
  {
    forall i | 0 <= i < |ALL_FEATURES| ensures Lower(ALL_FEATURES[i]) !in FORBIDDEN_FEATURES {
      var name := ALL_FEATURES[i];
      assert |Lower(name)| == |name|;
      if |name| == 12 {
        assert Lower(name)[0] == LowerChar(name[0]) == 'a';
      }
    }
  }

  function TimesOf(rows: seq<Event>): seq<int> {
    seq(|rows|, i requires 0 <= i < |rows| => rows[i].time)
  }

  function AuditRows(rows: seq<Event>, features: seq<Features>, cutoffs: (int, int)): seq<AuditRow>
    requires |features| == |rows|
  {
    seq(|rows|, i requires 0 <= i < |rows| =>
      AuditRow(Some(rows[i].time), AssignSplit(rows[i].time, cutoffs), features[i].hoursSincePrevious))
  }

  lemma OwnOutputIsClean(rows: seq<Event>, features: seq<Features>, cutoffs: (int, int))
    requires |features| == |rows| && GuardsHold(features) && ChronoCutoffs(TimesOf(rows)) == Some(cutoffs)
    ensures NoLeak(AuditRows(rows, features, cutoffs), ALL_FEATURES)
  {
    FeatureNamesAllowed();
    NoLeakMeans(AuditRows(rows, features, cutoffs), ALL_FEATURES);
    CutoffsHoldFractions(TimesOf(rows));
  }

  predicate SplitBefore(a: Split, b: Split) {
    a != b && (a.Train? || b.Test?)
  }

  ghost predicate OrderedInTime(rows: seq<Event>, splits: seq<Split>)
    requires |splits| == |rows|
  {
    forall i, j :: 0 <= i < |rows| && 0 <= j < |rows| && SplitBefore(splits[i], splits[j]) ==>
      rows[i].time < rows[j].time
  }

  lemma SplitsAreOrdered(rows: seq<Event>, splits: seq<Split>, c70: int, c85: int)
    requires |splits| == |rows| && SplitByFractions(TimesOf(rows), splits, c70, c85)
    ensures OrderedInTime(rows, splits)
  {
    forall i, j | 0 <= i < |rows| && 0 <= j < |rows| && SplitBefore(splits[i], splits[j])
      ensures rows[i].time < rows[j].time
    {
      assert TimesOf(rows)[i] == rows[i].time && TimesOf(rows)[j] == rows[j].time;
    }
  }

  datatype Outcome =
    | EmptyTimestamps
    | AuditFailed(violations: seq<Violation>)
    | Transformed(rows: seq<Event>, features: seq<Features>, splits: seq<Split>)

  /** The splits of `times` by two of them, the first at rank floor(0.70 N), the second at
      rank floor(0.85 N). */
  ghost predicate SplitByFractions(times: seq<int>, splits: seq<Split>, c70: int, c85: int)
    requires |splits| == |times|
  {
    && c70 <= c85 && HasRank(times, c70, 7 * |times| / 10) && HasRank(times, c85, 17 * |times| / 20)
    && forall i :: 0 <= i < |times| ==>
         && (splits[i].Train? <==> times[i] < c70)
         && (splits[i].Validation? <==> c70 <= times[i] < c85)
         && (splits[i].Test? <==> c85 <= times[i])
  }

  /** How many rows each split holds: never more than the fractions, and exactly as many when
      no two times are equal. */
  ghost predicate SizesAreFractions(times: seq<int>, splits: seq<Split>) {
    var n, train, validation := |times|, multiset(splits)[Train], multiset(splits)[Validation];
    && train <= 7 * n / 10 && train + validation <= 17 * n / 20 && multiset(splits)[Test] == n - train - validation > 0
    && (Distinct(times) ==> train == 7 * n / 10 && train + validation == 17 * n / 20)
  }

  lemma {:induction false} SplitsAreCounted(times: seq<int>, splits: seq<Split>, cutoffs: (int, int), s: Split)
    requires |splits| == |times| && forall i :: 0 <= i < |times| ==> splits[i] == AssignSplit(times[i], cutoffs)
    ensures multiset(splits)[s] == CountSplit(times, cutoffs, s)
  {
    if times != [] {
      var n := |times| - 1;
      assert splits == splits[..n] + [splits[n]];
      SplitsAreCounted(times[..n], splits[..n], cutoffs, s);
    }
  }

  lemma SplitsMeetFractions(times: seq<int>, splits: seq<Split>, cutoffs: (int, int))
    requires times != [] && ChronoCutoffs(times) == Some(cutoffs) && |splits| == |times|
    requires forall i :: 0 <= i < |times| ==> splits[i] == AssignSplit(times[i], cutoffs)
    ensures SplitByFractions(times, splits, cutoffs.0, cutoffs.1) && SizesAreFractions(times, splits)
  {
    CutoffsHoldFractions(times);
    SplitFractions(times, cutoffs);
    SplitSizes(times, cutoffs);
    SplitsAreCounted(times, splits, cutoffs, Train);
    SplitsAreCounted(times, splits, cutoffs, Validation);
    SplitsAreCounted(times, splits, cutoffs, Test);
  }

  /** `transform`: the audit gate never rejects the preprocessor's own output, so the
      only failure on distinct event ids is the empty dataset. */
  method Transform(raw: seq<Event>) returns (out: Outcome)
    requires DistinctIds(raw)
    ensures !out.AuditFailed? && (out.EmptyTimestamps? <==> raw == [])
    ensures out.Transformed? ==>
      && multiset(out.rows) == multiset(raw) && |out.features| == |out.rows| && |out.splits| == |out.rows|
      && (forall i :: 0 <= i < |out.rows| ==> out.features[i] == HistoryOf(raw, out.rows[i]))
      && OrderedInTime(out.rows, out.splits)
    ensures out.Transformed? ==>
      && SizesAreFractions(TimesOf(out.rows), out.splits)
      && exists c70, c85 :: SplitByFractions(TimesOf(out.rows), out.splits, c70, c85)
  {
    var rows, features := AddHistoryFeatures(raw);
    assert |rows| == |multiset(rows)| && |raw| == |multiset(raw)|;
    var found := ChronoCutoffs(TimesOf(rows));
    if found.None? {
      return EmptyTimestamps;
    }
    var cutoffs := found.value;
    OwnOutputIsClean(rows, features, cutoffs);
    var violations := AuditFeaturesAndSplits(AuditRows(rows, features, cutoffs), ALL_FEATURES);
    if violations != [] {
      return AuditFailed(violations);
    }
    var splits := seq(|rows|, i requires 0 <= i < |rows| => AssignSplit(rows[i].time, cutoffs));
    SplitsMeetFractions(TimesOf(rows), splits, cutoffs);
    SplitsAreOrdered(rows, splits, cutoffs.0, cutoffs.1);
    return Transformed(rows, features, splits);
  }
}
