/** Threshold tables and the choice of an operating threshold (evaluation/protocol.py). */
module Thresholds {
  import opened Wrappers
  import opened Classification

  datatype Scored = Scored(positive: bool, p: real)

  /** One cell of the confusion matrix at threshold `t`, where `p >= t` predicts positive. */
  function Cell(rows: seq<Scored>, t: real, positive: bool, predicted: bool): nat {
    if rows == [] then 0
    else
      var r := rows[|rows| - 1];
      Cell(rows[..|rows| - 1], t, positive, predicted)
      + if r.positive == positive && (r.p >= t) == predicted then 1 else 0
  }

  /** `_counts_at`. */
  function CountsAt(rows: seq<Scored>, t: real): Counts {
    Counts(Cell(rows, t, false, false) as real, Cell(rows, t, false, true) as real,
           Cell(rows, t, true, false) as real, Cell(rows, t, true, true) as real)
  }

  function Actual(rows: seq<Scored>, positive: bool): nat {
    if rows == [] then 0
    else Actual(rows[..|rows| - 1], positive) + if rows[|rows| - 1].positive == positive then 1 else 0
  }

  lemma {:induction false} CellsAddUp(rows: seq<Scored>, t: real, positive: bool)
    ensures Cell(rows, t, positive, false) + Cell(rows, t, positive, true) == Actual(rows, positive)
    ensures Actual(rows, true) + Actual(rows, false) == |rows|
  {
    if rows != [] {
      CellsAddUp(rows[..|rows| - 1], t, positive);
    }
  }

  lemma {:induction false} CellIsAntitone(rows: seq<Scored>, t: real, u: real, positive: bool)
    requires t <= u
    ensures Cell(rows, u, positive, true) <= Cell(rows, t, positive, true)
  {
    if rows != [] {
      CellIsAntitone(rows[..|rows| - 1], t, u, positive);
    }
  }

  lemma CountsValid(rows: seq<Scored>, t: real)
    requires rows != []
    ensures
      var c := CountsAt(rows, t);
      && c.Valid() && c.N() == |rows| as real
      && c.Pos() == Actual(rows, true) as real && c.Neg() == Actual(rows, false) as real
  {
    CellsAddUp(rows, t, true);
    CellsAddUp(rows, t, false);
  }

  lemma SmallerNumerator(x: real, y: real, z: real)
    requires z > 0.0 && x <= y
    ensures x / z <= y / z
  {
    Quotient(x, z);
    Quotient(y, z);
    Cancel(x / z, y / z, z);
  }

  /** Raising the threshold never raises the true or false positives, so recall, false
      positive rate and coverage can only fall. */
  lemma RaisingTheThreshold(rows: seq<Scored>, t: real, u: real)
    requires rows != [] && t <= u
    ensures
      && CountsAt(rows, t).Valid() && CountsAt(rows, u).Valid()
      && CountsAt(rows, u).tp <= CountsAt(rows, t).tp && CountsAt(rows, u).fp <= CountsAt(rows, t).fp
      && var low, high := MetricsOf(CountsAt(rows, t)), MetricsOf(CountsAt(rows, u));
      && high.coverage <= low.coverage
      && (low.recall.Some? <==> high.recall.Some?) && (low.fpr.Some? <==> high.fpr.Some?)
      && (low.recall.Some? ==> high.recall.value <= low.recall.value)
      && (low.fpr.Some? ==> high.fpr.value <= low.fpr.value)
  {
    CountsValid(rows, t);
    CountsValid(rows, u);
    CellIsAntitone(rows, t, u, true);
    CellIsAntitone(rows, t, u, false);
    var low, high := CountsAt(rows, t), CountsAt(rows, u);
    SmallerNumerator(high.PredPos(), low.PredPos(), low.N());
    if low.Pos() > 0.0 {
      SmallerNumerator(high.tp, low.tp, low.Pos());
    }
    if low.Neg() > 0.0 {
      SmallerNumerator(high.fp, low.fp, low.Neg());
    }
  }

  // ----- The table

  datatype Row = Row(threshold: real, counts: Counts, metrics: Metrics)

  function RowAt(rows: seq<Scored>, t: real): Row
    requires rows != []
  {
    CountsValid(rows, t);
    Row(t, CountsAt(rows, t), MetricsOf(CountsAt(rows, t)))
  }

  /** Each row comes from a single confusion matrix. */
  method ThresholdTable(rows: seq<Scored>, thresholds: seq<real>) returns (table: seq<Row>)
    requires rows != []
    ensures |table| == |thresholds|
    ensures forall i :: 0 <= i < |thresholds| ==> table[i] == RowAt(rows, thresholds[i])
  {
    table := [];
    for i := 0 to |thresholds|
      invariant |table| == i
      invariant forall j :: 0 <= j < i ==> table[j] == RowAt(rows, thresholds[j])
    {
      table := table + [RowAt(rows, thresholds[i])];
    }
  }

  // ----- Choosing

  /** What a candidate row is ranked by; `None` is not a candidate. Matrices are
      ordered by mcc through its signed square. */
  datatype Criterion = BalancedAccuracy | F1 | Mcc | CoveredPrecision(minCoverage: real)

  function Key(c: Criterion, r: Row): Option<real> {
    match c
    case BalancedAccuracy => r.metrics.balancedAccuracy
    case F1 => r.metrics.f1
    case Mcc => r.metrics.signedSquaredMcc
    case CoveredPrecision(minCoverage) => if r.metrics.coverage >= minCoverage then r.metrics.precision else None
  }

  /** The key of `max`: a greater value, or the same at a lower threshold. */
  predicate Beats(c: Criterion, r: Row, s: Row)
    requires Key(c, r).Some? && Key(c, s).Some?
  {
    || Key(c, r).value > Key(c, s).value
    || (Key(c, r).value == Key(c, s).value && r.threshold < s.threshold)
  }

  /** `max(valid, key=lambda r: (r[key], -r["threshold"]))`, the first of equals. */
  function Best(table: seq<Row>, c: Criterion): (b: Option<Row>)
    ensures b.None? <==> forall r :: r in table ==> Key(c, r).None?
    ensures b.Some? ==>
      && b.value in table && Key(c, b.value).Some?
      && forall r :: r in table && Key(c, r).Some? ==> !Beats(c, r, b.value)
  {
    if table == [] then None
    else
      var n := |table| - 1;
      assert table == table[..n] + [table[n]];
      var rest := Best(table[..n], c);
      if Key(c, table[n]).None? then rest
      else if rest.None? || Beats(c, table[n], rest.value) then Some(table[n])
      else rest
  }

  datatype Choice = Choice(threshold: real, feasible: bool)

  /** `youden`, `max_f1` and `max_mcc`; `None` is the MetricInputError for a metric
      undefined at every candidate. */
  function SelectMaximum(c: Criterion, table: seq<Row>): Option<Choice> {
    match Best(table, c)
    case None => None
    case Some(r) => Some(Choice(r.threshold, true))
  }

  predicate MeetsTargets(r: Row, targetPrecision: real, minCoverage: real) {
    && r.metrics.precision.Some? && r.metrics.precision.value >= targetPrecision
    && r.metrics.coverage >= minCoverage
  }

  /** The lowest threshold of the rows that meet both targets. */
  function LowestMeeting(table: seq<Row>, targetPrecision: real, minCoverage: real): (low: Option<real>)
    ensures low.None? <==> forall r :: r in table ==> !MeetsTargets(r, targetPrecision, minCoverage)
    ensures low.Some? ==>
      && (exists r :: r in table && MeetsTargets(r, targetPrecision, minCoverage) && r.threshold == low.value)
      && forall r :: r in table && MeetsTargets(r, targetPrecision, minCoverage) ==> low.value <= r.threshold
  {
    if table == [] then None
    else
      var n := |table| - 1;
      assert table == table[..n] + [table[n]];
      var rest := LowestMeeting(table[..n], targetPrecision, minCoverage);
      if MeetsTargets(table[n], targetPrecision, minCoverage) && (rest.None? || table[n].threshold < rest.value)
      then Some(table[n].threshold) else rest
  }

  /** `min_precision`; `None` is the IndexError on an empty table. */
  function SelectMinPrecision(table: seq<Row>, targetPrecision: real, minCoverage: real): Option<Choice> {
    var lowest := LowestMeeting(table, targetPrecision, minCoverage);
    if lowest.Some? then Some(Choice(lowest.value, true))
    else
      match Best(table, CoveredPrecision(minCoverage))
      case Some(r) => Some(Choice(r.threshold, false))
      case None => if table == [] then None else Some(Choice(table[|table| - 1].threshold, false))
  }

  // ----- What the choice means

  /** No candidate has a greater key, and those with the same key a lower threshold. */
  ghost predicate LowestBest(c: Criterion, table: seq<Row>, b: Row) {
    && b in table && Key(c, b).Some?
    && forall r :: r in table && Key(c, r).Some? ==>
         && Key(c, r).value <= Key(c, b).value
         && (Key(c, r) == Key(c, b) ==> b.threshold <= r.threshold)
  }

  /** `best` fails exactly when its metric is undefined at every candidate; otherwise it
      returns the lowest threshold with the greatest value, for F1 and mcc too. */
  lemma MaximumIsLowestBest(c: Criterion, table: seq<Row>)
    ensures
      var choice := SelectMaximum(c, table);
      && (choice.None? <==> forall r :: r in table ==> Key(c, r).None?)
      && (choice.Some? ==>
            choice.value.feasible && exists b :: LowestBest(c, table, b) && choice.value.threshold == b.threshold)
  {
  }

  predicate TableOf(rows: seq<Scored>, table: seq<Row>) {
    rows != [] && forall r :: r in table ==> r == RowAt(rows, r.threshold)
  }

  function YoudenIndex(r: Row): Option<real> {
    if r.metrics.recall.None? || r.metrics.fpr.None? then None
    else Some(r.metrics.recall.value - r.metrics.fpr.value)
  }

  lemma YoudenKey(rows: seq<Scored>, t: real)
    requires rows != []
    ensures
      var r := RowAt(rows, t);
      var key := Key(BalancedAccuracy, r);
      && (key.Some? <==> Actual(rows, true) > 0 && Actual(rows, false) > 0)
      && (key.Some? ==> YoudenIndex(r).Some? && key.value == (YoudenIndex(r).value + 1.0) / 2.0)
  {
    CountsValid(rows, t);
    BalancedAccuracyIsYouden(CountsAt(rows, t));
  }

  /** `b` has the greatest TPR - FPR, at the lowest threshold of those that do. */
  predicate LowestMaximiser(table: seq<Row>, b: Row) {
    && b in table && YoudenIndex(b).Some?
    && forall r :: r in table ==>
         && YoudenIndex(r).Some?
         && YoudenIndex(r).value <= YoudenIndex(b).value
         && (YoudenIndex(r) == YoudenIndex(b) ==> b.threshold <= r.threshold)
  }

  /** `youden` fails exactly without both classes or without candidates; otherwise it
      returns the lowest threshold that maximises TPR - FPR over the table. */
  lemma YoudenIsOptimal(rows: seq<Scored>, table: seq<Row>)
    requires TableOf(rows, table)
    ensures
      var choice := SelectMaximum(BalancedAccuracy, table);
      && (choice.None? <==> table == [] || Actual(rows, true) == 0 || Actual(rows, false) == 0)
      && (choice.Some? ==>
            choice.value.feasible && exists b :: LowestMaximiser(table, b) && choice.value.threshold == b.threshold)
  {
    forall r | r in table
      ensures Key(BalancedAccuracy, r).Some? <==> Actual(rows, true) > 0 && Actual(rows, false) > 0
      ensures Key(BalancedAccuracy, r).Some? ==>
        YoudenIndex(r).Some? && Key(BalancedAccuracy, r).value == (YoudenIndex(r).value + 1.0) / 2.0
    {
      YoudenKey(rows, r.threshold);
    }
    var best := Best(table, BalancedAccuracy);
    if table != [] {
      assert table[0] in table;
    }
    if best.Some? {
      var b := best.value;
      assert forall r :: r in table ==> !Beats(BalancedAccuracy, r, b);
      assert LowestMaximiser(table, b);
    }
  }

  /** `min_precision` is feasible exactly when some candidate meets both targets, and
      then returns the lowest such threshold. Otherwise it returns the lowest threshold
      of the highest precision among those with the coverage, or else the last one. */
  lemma MinPrecisionIsSound(table: seq<Row>, targetPrecision: real, minCoverage: real)
    requires table != []
    ensures
      var choice := SelectMinPrecision(table, targetPrecision, minCoverage);
      var meets := (r: Row) =>
        && r.metrics.precision.Some? && r.metrics.precision.value >= targetPrecision
        && r.metrics.coverage >= minCoverage;
      && choice.Some?
      && (choice.value.feasible <==> exists r :: r in table && meets(r))
      && (choice.value.feasible ==>
            && (exists r :: r in table && meets(r) && r.threshold == choice.value.threshold)
            && forall r :: r in table && meets(r) ==> choice.value.threshold <= r.threshold)
      && (!choice.value.feasible ==>
            if forall r :: r in table ==> Key(CoveredPrecision(minCoverage), r).None? then
              choice.value.threshold == table[|table| - 1].threshold
            else
              exists b :: LowestBest(CoveredPrecision(minCoverage), table, b) && choice.value.threshold == b.threshold)
  {
    var meets := (r: Row) =>
      && r.metrics.precision.Some? && r.metrics.precision.value >= targetPrecision
      && r.metrics.coverage >= minCoverage;
    assert forall r :: r in table ==> (meets(r) <==> MeetsTargets(r, targetPrecision, minCoverage));
  }

  // ----- The documented fallback of `min_precision`

  /** The documented answer when no candidate meets the targets: the lowest threshold of the
      highest precision; `None` if no candidate has a precision. */
  function HighestPrecision(table: seq<Row>): Option<Row> {
    Best(table, CoveredPrecision(0.0))
  }

  lemma CoverageIsShare(rows: seq<Scored>, t: real)
    requires rows != []
    ensures RowAt(rows, t).metrics.coverage >= 0.0
  {
    CountsValid(rows, t);
    Quotient(CountsAt(rows, t).PredPos(), CountsAt(rows, t).N());
  }

  /** The documented row is of greatest precision over all rows that have one. */
  lemma HighestPrecisionIsHighest(rows: seq<Scored>, table: seq<Row>)
    requires TableOf(rows, table)
    ensures HighestPrecision(table).None? <==> forall r :: r in table ==> r.metrics.precision.None?
    ensures HighestPrecision(table).Some? ==>
      var d := HighestPrecision(table).value;
      && d in table && d.metrics.precision.Some?
      && forall r :: r in table && r.metrics.precision.Some? ==>
           && r.metrics.precision.value <= d.metrics.precision.value
           && (r.metrics.precision == d.metrics.precision ==> d.threshold <= r.threshold)
  {
    forall r | r in table ensures Key(CoveredPrecision(0.0), r) == r.metrics.precision {
      CoverageIsShare(rows, r.threshold);
    }
    var best := HighestPrecision(table);
    if best.Some? {
      forall r | r in table && r.metrics.precision.Some?
        ensures r.metrics.precision.value <= best.value.metrics.precision.value
        ensures r.metrics.precision == best.value.metrics.precision ==> best.value.threshold <= r.threshold
      {
        assert !Beats(CoveredPrecision(0.0), r, best.value);
      }
    }
  }

  /** If the documented row has the coverage, it is also the best of those that have. */
  lemma CoveredHighestIsChosen(rows: seq<Scored>, table: seq<Row>, minCoverage: real)
    requires TableOf(rows, table) && HighestPrecision(table).Some?
    requires HighestPrecision(table).value.metrics.coverage >= minCoverage
    ensures
      var best := Best(table, CoveredPrecision(minCoverage));
      best.Some? && best.value.threshold == HighestPrecision(table).value.threshold
  {
    var d := HighestPrecision(table).value;
    HighestPrecisionIsHighest(rows, table);
    assert Key(CoveredPrecision(minCoverage), d) == d.metrics.precision;
    var b := Best(table, CoveredPrecision(minCoverage)).value;
    assert !Beats(CoveredPrecision(minCoverage), d, b);
  }

  /** When no candidate meets both targets, `min_precision` keeps its documented promise
      exactly when the row of highest precision has the coverage - or when no candidate
      with a precision has it and that row's threshold is the last one. */
  lemma MinPrecisionKeepsPromiseIff(
      rows: seq<Scored>, table: seq<Row>, targetPrecision: real, minCoverage: real)
    requires TableOf(rows, table) && HighestPrecision(table).Some?
    requires forall r :: r in table ==> !MeetsTargets(r, targetPrecision, minCoverage)
    ensures
      var d := HighestPrecision(table).value;
      var choice := SelectMinPrecision(table, targetPrecision, minCoverage);
      && choice.Some? && !choice.value.feasible
      && (choice.value.threshold == d.threshold <==>
            || d.metrics.coverage >= minCoverage
            || ((forall r :: r in table ==> Key(CoveredPrecision(minCoverage), r).None?)
                && table[|table| - 1].threshold == d.threshold))
  {
    var d := HighestPrecision(table).value;
    HighestPrecisionIsHighest(rows, table);
    if d.metrics.coverage >= minCoverage {
      CoveredHighestIsChosen(rows, table, minCoverage);
    } else if Best(table, CoveredPrecision(minCoverage)).Some? {
      var b := Best(table, CoveredPrecision(minCoverage)).value;
      assert RowAt(rows, b.threshold) == b && RowAt(rows, d.threshold) == d;
    }
  }

  predicate TwoRows(rows: seq<Scored>) {
    rows == [Scored(true, 0.9), Scored(false, 0.5)]
  }

  lemma TwoRowCell(rows: seq<Scored>, t: real, positive: bool, predicted: bool)
    requires TwoRows(rows)
    ensures Cell(rows, t, positive, predicted)
         == (if positive && (0.9 >= t) == predicted then 1 else 0)
            + (if !positive && (0.5 >= t) == predicted then 1 else 0)
  {
    var one := [rows[0]];
    assert rows[..1] == one && one[..0] == [];
    assert Cell(one, t, positive, predicted) == if positive && (0.9 >= t) == predicted then 1 else 0;
  }

  lemma SharesOf(c: Counts, n: real)
    requires c.Valid() && c.N() == n
    ensures MetricsOf(c).precision == Ratio(c.tp, c.PredPos()) && MetricsOf(c).coverage == c.PredPos() / n
  {
  }

  /** Precision and coverage of the two rows at a threshold of 0.5 or less, of at most 0.9,
      and above. */
  lemma TwoRowMetrics(rows: seq<Scored>, t: real)
    requires TwoRows(rows)
    ensures
      var m := RowAt(rows, t).metrics;
      if t <= 0.5 then m.precision == Some(0.5) && m.coverage == 1.0
      else if t <= 0.9 then m.precision == Some(1.0) && m.coverage == 0.5
      else m.precision == None && m.coverage == 0.0
  {
    CountsValid(rows, t);
    SharesOf(CountsAt(rows, t), 2.0);
    TwoRowCell(rows, t, true, true);
    TwoRowCell(rows, t, false, true);
  }

  /** The promise fails on two rows: the threshold 0.8 has precision 1 at half the coverage,
      and 0.4, of precision one half, is chosen. */
  lemma MinPrecisionBreaksPromise(rows: seq<Scored>) returns (table: seq<Row>)
    requires TwoRows(rows)
    ensures table == [RowAt(rows, 0.4), RowAt(rows, 0.8)]
    ensures SelectMinPrecision(table, 0.8, 0.75) == Some(Choice(0.4, false))
    ensures HighestPrecision(table).Some? && HighestPrecision(table).value.threshold == 0.8
  {
    TwoRowMetrics(rows, 0.4);
    TwoRowMetrics(rows, 0.8);
    var low, high := RowAt(rows, 0.4), RowAt(rows, 0.8);
    table := [low, high];
    assert table[0] in table && table[1] in table;
    assert forall r :: r in table ==> r == low || r == high;
    assert Key(CoveredPrecision(0.75), low) == Some(0.5) && Key(CoveredPrecision(0.75), high).None?;
    assert Key(CoveredPrecision(0.0), low) == Some(0.5) && Key(CoveredPrecision(0.0), high) == Some(1.0);
  }

  /** And it fails in the last resort: with no covered candidate, the last threshold, which
      predicts nothing, is chosen. */
  lemma LastResortBreaksPromise(rows: seq<Scored>) returns (table: seq<Row>)
    requires TwoRows(rows)
    ensures table == [RowAt(rows, 0.8), RowAt(rows, 0.95)]
    ensures SelectMinPrecision(table, 0.8, 0.75) == Some(Choice(0.95, false))
    ensures HighestPrecision(table).Some? && HighestPrecision(table).value.threshold == 0.8
  {
    TwoRowMetrics(rows, 0.8);
    TwoRowMetrics(rows, 0.95);
    var high, none := RowAt(rows, 0.8), RowAt(rows, 0.95);
    table := [high, none];
    assert table[0] in table && table[1] in table;
    assert forall r :: r in table ==> r == high || r == none;
    assert Key(CoveredPrecision(0.75), high).None? && Key(CoveredPrecision(0.75), none).None?;
    assert Key(CoveredPrecision(0.0), high) == Some(1.0) && Key(CoveredPrecision(0.0), none).None?;
  }

  // ----- `max_mcc`

  /** `root` takes the square root of every product of margins in the table. */
  predicate TakesRoots(table: seq<Row>, root: real -> real) {
    forall r :: r in table && r.counts.Margins() != 0.0 ==> IsRoot(root(r.counts.Margins()), r.counts.Margins())
  }

  function Mcc(r: Row, root: real -> real): Option<real> {
    var d := root(r.counts.Margins());
    if r.counts.Margins() == 0.0 || d == 0.0 then None else Some(r.counts.Cross() / d)
  }

  /** The lowest threshold of the greatest mcc. */
  ghost predicate LowestMccMaximiser(table: seq<Row>, root: real -> real, b: Row) {
    && b in table && Mcc(b, root).Some?
    && forall r :: r in table && Mcc(r, root).Some? ==>
         && Mcc(r, root).value <= Mcc(b, root).value
         && (Mcc(r, root) == Mcc(b, root) ==> b.threshold <= r.threshold)
  }

  lemma KeysOrderMcc(rows: seq<Scored>, table: seq<Row>, root: real -> real, r: Row, s: Row)
    requires TableOf(rows, table) && TakesRoots(table, root) && r in table && s in table
    ensures Key(Criterion.Mcc, r).Some? <==> Mcc(r, root).Some?
    ensures Mcc(r, root).Some? && Mcc(s, root).Some? ==>
      && Key(Criterion.Mcc, s).Some?
      && (Mcc(r, root).value < Mcc(s, root).value <==> Key(Criterion.Mcc, r).value < Key(Criterion.Mcc, s).value)
      && (Mcc(r, root).value == Mcc(s, root).value <==> Key(Criterion.Mcc, r).value == Key(Criterion.Mcc, s).value)
  {
    assert r == RowAt(rows, r.threshold) && s == RowAt(rows, s.threshold);
    if r.counts.Margins() != 0.0 && s.counts.Margins() != 0.0 {
      SignedSquareOrdersMcc(r.counts, s.counts, root(r.counts.Margins()), root(s.counts.Margins()));
    }
  }

  /** `max_mcc` fails iff mcc is undefined everywhere, and otherwise returns the lowest
      threshold that maximises mcc itself. */
  lemma MaxMccIsOptimal(rows: seq<Scored>, table: seq<Row>, root: real -> real)
    requires TableOf(rows, table) && TakesRoots(table, root)
    ensures
      var choice := SelectMaximum(Criterion.Mcc, table);
      && (choice.None? <==> forall r :: r in table ==> Mcc(r, root).None?)
      && (choice.Some? ==> exists b :: LowestMccMaximiser(table, root, b) && choice.value.threshold == b.threshold)
  {
    MaximumIsLowestBest(Criterion.Mcc, table);
    forall r, s | r in table && s in table
      ensures Key(Criterion.Mcc, r).Some? <==> Mcc(r, root).Some?
      ensures Mcc(r, root).Some? && Mcc(s, root).Some? ==>
        && Key(Criterion.Mcc, s).Some?
        && (Mcc(r, root).value < Mcc(s, root).value <==> Key(Criterion.Mcc, r).value < Key(Criterion.Mcc, s).value)
        && (Mcc(r, root).value == Mcc(s, root).value <==> Key(Criterion.Mcc, r).value == Key(Criterion.Mcc, s).value)
    {
      KeysOrderMcc(rows, table, root, r, s);
    }
    if SelectMaximum(Criterion.Mcc, table).Some? {
      var b :|
        LowestBest(Criterion.Mcc, table, b) && SelectMaximum(Criterion.Mcc, table).value.threshold == b.threshold;
      assert LowestMccMaximiser(table, root, b);
    }
  }
}
