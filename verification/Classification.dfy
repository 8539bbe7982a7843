/** Metrics of one confusion matrix (evaluation/metrics.py,
    `classification_metrics_from_counts`). */
module Classification {
  import opened Wrappers
  import opened RealSums

  datatype Counts = Counts(tn: real, fp: real, fn: real, tp: real) {
    function N(): real { tn + fp + fn + tp }
    function Pos(): real { tp + fn }
    function Neg(): real { tn + fp }
    function PredPos(): real { tp + fp }
    function PredNeg(): real { tn + fn }
    /** The numerator of the Matthews coefficient. */
    function Cross(): real { tp * tn - fp * fn }
    /** The radicand of its denominator. */
    function Margins(): real { (tp + fp) * (tp + fn) * (tn + fp) * (tn + fn) }
    predicate Valid() { tn >= 0.0 && fp >= 0.0 && fn >= 0.0 && tp >= 0.0 && N() > 0.0 }
  }

  function Ratio(num: real, den: real): Option<real> {
    if den == 0.0 then None else Some(num / den)
  }

  /** `math.isclose(x, 1.0)`. */
  predicate CloseToOne(x: real) {
    Abs(x - 1.0) <= 0.000000001 * (if Abs(x) > 1.0 then Abs(x) else 1.0)
  }

  datatype Metrics = Metrics(
    accuracy: real, precision: Option<real>, recall: Option<real>, specificity: Option<real>, npv: Option<real>,
    fpr: Option<real>, fnr: Option<real>, f1: Option<real>, balancedAccuracy: Option<real>,
    signedSquaredMcc: Option<real>, kappa: Option<real>, coverage: real)

  function ObservedAgreement(c: Counts): real
    requires c.N() != 0.0
  {
    (c.tp + c.tn) / c.N()
  }

  function ExpectedAgreement(c: Counts): real
    requires c.N() != 0.0
  {
    (c.PredPos() * c.Pos() + c.PredNeg() * c.Neg()) / (c.N() * c.N())
  }

  /** mcc * |mcc|, which needs no square root and orders matrices as mcc does. */
  function SignedSquaredMcc(c: Counts): Option<real> {
    Ratio(c.Cross() * Abs(c.Cross()), c.Margins())
  }

  /** Undefined where chance alone agrees. */
  function Kappa(c: Counts): Option<real>
    requires c.N() != 0.0
  {
    var pe := ExpectedAgreement(c);
    if CloseToOne(pe) || pe == 1.0 then None else Some((ObservedAgreement(c) - pe) / (1.0 - pe))
  }

  function MetricsOf(c: Counts): Metrics
    requires c.Valid()
  {
    var recall, specificity := Ratio(c.tp, c.Pos()), Ratio(c.tn, c.Neg());
    Metrics(
      (c.tp + c.tn) / c.N(), Ratio(c.tp, c.PredPos()), recall, specificity, Ratio(c.tn, c.PredNeg()),
      Ratio(c.fp, c.Neg()), Ratio(c.fn, c.Pos()), Ratio(2.0 * c.tp, 2.0 * c.tp + c.fp + c.fn),
      if recall.None? || specificity.None? then None else Some((recall.value + specificity.value) / 2.0),
      SignedSquaredMcc(c),
      Kappa(c),
      c.PredPos() / c.N())
  }

  // ----- Quotients

  lemma Quotient(x: real, y: real)
    requires y > 0.0
    ensures (x / y) * y == x
    ensures 0.0 <= x <= y ==> 0.0 <= x / y <= 1.0
  {
  }

  lemma Cancel(a: real, b: real, s: real)
    requires s > 0.0
    ensures a * s == b * s ==> a == b
    ensures a * s <= b * s ==> a <= b
  {
  }

  /** recall + specificity - 1 is the cross product over the true margins. */
  lemma Informedness(c: Counts)
    requires c.Valid() && c.Pos() > 0.0 && c.Neg() > 0.0
    ensures (c.tp / c.Pos() + c.tn / c.Neg() - 1.0) * (c.Pos() * c.Neg()) == c.Cross()
    ensures -1.0 <= c.tp / c.Pos() + c.tn / c.Neg() - 1.0 <= 1.0
  {
    var r, s := c.tp / c.Pos(), c.tn / c.Neg();
    Quotient(c.tp, c.Pos());
    Quotient(c.tn, c.Neg());
    Expand(r, s, c.Pos(), c.Neg(), c.tp, c.tn);
    assert c.tp * c.Neg() + c.tn * c.Pos() - c.Pos() * c.Neg() == c.Cross();
  }

  lemma Expand(r: real, s: real, x: real, y: real, rx: real, sy: real)
    requires r * x == rx && s * y == sy
    ensures (r + s - 1.0) * (x * y) == rx * y + sy * x - x * y
  {
    assert r * (x * y) == (r * x) * y;
    assert s * (x * y) == (s * y) * x;
  }

  lemma Markedness(c: Counts)
    requires c.Valid() && c.PredPos() > 0.0 && c.PredNeg() > 0.0
    ensures (c.tp / c.PredPos() + c.tn / c.PredNeg() - 1.0) * (c.PredPos() * c.PredNeg()) == c.Cross()
    ensures -1.0 <= c.tp / c.PredPos() + c.tn / c.PredNeg() - 1.0 <= 1.0
  {
    Quotient(c.tp, c.PredPos());
    Quotient(c.tn, c.PredNeg());
    Expand(c.tp / c.PredPos(), c.tn / c.PredNeg(), c.PredPos(), c.PredNeg(), c.tp, c.tn);
    assert c.tp * c.PredNeg() + c.tn * c.PredPos() - c.PredPos() * c.PredNeg() == c.Cross();
  }

  function InformednessOf(c: Counts): real
    requires c.Pos() > 0.0 && c.Neg() > 0.0
  {
    c.tp / c.Pos() + c.tn / c.Neg() - 1.0
  }

  function MarkednessOf(c: Counts): real
    requires c.PredPos() > 0.0 && c.PredNeg() > 0.0
  {
    c.tp / c.PredPos() + c.tn / c.PredNeg() - 1.0
  }

  lemma InformednessProduct(c: Counts) returns (i: real, x: real)
    requires c.Valid() && c.Pos() > 0.0 && c.Neg() > 0.0
    ensures i == InformednessOf(c) && IsProduct(c.Pos(), c.Neg(), x) && IsProduct(i, x, c.Cross())
  {
    Informedness(c);
    i, x := InformednessOf(c), c.Pos() * c.Neg();
  }

  lemma MarkednessProduct(c: Counts) returns (m: real, y: real)
    requires c.Valid() && c.PredPos() > 0.0 && c.PredNeg() > 0.0
    ensures m == MarkednessOf(c) && IsProduct(c.PredPos(), c.PredNeg(), y) && IsProduct(m, y, c.Cross())
  {
    Markedness(c);
    m, y := MarkednessOf(c), c.PredPos() * c.PredNeg();
  }

  predicate IsRoot(root: real, x: real) {
    root > 0.0 && root * root == x
  }

  /** i * m is the square of cross / root once root^2 is the product of the margins. */
  lemma ProductOfQuotients(i: real, m: real, x: real, y: real, cross: real, root: real, margins: real)
    requires IsProduct(i, x, cross) && IsProduct(m, y, cross) && IsRoot(root, margins) && IsProduct(x, y, margins)
    ensures IsProduct(cross / root, cross / root, i * m)
  {
    var q := cross / root;
    Positive(root, root, margins);
    assert q * root == cross;
    assert (i * m) * margins == (i * x) * (m * y);
    assert (q * q) * margins == (q * root) * (q * root);
    Cancel(q * q, i * m, margins);
  }

  lemma UnitProduct(i: real, m: real)
    requires -1.0 <= i <= 1.0 && -1.0 <= m <= 1.0
    ensures i * m <= 1.0
  {
    if i >= 0.0 {
      assert i * m <= i;
    } else {
      assert (-i) * (-m) <= -i;
    }
  }

  predicate AllMargins(c: Counts) {
    c.Valid() && c.Pos() > 0.0 && c.Neg() > 0.0 && c.PredPos() > 0.0 && c.PredNeg() > 0.0
  }

  lemma MarginsPositive(c: Counts)
    requires c.Valid()
    ensures c.Margins() != 0.0 <==> AllMargins(c)
    ensures c.Margins() == (c.Pos() * c.Neg()) * (c.PredPos() * c.PredNeg())
  {
    var a, b, d, e := c.PredPos(), c.Pos(), c.Neg(), c.PredNeg();
    Regroup(a, b, d, e);
    if AllMargins(c) {
      Positive(b, d, b * d);
      Positive(a, e, a * e);
      Positive(b * d, a * e, (b * d) * (a * e));
    } else if b == 0.0 || d == 0.0 {
      assert b * d == 0.0;
    } else {
      assert a * e == 0.0;
    }
  }

  lemma Positive(x: real, y: real, product: real)
    requires x > 0.0 && y > 0.0 && product == x * y
    ensures product > 0.0
  {
  }

  /** When the Matthews coefficient is defined, its square is the product of
      informedness and markedness, and at most 1. `root` is the square root taken. */
  lemma MccIdentity(c: Counts, root: real)
    requires c.Valid() && c.Margins() != 0.0 && IsRoot(root, c.Margins())
    ensures
      var m := MetricsOf(c);
      var mcc := c.Cross() / root;
      && m.recall.Some? && m.specificity.Some? && m.precision.Some? && m.npv.Some?
      && mcc * mcc
         == (m.recall.value + m.specificity.value - 1.0) * (m.precision.value + m.npv.value - 1.0)
      && mcc * mcc <= 1.0
  {
    MarginsPositive(c);
    var i, m := SquaredMcc(c, root);
    InformednessTimesMarkedness(c);
  }

  lemma InformednessTimesMarkedness(c: Counts)
    requires AllMargins(c)
    ensures InformednessOf(c) * MarkednessOf(c) <= 1.0
  {
    Informedness(c);
    Markedness(c);
    UnitProduct(InformednessOf(c), MarkednessOf(c));
  }

  lemma SquaredMcc(c: Counts, root: real) returns (i: real, m: real)
    requires AllMargins(c) && IsRoot(root, c.Margins())
    ensures i == InformednessOf(c) && m == MarkednessOf(c)
    ensures IsProduct(c.Cross() / root, c.Cross() / root, i * m)
  {
    var x, y;
    i, x := InformednessProduct(c);
    m, y := MarkednessProduct(c);
    MarginsProduct(c, x, y);
    ProductOfQuotients(i, m, x, y, c.Cross(), root, c.Margins());
  }

  lemma MarginsProduct(c: Counts, x: real, y: real)
    requires IsProduct(c.Pos(), c.Neg(), x) && IsProduct(c.PredPos(), c.PredNeg(), y)
    ensures IsProduct(x, y, c.Margins())
  {
    Regroup(c.PredPos(), c.Pos(), c.Neg(), c.PredNeg());
  }

  lemma Regroup(a: real, b: real, d: real, e: real)
    ensures a * b * d * e == (b * d) * (a * e)
  {
  }

  // ----- The order of mcc

  function SignedSquare(x: real): real {
    x * Abs(x)
  }

  lemma SquareGrows(x: real, y: real)
    requires 0.0 <= x < y
    ensures x * x < y * y
  {
    NonNegativeProduct(x, y - x);
    Positive(y, y - x, y * (y - x));
    assert y * y - x * x == y * (y - x) + x * (y - x);
  }

  lemma SignedSquareGrows(x: real, y: real)
    requires x < y
    ensures SignedSquare(x) < SignedSquare(y)
  {
    if x >= 0.0 {
      SquareGrows(x, y);
    } else if y <= 0.0 {
      SquareGrows(-y, -x);
      assert SignedSquare(x) == -(-x * -x) && SignedSquare(y) == -(-y * -y);
    } else {
      Positive(-x, -x, -x * -x);
      Positive(y, y, y * y);
    }
  }

  lemma SignedSquareOfQuotient(cross: real, root: real, margins: real)
    requires root > 0.0 && margins == root * root
    ensures margins > 0.0 && SignedSquare(cross / root) == cross * Abs(cross) / margins
  {
    var q := cross / root;
    Positive(root, root, margins);
    assert q * root == cross;
    assert Abs(q) * root == Abs(cross);
    assert (q * Abs(q)) * margins == (q * root) * (Abs(q) * root);
    Quotient(cross * Abs(cross), margins);
    Cancel(q * Abs(q), cross * Abs(cross) / margins, margins);
  }

  lemma MccSquare(c: Counts, root: real)
    requires IsRoot(root, c.Margins())
    ensures SignedSquaredMcc(c).Some? && SignedSquaredMcc(c).value == SignedSquare(c.Cross() / root)
  {
    SignedSquareOfQuotient(c.Cross(), root, c.Margins());
  }

  /** The signed square orders confusion matrices as mcc does; `rc` and `rd` are the square
      roots taken. */
  lemma SignedSquareOrdersMcc(c: Counts, d: Counts, rc: real, rd: real)
    requires IsRoot(rc, c.Margins()) && IsRoot(rd, d.Margins())
    ensures SignedSquaredMcc(c).Some? && SignedSquaredMcc(d).Some?
    ensures c.Cross() / rc < d.Cross() / rd <==> SignedSquaredMcc(c).value < SignedSquaredMcc(d).value
    ensures c.Cross() / rc == d.Cross() / rd <==> SignedSquaredMcc(c).value == SignedSquaredMcc(d).value
  {
    MccSquare(c, rc);
    MccSquare(d, rd);
    SignedSquareOrders(c.Cross() / rc, d.Cross() / rd);
  }

  lemma SignedSquareOrders(x: real, y: real)
    ensures x < y <==> SignedSquare(x) < SignedSquare(y)
    ensures x == y <==> SignedSquare(x) == SignedSquare(y)
  {
    if x < y {
      SignedSquareGrows(x, y);
    } else if y < x {
      SignedSquareGrows(y, x);
    }
  }

  // ----- Kappa

  function ChanceMass(c: Counts): real {
    c.PredPos() * c.Pos() + c.PredNeg() * c.Neg()
  }

  lemma ChanceMassBounds(c: Counts)
    requires c.Valid()
    ensures 0.0 <= ChanceMass(c) <= c.N() * c.N()
  {
    assert c.N() * c.N() == (c.PredPos() + c.PredNeg()) * (c.Pos() + c.Neg());
    Square(c.PredPos(), c.PredNeg(), c.Pos(), c.Neg());
    NonNegativeProduct(c.PredPos(), c.Neg());
    NonNegativeProduct(c.PredNeg(), c.Pos());
    NonNegativeProduct(c.PredPos(), c.Pos());
    NonNegativeProduct(c.PredNeg(), c.Neg());
  }

  lemma Square(a: real, b: real, x: real, y: real)
    ensures (a + b) * (x + y) == a * x + b * y + a * y + b * x
  {
  }

  lemma AgreementPolynomial(tn: real, fp: real, fn: real, tp: real)
    ensures (tp + tn) * (tn + fp + fn + tp) - ((tp + fp) * (tp + fn) + (tn + fn) * (tn + fp))
         == 2.0 * (tp * tn - fp * fn)
  {
  }

  lemma AgreementQuotients(agree: real, chance: real, n: real, square: real, twice: real)
    requires n > 0.0 && square == n * n && agree * n - chance == twice
    ensures square > 0.0 && (agree / n - chance / square) * square == twice
  {
    Positive(n, n, square);
    Quotient(agree, n);
    Quotient(chance, square);
    var po, pe := agree / n, chance / square;
    assert po * square == (po * n) * n;
    assert (po - pe) * square == po * square - pe * square;
  }

  /** p_o - p_e is twice the cross product over n^2. */
  lemma AgreementGap(c: Counts, square: real)
    requires c.Valid() && square == c.N() * c.N()
    ensures square > 0.0
    ensures (ObservedAgreement(c) - ExpectedAgreement(c)) * square == 2.0 * c.Cross()
  {
    AgreementPolynomial(c.tn, c.fp, c.fn, c.tp);
    AgreementQuotients(c.tp + c.tn, ChanceMass(c), c.N(), square, 2.0 * c.Cross());
  }

  lemma ChanceAtMostOne(c: Counts)
    requires c.Valid()
    ensures ExpectedAgreement(c) <= 1.0
  {
    ChanceMassBounds(c);
    Positive(c.N(), c.N(), c.N() * c.N());
    Quotient(ChanceMass(c), c.N() * c.N());
  }

  lemma SameSign(x: real, scale: real, y: real)
    requires scale > 0.0 && x * scale == y
    ensures (x > 0.0 <==> y > 0.0) && (x < 0.0 <==> y < 0.0)
  {
  }

  /** Cohen's kappa, where defined, has the sign of the cross product and so of mcc. */
  lemma KappaHasTheSignOfMcc(c: Counts)
    requires c.Valid() && MetricsOf(c).kappa.Some?
    ensures
      var kappa := MetricsOf(c).kappa.value;
      (kappa > 0.0 <==> c.Cross() > 0.0) && (kappa < 0.0 <==> c.Cross() < 0.0)
  {
    ChanceAtMostOne(c);
    GapHasTheSignOfCross(c);
    QuotientSign(ObservedAgreement(c) - ExpectedAgreement(c), 1.0 - ExpectedAgreement(c));
  }

  /** Kappa is the agreement beyond chance as a share of what is possible beyond chance, each
      times n^2; it is 1 where nothing is misclassified. */
  lemma KappaIsChanceCorrected(c: Counts, square: real)
    requires c.Valid() && MetricsOf(c).kappa.Some? && square == c.N() * c.N()
    ensures IsProduct(MetricsOf(c).kappa.value, square - ChanceMass(c), (c.tp + c.tn) * c.N() - ChanceMass(c))
    ensures c.fp == 0.0 && c.fn == 0.0 ==> MetricsOf(c).kappa.value == 1.0
  {
    KappaField(c);
    KappaTimesRoom(c, square);
    if c.fp == 0.0 && c.fn == 0.0 {
      PerfectKappa(c);
    }
  }

  lemma KappaField(c: Counts)
    requires c.Valid()
    ensures MetricsOf(c).kappa == Kappa(c)
  {
  }

  lemma KappaTimesRoom(c: Counts, square: real)
    requires c.Valid() && Kappa(c).Some? && square == c.N() * c.N()
    ensures IsProduct(Kappa(c).value, square - ChanceMass(c), (c.tp + c.tn) * c.N() - ChanceMass(c))
  {
    var po, pe := AgreementsOf(c, square);
    KappaQuotient(c.tp + c.tn, ChanceMass(c), c.N(), square, po, pe);
  }

  lemma AgreementsOf(c: Counts, square: real) returns (po: real, pe: real)
    requires c.Valid() && Kappa(c).Some? && square == c.N() * c.N()
    ensures square > 0.0 && pe != 1.0
    ensures po == ObservedAgreement(c) && po == (c.tp + c.tn) / c.N()
    ensures pe == ExpectedAgreement(c) && pe == ChanceMass(c) / square
    ensures Kappa(c).value == (po - pe) / (1.0 - pe)
  {
    po, pe := ObservedAgreement(c), ExpectedAgreement(c);
    Positive(c.N(), c.N(), square);
  }

  lemma PerfectKappa(c: Counts)
    requires c.Valid() && c.fp == 0.0 && c.fn == 0.0 && Kappa(c).Some?
    ensures Kappa(c).value == 1.0
  {
    SelfQuotient(c.tp + c.tn, c.N());
    ChanceAtMostOne(c);
    SelfQuotient(ObservedAgreement(c) - ExpectedAgreement(c), 1.0 - ExpectedAgreement(c));
  }

  lemma SelfQuotient(x: real, y: real)
    requires x == y && y > 0.0
    ensures x / y == 1.0
  {
    Quotient(x, y);
    Cancel(x / y, 1.0, y);
  }

  lemma KappaQuotient(agree: real, chance: real, n: real, square: real, po: real, pe: real)
    requires n > 0.0 && square == n * n && square > 0.0
    requires po == agree / n && pe == chance / square && pe != 1.0
    ensures IsProduct((po - pe) / (1.0 - pe), square - chance, agree * n - chance)
  {
    Quotient(agree, n);
    Quotient(chance, square);
    var k := (po - pe) / (1.0 - pe);
    assert k * (1.0 - pe) == po - pe;
    assert (1.0 - pe) * square == square - chance;
    assert po * square == (po * n) * n;
    assert (po - pe) * square == agree * n - chance;
    assert k * (square - chance) == (k * (1.0 - pe)) * square;
  }

  lemma GapHasTheSignOfCross(c: Counts)
    requires c.Valid()
    ensures
      var gap := ObservedAgreement(c) - ExpectedAgreement(c);
      (gap > 0.0 <==> c.Cross() > 0.0) && (gap < 0.0 <==> c.Cross() < 0.0)
  {
    var square := c.N() * c.N();
    AgreementGap(c, square);
    SameSign(ObservedAgreement(c) - ExpectedAgreement(c), square, 2.0 * c.Cross());
  }

  lemma QuotientSign(x: real, y: real)
    requires y > 0.0
    ensures (x / y > 0.0 <==> x > 0.0) && (x / y < 0.0 <==> x < 0.0)
  {
    Quotient(x, y);
    SameSign(x / y, y, x);
  }

  // ----- F1 and balanced accuracy

  lemma QuotientOrder(x: real, y: real, z: real)
    requires 0.0 < y <= z && x >= 0.0
    ensures x / z <= x / y
  {
    Quotient(x, y);
    Quotient(x, z);
    NonNegativeProduct(x / y, z - y);
    assert (x / y) * (z - y) == (x / y) * z - (x / y) * y;
    Cancel(x / z, x / y, z);
  }

  lemma MediantIsBetween(x: real, y: real, z: real)
    requires x >= 0.0 && 0.0 < y <= z
    ensures x / z <= 2.0 * x / (y + z) <= x / y
  {
    var middle := (y + z) / 2.0;
    QuotientOrder(x, y, middle);
    QuotientOrder(x, middle, z);
    Quotient(x, middle);
    Quotient(2.0 * x, y + z);
    assert (x / middle) * (y + z) == 2.0 * ((x / middle) * middle);
    Cancel(2.0 * x / (y + z), x / middle, y + z);
  }

  /** F1 lies between precision and recall. */
  lemma F1IsBetween(c: Counts)
    requires c.Valid() && MetricsOf(c).f1.Some? && MetricsOf(c).precision.Some? && MetricsOf(c).recall.Some?
    ensures
      var m := MetricsOf(c);
      || m.precision.value <= m.f1.value <= m.recall.value
      || m.recall.value <= m.f1.value <= m.precision.value
  {
    assert 2.0 * c.tp + c.fp + c.fn == c.PredPos() + c.Pos();
    if c.PredPos() <= c.Pos() {
      MediantIsBetween(c.tp, c.PredPos(), c.Pos());
    } else {
      MediantIsBetween(c.tp, c.Pos(), c.PredPos());
    }
  }

  lemma RateFields(c: Counts)
    requires c.Valid()
    ensures
      var m := MetricsOf(c);
      && m.precision == Ratio(c.tp, c.PredPos()) && m.npv == Ratio(c.tn, c.PredNeg())
      && m.recall == Ratio(c.tp, c.Pos()) && m.fnr == Ratio(c.fn, c.Pos())
      && m.specificity == Ratio(c.tn, c.Neg()) && m.fpr == Ratio(c.fp, c.Neg())
      && m.f1 == Ratio(2.0 * c.tp, 2.0 * c.tp + c.fp + c.fn)
      && m.accuracy == (c.tp + c.tn) / c.N() && m.coverage == c.PredPos() / c.N()
  {
  }

  lemma HarmonicMean(x: real, y: real, z: real, f: real)
    requires x > 0.0 && y > 0.0 && z > 0.0 && f == 2.0 * x / (y + z)
    ensures x / y > 0.0 && x / z > 0.0 && f * (1.0 / (x / y) + 1.0 / (x / z)) == 2.0
  {
    Reciprocal(x, y);
    Reciprocal(x, z);
    Quotient(2.0 * x, y + z);
    Twice(x, y, z, f);
  }

  /** F1 is the harmonic mean of precision and recall, 0 without a true positive, and undefined
      iff there is neither a positive nor a predicted one. */
  lemma F1IsHarmonicMean(c: Counts)
    requires c.Valid()
    ensures
      var m := MetricsOf(c);
      && (m.f1.None? <==> c.Pos() == 0.0 && c.PredPos() == 0.0)
      && (m.f1.Some? && c.tp == 0.0 ==> m.f1.value == 0.0)
      && (c.tp > 0.0 ==>
            && m.f1.Some? && m.precision.Some? && m.recall.Some? && m.precision.value > 0.0 && m.recall.value > 0.0
            && m.f1.value * (1.0 / m.precision.value + 1.0 / m.recall.value) == 2.0)
  {
    RateFields(c);
    F1OfCells(c.tp, c.fp, c.fn);
  }

  lemma F1OfCells(tp: real, fp: real, fn: real)
    requires tp >= 0.0 && fp >= 0.0 && fn >= 0.0
    ensures
      var f, p, r := Ratio(2.0 * tp, 2.0 * tp + fp + fn), Ratio(tp, tp + fp), Ratio(tp, tp + fn);
      && (f.None? <==> tp + fn == 0.0 && tp + fp == 0.0)
      && (f.Some? && tp == 0.0 ==> f.value == 0.0)
      && (tp > 0.0 ==>
            && f.Some? && p.Some? && r.Some? && p.value > 0.0 && r.value > 0.0
            && f.value * (1.0 / p.value + 1.0 / r.value) == 2.0)
  {
    if tp > 0.0 {
      HarmonicMean(tp, tp + fp, tp + fn, 2.0 * tp / (tp + fp + (tp + fn)));
      assert 2.0 * tp + fp + fn == tp + fp + (tp + fn);
    }
  }

  lemma Reciprocal(x: real, y: real)
    requires x > 0.0 && y > 0.0
    ensures x / y > 0.0 && 1.0 / (x / y) == y / x
  {
    Quotient(x, y);
    SameSign(x / y, y, x);
    Quotient(y, x);
    Quotient(1.0, x / y);
    assert (y / x) * (x / y) == 1.0;
    Cancel(1.0 / (x / y), y / x, x / y);
  }

  lemma Twice(x: real, y: real, z: real, f: real)
    requires x > 0.0 && f * (y + z) == 2.0 * x
    ensures f * (y / x + z / x) == 2.0
  {
    Quotient(y, x);
    Quotient(z, x);
    assert (f * (y / x + z / x)) * x == f * (y + z);
    Cancel(f * (y / x + z / x), 2.0, x);
  }

  /** `m` is the quotient of `num` by `den`, and undefined iff that is 0. */
  predicate IsQuotient(m: Option<real>, num: real, den: real) {
    (m.None? <==> den == 0.0) && (m.Some? ==> IsProduct(m.value, den, num))
  }

  lemma RatioIsQuotient(num: real, den: real)
    requires den >= 0.0
    ensures IsQuotient(Ratio(num, den), num, den)
  {
    if den > 0.0 {
      Quotient(num, den);
    }
  }

  /** The rates by what they count: shares of the predicted and of the actual classes, and of
      all samples. */
  lemma RatesAreShares(c: Counts)
    requires c.Valid()
    ensures
      var m := MetricsOf(c);
      && IsQuotient(m.precision, c.tp, c.tp + c.fp) && IsQuotient(m.npv, c.tn, c.tn + c.fn)
      && IsQuotient(m.recall, c.tp, c.tp + c.fn) && IsQuotient(m.fnr, c.fn, c.tp + c.fn)
      && IsQuotient(m.specificity, c.tn, c.tn + c.fp) && IsQuotient(m.fpr, c.fp, c.tn + c.fp)
      && IsProduct(m.accuracy, c.tn + c.fp + c.fn + c.tp, c.tp + c.tn)
      && IsProduct(m.coverage, c.tn + c.fp + c.fn + c.tp, c.tp + c.fp)
  {
    RateFields(c);
    RatioIsQuotient(c.tp, c.PredPos());
    RatioIsQuotient(c.tn, c.PredNeg());
    RatioIsQuotient(c.tp, c.Pos());
    RatioIsQuotient(c.fn, c.Pos());
    RatioIsQuotient(c.tn, c.Neg());
    RatioIsQuotient(c.fp, c.Neg());
    QuotientIsProduct(c.tp + c.tn, c.N());
    QuotientIsProduct(c.PredPos(), c.N());
  }

  lemma QuotientIsProduct(x: real, y: real)
    requires y > 0.0
    ensures IsProduct(x / y, y, x)
  {
    Quotient(x, y);
  }

  lemma Complement(x: real, y: real, whole: real)
    requires whole > 0.0 && x + y == whole
    ensures x / whole == 1.0 - y / whole
  {
    Quotient(x, whole);
    Quotient(y, whole);
    assert (x / whole + y / whole) * whole == x + y;
    Cancel(x / whole + y / whole, 1.0, whole);
  }

  /** Maximising balanced accuracy is maximising TPR - FPR. */
  lemma BalancedAccuracyIsYouden(c: Counts)
    requires c.Valid()
    ensures
      var m := MetricsOf(c);
      && (m.balancedAccuracy.Some? <==> c.Pos() > 0.0 && c.Neg() > 0.0)
      && (m.balancedAccuracy.Some? ==>
            m.recall.Some? && m.fpr.Some? && m.balancedAccuracy.value == (m.recall.value - m.fpr.value + 1.0) / 2.0)
  {
    if c.Neg() > 0.0 {
      Complement(c.tn, c.fp, c.Neg());
    }
  }
}
