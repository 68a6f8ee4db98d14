/**
 * The metrics engine of the evaluator package: the confusion matrix over a
 * list of (label, pred) results, accuracy, precision / recall / F1 for both
 * classes, Cohen's Kappa, the Wald confidence interval for accuracy and the
 * textual interpretation of a kappa value.
 */
module Metrics {
  import opened Agreement
  import opened KappaBands
  import opened Optional

  /** The range of `math.sqrt`, which is otherwise left uninterpreted. */
  type NonNegReal = r: real | 0.0 <= r

  datatype Interval = Interval(lower: real, upper: real)

  /** The dictionary `calculate_metrics` returns. */
  datatype Report = Report(
    total: nat, tp: nat, fp: nat, fn: nat, tn: nat,
    accuracy: real, accuracyCi: Interval,
    passScores: ClassScores, failScores: ClassScores,
    kappa: real)

  function Min(a: real, b: real): real {
    if a <= b then a else b
  }

  function Max(a: real, b: real): real {
    if a <= b then b else a
  }

  predicate InUnit(x: real) {
    0.0 <= x <= 1.0
  }

  /** Harmonic mean of precision and recall, or 0 when both are 0. */
  function F1(precision: real, recall: real): (f: real)
    ensures precision + recall <= 0.0 ==> f == 0.0
    ensures 0.0 <= precision && 0.0 <= recall && precision + recall > 0.0 ==>
      Min(precision, recall) <= f <= Max(precision, recall)
  {
    if precision + recall > 0.0 then
      var f := 2.0 * precision * recall / (precision + recall);
      if 0.0 <= precision && 0.0 <= recall then
        HarmonicMeanBetween(precision, recall);
        f
      else
        f
    else
      0.0
  }

  lemma HarmonicMeanBetween(p: real, q: real)
    requires 0.0 <= p && 0.0 <= q && p + q > 0.0
    ensures Min(p, q) <= 2.0 * p * q / (p + q) <= Max(p, q)
  {
    var s := p + q;
    var f := 2.0 * p * q / s;
    assert f * s == 2.0 * p * q;
    if p <= q {
      assert p * s <= 2.0 * p * q by { assert p * s == p * p + p * q; assert p * p <= p * q; }
      assert 2.0 * p * q <= q * s by { assert q * s == p * q + q * q; assert p * q <= q * q; }
      DivideBetween(p, q, 2.0 * p * q, s);
    } else {
      assert q * s <= 2.0 * p * q by { assert q * s == p * q + q * q; assert q * q <= p * q; }
      assert 2.0 * p * q <= p * s by { assert p * s == p * p + p * q; assert p * q <= p * p; }
      DivideBetween(q, p, 2.0 * p * q, s);
    }
  }

  lemma DivideBetween(lo: real, hi: real, x: real, s: real)
    requires s > 0.0 && lo * s <= x <= hi * s
    ensures lo <= x / s <= hi
  {
  }

  /** `(p_observed - p_expected) / (1 - p_expected) if p_expected < 1 else 0`. */
  function Kappa(po: real, pe: real): (k: real)
    ensures pe >= 1.0 ==> k == 0.0
    ensures po == pe ==> k == 0.0
    ensures po <= 1.0 ==> k <= 1.0
    ensures pe < 1.0 ==> (k == 1.0 <==> po == 1.0)
  {
    if pe < 1.0 then CohenKappa(po, pe) else 0.0
  }

  /** Since chance agreement never exceeds 1, the `!=` guard of the calculator script and the notebooks and the `<` guard here select the same kappa. */
  lemma GuardsCoincide(po: real, pe: real)
    requires pe <= 1.0
    ensures GuardedKappa(po, pe) == Kappa(po, pe)
  {
  }

  /** The z-score for a confidence level: 95% and 99% are recognised, anything else gets the 90% value. */
  function ZScore(confidence: real): (z: real)
    ensures z > 0.0
  {
    if confidence == 0.95 then 1.96 else if confidence == 0.99 then 2.576 else 1.645
  }

  /**
   * `confidence_interval(accuracy, n, confidence)`: the Wald interval clipped to [0, 1].
   * `math.sqrt` raises on a negative argument, which only a negative `n` can produce.
   */
  function ConfidenceInterval(accuracy: real, n: int, confidence: real, sqrt: real -> NonNegReal): (r: Result<Interval>)
    ensures n == 0 ==> r == Ok(Interval(0.0, 0.0))
    ensures n > 0 && InUnit(accuracy) ==>
      r.Ok? && 0.0 <= r.value.lower <= accuracy <= r.value.upper <= 1.0
    ensures n < 0 && 0.0 < accuracy < 1.0 ==> r.Err?
    ensures r.Ok? && 0.0 < r.value.lower && r.value.upper < 1.0 ==>
      accuracy - r.value.lower == r.value.upper - accuracy
  {
    if n == 0 then Ok(Interval(0.0, 0.0))
    else
      var z := ZScore(confidence);
      var variance := accuracy * (1.0 - accuracy) / n as real;
      assert n > 0 && InUnit(accuracy) ==> variance >= 0.0 by {
        if n > 0 && InUnit(accuracy) {
          NonNegativeProduct(accuracy, 1.0 - accuracy);
          NonNegativeQuotient(accuracy * (1.0 - accuracy), n as real);
        }
      }
      assert n < 0 && 0.0 < accuracy < 1.0 ==> variance < 0.0 by {
        if n < 0 && 0.0 < accuracy < 1.0 {
          NegativeQuotient(accuracy * (1.0 - accuracy), n as real);
        }
      }
      if variance < 0.0 then
        Err("math domain error")
      else
        var se := sqrt(variance);
        assert z * se >= 0.0;
        Ok(Interval(Max(0.0, accuracy - z * se), Min(1.0, accuracy + z * se)))
  }

  lemma NonNegativeProduct(a: real, b: real)
    requires a >= 0.0 && b >= 0.0
    ensures a * b >= 0.0
  {
  }

  lemma NonNegativeQuotient(a: real, d: real)
    requires a >= 0.0 && d > 0.0
    ensures a / d >= 0.0
  {
  }

  lemma NegativeQuotient(a: real, d: real)
    requires a > 0.0 && d < 0.0
    ensures a / d < 0.0
  {
  }

  /** Precision, recall and F1 of one class. */
  datatype ClassScores = ClassScores(precision: real, recall: real, f1: real)

  /**
   * The scores of a class from its hits, its false alarms (predicted as the
   * class but labelled otherwise) and its misses (labelled as the class but
   * predicted otherwise); every ratio is 0 when its denominator is 0.
   */
  function ScoreClass(hits: nat, falseAlarms: nat, misses: nat): (s: ClassScores)
    ensures InUnit(s.precision) && InUnit(s.recall) && InUnit(s.f1)
    ensures s.precision * (hits + falseAlarms) as real == hits as real
    ensures s.recall * (hits + misses) as real == hits as real
    ensures hits == 0 ==> s == ClassScores(0.0, 0.0, 0.0)
  {
    var precision := Ratio(hits, hits + falseAlarms);
    var recall := Ratio(hits, hits + misses);
    ClassScores(precision, recall, F1(precision, recall))
  }

  /**
   * `calculate_metrics(results)`: the confusion matrix of `results`, and
   * every metric derived from it by the steps below.
   */
  function CalculateMetrics(results: seq<Judgement>, sqrt: real -> NonNegReal): (r: Report)
    ensures r.total == |results|
    ensures Counts(r.tp, r.fp, r.fn, r.tn) == Tally(results)
    ensures r.tp + r.fp + r.fn + r.tn <= r.total
    ensures r.accuracy == AccuracyOf(Tally(results), |results|)
    ensures r.passScores == ScoreClass(r.tp, r.fp, r.fn)
    ensures r.failScores == ScoreClass(r.tn, r.fn, r.fp)
    ensures r.kappa == KappaOf(Tally(results), |results|)
    ensures r.accuracyCi == AccuracyInterval(r.accuracy, r.total, sqrt)
  {
    var c := Tally(results);
    var total := |results|;
    TallyCovers(results);
    var accuracy := AccuracyOf(c, total);
    Report(total, c.tp, c.fp, c.fn, c.tn, accuracy, AccuracyInterval(accuracy, total, sqrt),
           ScoreClass(c.tp, c.fp, c.fn), ScoreClass(c.tn, c.fn, c.fp), KappaOf(c, total))
  }

  /** Accuracy and kappa lie where the source documents them, and the accuracy lies inside its interval. */
  lemma ReportBounds(results: seq<Judgement>, sqrt: real -> NonNegReal)
    ensures var r := CalculateMetrics(results, sqrt);
      InUnit(r.accuracy) && r.kappa <= 1.0 && 0.0 <= r.accuracyCi.lower <= r.accuracy <= r.accuracyCi.upper <= 1.0
  {
    var r := CalculateMetrics(results, sqrt);
    var c := Tally(results);
    TallyCovers(results);
    assert r.accuracy == AccuracyOf(c, |results|);
    assert InUnit(r.accuracy) && (r.total == 0 ==> r.accuracy == 0.0);
    assert r.accuracyCi == AccuracyInterval(r.accuracy, r.total, sqrt);
  }

  /** Every precision, recall and F1 of a report lies in [0, 1]. */
  lemma ScoresInUnit(results: seq<Judgement>, sqrt: real -> NonNegReal)
    ensures var r := CalculateMetrics(results, sqrt);
      && InUnit(r.passScores.precision) && InUnit(r.passScores.recall) && InUnit(r.passScores.f1)
      && InUnit(r.failScores.precision) && InUnit(r.failScores.recall) && InUnit(r.failScores.f1)
  {
  }

  /** `accuracy = (tp + tn) / total if total > 0 else 0`. */
  function AccuracyOf(c: Counts, total: nat): (a: real)
    requires Sum(c) <= total
    ensures InUnit(a)
    ensures total == 0 ==> a == 0.0
    ensures total > 0 ==> a * total as real == (c.tp + c.tn) as real
  {
    Ratio(c.tp + c.tn, total)
  }

  /** Step 6: kappa from the accuracy and the marginal shares. */
  function KappaOf(c: Counts, total: nat): (k: real)
    requires Sum(c) <= total
    ensures k <= 1.0
  {
    Kappa(AccuracyOf(c, total), ExpectedAgreement(c, total))
  }

  /**
   * Step 7: the 95% interval. `ConfidenceInterval` only fails for a negative
   * sample count, which `calculate_metrics` never passes, so the `Err` case
   * below is never taken from there.
   */
  function AccuracyInterval(accuracy: real, total: nat, sqrt: real -> NonNegReal): (i: Interval)
    ensures ConfidenceInterval(accuracy, total, 0.95, sqrt).Ok? ==> ConfidenceInterval(accuracy, total, 0.95, sqrt) == Ok(i)
    ensures InUnit(accuracy) && (total == 0 ==> accuracy == 0.0) ==> 0.0 <= i.lower <= accuracy <= i.upper <= 1.0
  {
    match ConfidenceInterval(accuracy, total, 0.95, sqrt)
    case Ok(i) => i
    case Err(_) => Interval(0.0, 0.0)
  }

  /** The expected agreement `calculate_metrics` uses for its kappa. */
  function ExpectedOf(results: seq<Judgement>): real {
    ExpectedAgreement(Tally(results), |results|)
  }

  /** `interpret_kappa(kappa)`. */
  function InterpretKappa(kappa: real): (s: string)
    ensures s == Wording(BandOf(kappa))
  {
    if kappa < 0.0 then "Worse than chance"
    else if kappa < 0.2 then "Slight agreement"
    else if kappa < 0.4 then "Fair agreement"
    else if kappa < 0.6 then "Substantial agreement (TARGET)"
    else if kappa < 0.8 then "Excellent agreement"
    else "Near-perfect agreement"
  }

  /** The wording this module gives each band. */
  function Wording(b: Band): string {
    match b
    case WorseThanChance => "Worse than chance"
    case Slight => "Slight agreement"
    case Fair => "Fair agreement"
    case Substantial => "Substantial agreement (TARGET)"
    case Excellent => "Excellent agreement"
    case NearPerfect => "Near-perfect agreement"
  }

  /** Distinct bands are worded differently, so the text identifies the band. */
  lemma WordingInjective(b1: Band, b2: Band)
    ensures Wording(b1) == Wording(b2) ==> b1 == b2
  {
  }

  /** Reordering `results` changes nothing in the report. */
  lemma PermutationInvariant(a: seq<Judgement>, b: seq<Judgement>, sqrt: real -> NonNegReal)
    requires multiset(a) == multiset(b)
    ensures CalculateMetrics(a, sqrt) == CalculateMetrics(b, sqrt)
  {
    TallyPermutation(a, b);
  }

  /** An empty list yields the defined degenerate values instead of a division by zero. */
  lemma EmptyResults(sqrt: real -> NonNegReal)
    ensures var r := CalculateMetrics([], sqrt);
      r.total == 0 && r.accuracy == 0.0 && r.kappa == 0.0 && r.accuracyCi == Interval(0.0, 0.0)
      && r.passScores == ClassScores(0.0, 0.0, 0.0) && r.failScores == ClassScores(0.0, 0.0, 0.0)
  {
  }

  /**
   * The fail-class scores mean what their names say: recall is the share of
   * responses labelled "fail" that were predicted "fail", precision the share
   * of "fail" predictions whose label is "fail".
   */
  lemma FailScoresMeaning(results: seq<Judgement>, sqrt: real -> NonNegReal)
    requires AllVerdicts(results)
    ensures var r := CalculateMetrics(results, sqrt);
      && r.failScores.recall == Ratio(CountCell(results, Fail, Fail), CountTruth(results, Fail))
      && r.failScores.precision == Ratio(CountCell(results, Fail, Fail), CountPred(results, Fail))
  {
    var c := Tally(results);
    assert CalculateMetrics(results, sqrt).failScores == ScoreClass(c.tn, c.fn, c.fp);
    assert forall i :: 0 <= i < |results| ==> IsVerdict(results[i].pred);
    assert forall i :: 0 <= i < |results| ==> IsVerdict(results[i].truth);
    MarginalCounts(results);
    assert c.tn == CountCell(results, Fail, Fail);
    assert CountTruth(results, Fail) == c.tn + c.fp;
    assert CountPred(results, Fail) == c.tn + c.fn;
    ClassScoresMeaning(CalculateMetrics(results, sqrt).failScores, c.tn, c.fn, c.fp,
                       CountCell(results, Fail, Fail), CountTruth(results, Fail), CountPred(results, Fail));
  }

  /** Likewise for the pass class. */
  lemma PassScoresMeaning(results: seq<Judgement>, sqrt: real -> NonNegReal)
    requires AllVerdicts(results)
    ensures var r := CalculateMetrics(results, sqrt);
      && r.passScores.recall == Ratio(CountCell(results, Pass, Pass), CountTruth(results, Pass))
      && r.passScores.precision == Ratio(CountCell(results, Pass, Pass), CountPred(results, Pass))
  {
    var c := Tally(results);
    assert CalculateMetrics(results, sqrt).passScores == ScoreClass(c.tp, c.fp, c.fn);
    assert forall i :: 0 <= i < |results| ==> IsVerdict(results[i].pred);
    assert forall i :: 0 <= i < |results| ==> IsVerdict(results[i].truth);
    MarginalCounts(results);
    assert c.tp == CountCell(results, Pass, Pass);
    assert CountTruth(results, Pass) == c.tp + c.fn;
    assert CountPred(results, Pass) == c.tp + c.fp;
    ClassScoresMeaning(CalculateMetrics(results, sqrt).passScores, c.tp, c.fp, c.fn,
                       CountCell(results, Pass, Pass), CountTruth(results, Pass), CountPred(results, Pass));
  }

  /** The scores of a class whose hits, labelled and predicted counts are given: recall and precision are their ratios. */
  lemma ClassScoresMeaning(s: ClassScores, hits: nat, falseAlarms: nat, misses: nat, hitCount: nat, labelled: nat, predicted: nat)
    requires s == ScoreClass(hits, falseAlarms, misses)
    requires hitCount == hits && labelled == hits + misses && predicted == hits + falseAlarms
    ensures s.recall == Ratio(hitCount, labelled) && s.precision == Ratio(hitCount, predicted)
  {
  }

  /** Chance agreement of a perfectly agreeing matrix: the sum of the squared class shares. */
  lemma PerfectChance(tp: nat, tn: nat)
    requires tp + tn > 0
    ensures AccuracyOf(Counts(tp, 0, 0, tn), tp + tn) == 1.0
    ensures tp > 0 && tn > 0 ==> ExpectedAgreement(Counts(tp, 0, 0, tn), tp + tn) < 1.0
    ensures tp == 0 || tn == 0 ==> ExpectedAgreement(Counts(tp, 0, 0, tn), tp + tn) == 1.0
  {
    var n := tp + tn;
    var a := Ratio(tp, n);
    var b := Ratio(tn, n);
    RatioAdd(tp, tn, n);
    assert Ratio(n, n) == 1.0;
    assert a + b == 1.0;
    assert ExpectedAgreement(Counts(tp, 0, 0, tn), n) == a * a + b * b;
    if tp > 0 && tn > 0 {
      assert a > 0.0 && b > 0.0;
      assert (a + b) * (a + b) == a * a + b * b + 2.0 * a * b;
      PositiveProduct(a, b);
    }
  }

  lemma PositiveProduct(a: real, b: real)
    requires a > 0.0 && b > 0.0
    ensures a * b > 0.0
  {
  }

  /**
   * When every prediction equals its (valid) label, kappa is 1 exactly when
   * both classes occur; with a single class, chance agreement is 1 and the
   * guard yields 0.
   */
  lemma PerfectAgreementKappa(results: seq<Judgement>, sqrt: real -> NonNegReal)
    requires |results| > 0 && AllVerdicts(results)
    requires forall i :: 0 <= i < |results| ==> results[i].pred == results[i].truth
    ensures var r := CalculateMetrics(results, sqrt);
      && r.accuracy == 1.0
      && (r.kappa == 1.0 <==> r.tp > 0 && r.tn > 0)
      && (r.tp == 0 || r.tn == 0 ==> ExpectedOf(results) == 1.0 && r.kappa == 0.0)
  {
    PerfectAgreementTally(results);
    var c := Tally(results);
    PerfectChance(c.tp, c.tn);
    assert c == Counts(c.tp, 0, 0, c.tn);
  }

  /** With one predicted class, chance agreement is the share of that class among the labels, which is also the accuracy. */
  lemma SinglePredictionChance(c: Counts, total: nat)
    requires (c.fn == 0 && c.tn == 0 && c.tp + c.fp == total) || (c.tp == 0 && c.fp == 0 && c.fn + c.tn == total)
    ensures ExpectedAgreement(c, total) == AccuracyOf(c, total)
    ensures KappaOf(c, total) == 0.0
  {
    if total > 0 {
      assert Ratio(total, total) == 1.0;
      assert Ratio(0, total) == 0.0;
    }
  }

  /** If the evaluator always gives the same verdict, chance agreement equals observed agreement and kappa is 0. */
  lemma SinglePredictionKappa(results: seq<Judgement>, v: string, sqrt: real -> NonNegReal)
    requires IsVerdict(v)
    requires forall i :: 0 <= i < |results| ==> results[i].pred == v && IsVerdict(results[i].truth)
    ensures ExpectedOf(results) == CalculateMetrics(results, sqrt).accuracy
    ensures CalculateMetrics(results, sqrt).kappa == 0.0
  {
    SinglePredictionTally(results, v);
    SinglePredictionChance(Tally(results), |results|);
  }

  /** A 99% interval contains the 95% interval, which contains the default (90%) one. */
  lemma IntervalsNest(accuracy: real, n: nat, other: real, sqrt: real -> NonNegReal)
    requires n > 0 && InUnit(accuracy)
    requires other != 0.95 && other != 0.99
    ensures var i90 := ConfidenceInterval(accuracy, n, other, sqrt).value;
      var i95 := ConfidenceInterval(accuracy, n, 0.95, sqrt).value;
      var i99 := ConfidenceInterval(accuracy, n, 0.99, sqrt).value;
      i99.lower <= i95.lower <= i90.lower && i90.upper <= i95.upper <= i99.upper
  {
    var variance := accuracy * (1.0 - accuracy) / n as real;
    NonNegativeProduct(accuracy, 1.0 - accuracy);
    NonNegativeQuotient(accuracy * (1.0 - accuracy), n as real);
    var se := sqrt(variance);
    assert 1.645 * se <= 1.96 * se <= 2.576 * se;
  }

  /**
   * The documented example: accuracy 0.8 over 50 samples gives roughly
   * [0.689, 0.911], given a `sqrt` that is exact at 0.0032.
   */
  lemma WaldExample(sqrt: real -> NonNegReal)
    requires sqrt(0.0032) * sqrt(0.0032) == 0.0032
    ensures var i := ConfidenceInterval(0.8, 50, 0.95, sqrt).value;
      0.689 < i.lower < 0.6892 && 0.9108 < i.upper < 0.911
  {
    var se := sqrt(0.0032);
    assert 0.8 * (1.0 - 0.8) / 50 as real == 0.0032;
    SquareRootBounds(se, 0.0032, 0.05656, 0.05657);
  }

  /** A non-negative square root of `x` lies between `lo` and `hi` when `lo * lo < x < hi * hi`. */
  lemma SquareRootBounds(s: real, x: real, lo: real, hi: real)
    requires 0.0 <= s && s * s == x && 0.0 <= lo && 0.0 <= hi
    requires lo * lo < x < hi * hi
    ensures lo < s < hi
  {
    if s <= lo {
      MonotoneSquare(s, lo);
    }
    if hi <= s {
      MonotoneSquare(hi, s);
    }
  }

  lemma MonotoneSquare(a: real, b: real)
    requires 0.0 <= a <= b
    ensures a * a <= b * b
  {
    assert a * a <= a * b <= b * b;
  }
}
