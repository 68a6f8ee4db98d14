/**
 * The "Kappa intuition" notebook: its own `calculate_metrics` over the four
 * cells of a matrix, the Part 1 sweep of an always-"pass" evaluator, the
 * slider cell with its recall figures and verdict texts, and the Part 3
 * simulation with its alternative form of chance agreement.
 */
module KappaIntuition {
  import opened Agreement
  import opened KappaBands
  import opened Optional
  import Metrics

  /** The pair `calculate_metrics` returns. */
  datatype AccuracyKappa = AccuracyKappa(accuracy: real, kappa: real)

  /** `calculate_metrics(tp, tn, fp, fn)`: accuracy and kappa of a matrix, or (0, 0) when it is empty. */
  function CalculateMetrics(tp: nat, tn: nat, fp: nat, fn: nat): (r: AccuracyKappa)
    ensures tp + tn + fp + fn == 0 ==> r == AccuracyKappa(0.0, 0.0)
    ensures 0.0 <= r.accuracy <= 1.0 && r.kappa <= 1.0
  {
    var c := Counts(tp, fp, fn, tn);
    var n := tp + tn + fp + fn;
    if n == 0 then AccuracyKappa(0.0, 0.0)
    else
      var accuracy := Ratio(tp + tn, n);
      AccuracyKappa(accuracy, GuardedKappa(accuracy, ExpectedAgreement(c, n)))
  }

  /** For every matrix, empty or not, the notebook computes what the evaluator package computes. */
  lemma AgreesWithMetrics(tp: nat, tn: nat, fp: nat, fn: nat)
    ensures var c := Counts(tp, fp, fn, tn);
      CalculateMetrics(tp, tn, fp, fn) == AccuracyKappa(Metrics.AccuracyOf(c, Sum(c)), Metrics.KappaOf(c, Sum(c)))
  {
    var c := Counts(tp, fp, fn, tn);
    Metrics.GuardsCoincide(Ratio(tp + tn, Sum(c)), ExpectedAgreement(c, Sum(c)));
  }

  /** With tn = fn = 0, an evaluator that always says "pass", kappa is 0 whatever the split of the labels. */
  lemma AlwaysPassKappa(tp: nat, fp: nat)
    ensures CalculateMetrics(tp, 0, fp, 0).kappa == 0.0
  {
    AgreesWithMetrics(tp, 0, fp, 0);
    Metrics.SinglePredictionChance(Counts(tp, fp, 0, 0), tp + fp);
  }

  /**
   * One point of the Part 1 sweep: 100 samples, `int(100 * failRate)` of
   * them failures, all predicted "pass". Accuracy falls with the failure
   * rate while kappa stays 0.
   */
  function AlwaysPassPoint(failRate: real): (r: AccuracyKappa)
    requires 0.0 <= failRate <= 1.0
    ensures r.kappa == 0.0
    ensures 0.0 <= r.accuracy <= 1.0
  {
    var n := 100;
    var nFail := Trunc(n as real * failRate);
    var nPass := n - nFail;
    AlwaysPassKappa(nPass, nFail);
    CalculateMetrics(nPass, 0, nFail, 0)
  }

  /** The notebook's headline case: with 10% failures the always-"pass" evaluator is 90% accurate and has kappa 0. */
  lemma NinetyPercentAccurateAlwaysPass()
    ensures AlwaysPassPoint(0.1) == AccuracyKappa(0.9, 0.0)
  {
    assert Trunc(100.0 * 0.1) == 10;
    assert Ratio(90, 100) == 0.9;
  }

  /** The figures the slider cell shows for a non-empty matrix. */
  datatype SliderReading = SliderReading(
    accuracy: real, kappa: real, failRecall: real, passRecall: real,
    kappaVerdict: string, failRecallVerdict: string)

  const Good: string := "\U{2713} Good"
  const TooLow: string := "\U{26A0}\U{FE0F} Too low"

  /** The slider cell: nothing but a prompt for an empty matrix, otherwise the figures and their verdicts. */
  function SliderCell(tp: nat, tn: nat, fp: nat, fn: nat): (r: Option<SliderReading>)
    ensures r.None? <==> tp + tn + fp + fn == 0
    ensures r.Some? ==> r.value.failRecall == ReportedFailRecall(Counts(tp, fp, fn, tn))
    ensures r.Some? ==> r.value.passRecall == Metrics.ScoreClass(tp, fp, fn).recall
    ensures r.Some? ==> r.value.kappaVerdict == Wording(BandOf(r.value.kappa))
    ensures r.Some? ==> (r.value.failRecallVerdict == Good <==> r.value.failRecall >= 0.8)
  {
    if tp + tn + fp + fn == 0 then None
    else
      var m := CalculateMetrics(tp, tn, fp, fn);
      var failRecall := ReportedFailRecall(Counts(tp, fp, fn, tn));
      var passRecall := Ratio(tp, tp + fn);
      Some(SliderReading(m.accuracy, m.kappa, failRecall, passRecall,
                         InterpretKappa(m.kappa), FailRecallVerdict(failRecall)))
  }

  /** The accuracy and kappa the slider cell shows are the evaluator package's for the sliders' matrix. */
  lemma SliderAgreesWithMetrics(tp: nat, tn: nat, fp: nat, fn: nat)
    requires tp + tn + fp + fn > 0
    ensures var c := Counts(tp, fp, fn, tn);
      var r := SliderCell(tp, tn, fp, fn).value;
      r.accuracy == Metrics.AccuracyOf(c, Sum(c)) && r.kappa == Metrics.KappaOf(c, Sum(c))
  {
    AgreesWithMetrics(tp, tn, fp, fn);
  }

  /** The slider cell's kappa wording. */
  function InterpretKappa(kappa: real): (s: string)
    ensures s == Wording(BandOf(kappa))
  {
    if kappa < 0.0 then "Worse than chance"
    else if kappa < 0.2 then "Slight"
    else if kappa < 0.4 then "Fair"
    else if kappa < 0.6 then "Substantial \U{2713}"
    else if kappa < 0.8 then "Excellent \U{2713}\U{2713}"
    else "Near-perfect \U{2713}\U{2713}\U{2713}"
  }

  /**
   * One pass-labelled response wrongly failed and one fail-labelled response
   * rightly failed: every failure was caught, yet the slider shows a "fail
   * recall" of one half and calls it too low.
   */
  lemma SliderFailRecallMisses()
    ensures var r := SliderCell(0, 1, 0, 1).value;
      r.failRecall == 0.5 && r.failRecallVerdict == TooLow
    ensures FailRecall(Counts(0, 0, 1, 1)) == 1.0
  {
  }

  /** The wording this notebook gives each band. */
  function Wording(b: Band): string {
    match b
    case WorseThanChance => "Worse than chance"
    case Slight => "Slight"
    case Fair => "Fair"
    case Substantial => "Substantial \U{2713}"
    case Excellent => "Excellent \U{2713}\U{2713}"
    case NearPerfect => "Near-perfect \U{2713}\U{2713}\U{2713}"
  }

  /** The fail-recall verdict: good exactly from the 80% target up. */
  function FailRecallVerdict(failRecall: real): (s: string)
    ensures s == Good <==> failRecall >= 0.8
    ensures s == Good || s == TooLow
  {
    if failRecall >= 0.8 then Good else TooLow
  }

  /**
   * The matrix of the Part 3 simulation at one failure rate: 200 samples,
   * `int(200 * failRate)` failures, 90% of the passes and 75% of the
   * failures (both truncated) judged correctly.
   */
  function SimulatedCounts(failRate: real): (c: Counts)
    requires 0.0 <= failRate <= 1.0
    ensures Sum(c) == 200
    ensures c.tp + c.fn == 200 - Trunc(200.0 * failRate)
    ensures c.tn + c.fp == Trunc(200.0 * failRate)
  {
    var nFail := Trunc(200.0 * failRate);
    var nPass := 200 - nFail;
    var tp := Trunc(nPass as real * 0.9);
    var tn := Trunc(nFail as real * 0.75);
    Counts(tp, nFail - tn, nPass - tp, tn)
  }

  /** One record of the Part 3 simulation. */
  datatype SimPoint = SimPoint(failRate: real, accuracy: real, kappa: real, failRecall: real)

  /** Chance agreement as Part 3 writes it: from the two "pass" shares and their complements. */
  function ComplementChance(pPredPass: real, pTruePass: real): real {
    pPredPass * pTruePass + (1.0 - pPredPass) * (1.0 - pTruePass)
  }

  /** The Part 3 loop body for one failure rate. */
  function SimulatePoint(failRate: real): (p: SimPoint)
    requires 0.0 <= failRate <= 1.0
    ensures p.failRate == failRate
    ensures 0.0 <= p.accuracy <= 1.0 && 0.0 <= p.failRecall <= 1.0
    ensures p.failRecall == ReportedFailRecall(SimulatedCounts(failRate))
  {
    var c := SimulatedCounts(failRate);
    var total := c.tp + c.tn + c.fp + c.fn;
    var accuracy := Ratio(c.tp + c.tn, total);
    var pe := ComplementChance(Ratio(c.tp + c.fp, total), Ratio(c.tp + c.fn, total));
    SimPoint(failRate, accuracy, GuardedKappa(accuracy, pe), ReportedFailRecall(c))
  }

  /**
   * When every sample falls in a cell, the complement form of chance
   * agreement equals the four-marginal form of `calculate_metrics`.
   */
  lemma ComplementChanceAgrees(c: Counts, total: nat)
    requires 0 < total && Sum(c) == total
    ensures ComplementChance(Ratio(c.tp + c.fp, total), Ratio(c.tp + c.fn, total)) == ExpectedAgreement(c, total)
  {
    RatioAdd(c.tp + c.fp, c.tn + c.fn, total);
    RatioAdd(c.tp + c.fn, c.tn + c.fp, total);
    assert Ratio(total, total) == 1.0;
  }

  /** Hence the simulation's kappa is the evaluator package's kappa of the simulated matrix. */
  lemma SimulationAgreesWithMetrics(failRate: real)
    requires 0.0 <= failRate <= 1.0
    ensures SimulatePoint(failRate).kappa == Metrics.KappaOf(SimulatedCounts(failRate), 200)
    ensures SimulatePoint(failRate).accuracy == Metrics.AccuracyOf(SimulatedCounts(failRate), 200)
  {
    var c := SimulatedCounts(failRate);
    ComplementChanceAgrees(c, 200);
    Metrics.GuardsCoincide(Ratio(c.tp + c.tn, 200), ExpectedAgreement(c, 200));
  }

  /**
   * At a failure rate of one half the simulated evaluator catches 75 of the
   * 100 failures, yet the "fail recall" the simulation plots is 75/85,
   * above the 80% target line.
   */
  lemma SimulatedFailRecallOverstates()
    ensures SimulatedCounts(0.5) == Counts(90, 25, 10, 75)
    ensures SimulatePoint(0.5).failRecall == 15.0 / 17.0 > 0.8
    ensures FailRecall(SimulatedCounts(0.5)) == 0.75 < 0.8
  {
    assert Trunc(200.0 * 0.5) == 100;
    assert Trunc(100 as real * 0.9) == 90;
    assert Trunc(100 as real * 0.75) == 75;
  }
}
