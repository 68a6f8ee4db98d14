/**
 * The "Understanding evals" notebook: `calculate_kappa_detailed` over two
 * lists, its 90/10 always-"pass" scenario, and the slider cell that derives
 * the metrics and their interpretation from four counts.
 */
module UnderstandingEvals {
  import opened Agreement
  import opened Optional
  import opened Sequences
  import Metrics
  import KappaCalculator

  /** The dictionary `calculate_kappa_detailed` returns. */
  datatype Detailed = Detailed(accuracy: real, observed: real, expected: real, kappa: real, confusion: Counts)

  /**
   * `calculate_kappa_detailed(predictions, ground_truth)`. The counts run
   * over `zip`, which stops at the shorter list, but every share divides by
   * the number of predictions, and an empty prediction list divides by zero.
   */
  function CalculateKappaDetailed(predictions: seq<string>, groundTruth: seq<string>): (r: Result<Detailed>)
    ensures r.Err? <==> |predictions| == 0
    ensures r.Ok? ==> r.value.accuracy == r.value.observed
    ensures r.Ok? ==> r.value.confusion == Tally(Zip(predictions, groundTruth))
    ensures r.Ok? ==> 0.0 <= r.value.observed <= 1.0 && 0.0 <= r.value.expected <= 1.0 && r.value.kappa <= 1.0
    ensures r.Ok? && r.value.expected == 1.0 ==> r.value.kappa == 0.0
  {
    var n := |predictions|;
    if n == 0 then Err("division by zero")
    else
      var js := Zip(predictions, groundTruth);
      TallyCovers(js);
      var c := Tally(js);
      var po := Ratio(c.tp + c.tn, n);
      var pe := ExpectedAgreement(c, n);
      Ok(Detailed(po, po, pe, GuardedKappa(po, pe), c))
  }

  /** With valid verdicts and lists of equal length, the four counts add up to the number of predictions. */
  lemma ConfusionCoversAll(predictions: seq<string>, groundTruth: seq<string>)
    requires |predictions| == |groundTruth| > 0
    requires forall i :: 0 <= i < |predictions| ==> IsVerdict(predictions[i]) && IsVerdict(groundTruth[i])
    ensures Sum(CalculateKappaDetailed(predictions, groundTruth).value.confusion) == |predictions|
  {
    TallyCovers(Zip(predictions, groundTruth));
  }

  /** On lists of equal length the notebook and the calculator script report the same figures. */
  lemma AgreesWithCalculator(predictions: seq<string>, groundTruth: seq<string>)
    requires |predictions| == |groundTruth| > 0
    ensures var d := CalculateKappaDetailed(predictions, groundTruth).value;
      var s := KappaCalculator.CalculateMetrics(predictions, groundTruth).value;
      d.accuracy == s.accuracy && d.expected == s.pe && d.kappa == s.kappa && d.confusion == s.matrix
  {
  }

  /** A run of one judgement counts only in that judgement's cell. */
  lemma {:induction false} CountCellRepeat(j: Judgement, k: nat, truth: string, pred: string)
    ensures CountCell(Repeat(j, k), truth, pred) == if j == Judgement(truth, pred) then k else 0
  {
    if k > 0 {
      CountCellRepeat(j, k - 1, truth, pred);
      assert Repeat(j, k)[1..] == Repeat(j, k - 1);
    }
  }

  /** A run of one pair of agreeing passes fills only the true-positive cell. */
  lemma AgreeingPassesTally(k: nat)
    ensures Tally(Repeat(Judgement(Pass, Pass), k)) == Counts(k, 0, 0, 0)
  {
    assert Pass != Fail by { assert Pass[0] != Fail[0]; }
    CountCellRepeat(Judgement(Pass, Pass), k, Pass, Pass);
    CountCellRepeat(Judgement(Pass, Pass), k, Fail, Pass);
    CountCellRepeat(Judgement(Pass, Pass), k, Pass, Fail);
    CountCellRepeat(Judgement(Pass, Pass), k, Fail, Fail);
  }

  /** A run of failures called "pass" fills only the false-positive cell. */
  lemma MissedFailuresTally(k: nat)
    ensures Tally(Repeat(Judgement(Fail, Pass), k)) == Counts(0, k, 0, 0)
  {
    assert Pass != Fail by { assert Pass[0] != Fail[0]; }
    CountCellRepeat(Judgement(Fail, Pass), k, Pass, Pass);
    CountCellRepeat(Judgement(Fail, Pass), k, Fail, Pass);
    CountCellRepeat(Judgement(Fail, Pass), k, Pass, Fail);
    CountCellRepeat(Judgement(Fail, Pass), k, Fail, Fail);
  }

  /** The pairs of the 90/10 scenario: 90 agreeing passes, then 10 failures called "pass". */
  lemma ImbalancedPairs()
    ensures Zip(Repeat(Pass, 100), Repeat(Pass, 90) + Repeat(Fail, 10))
         == Repeat(Judgement(Pass, Pass), 90) + Repeat(Judgement(Fail, Pass), 10)
  {
    var js := Zip(Repeat(Pass, 100), Repeat(Pass, 90) + Repeat(Fail, 10));
    var e := Repeat(Judgement(Pass, Pass), 90) + Repeat(Judgement(Fail, Pass), 10);
    assert |js| == |e|;
    forall i | 0 <= i < |js| ensures js[i] == e[i] {
      if i < 90 {
        assert e[i] == Judgement(Pass, Pass);
      } else {
        assert e[i] == Repeat(Judgement(Fail, Pass), 10)[i - 90];
      }
    }
  }

  /** The matrix of the 90/10 scenario. */
  lemma ImbalancedTally()
    ensures Tally(Zip(Repeat(Pass, 100), Repeat(Pass, 90) + Repeat(Fail, 10))) == Counts(90, 10, 0, 0)
  {
    ImbalancedPairs();
    TallyAppend(Repeat(Judgement(Pass, Pass), 90), Repeat(Judgement(Fail, Pass), 10));
    AgreeingPassesTally(90);
    MissedFailuresTally(10);
  }

  /**
   * The 90/10 scenario: always predicting "pass" against 90 passes and 10
   * failures agrees 90% of the time, exactly as often as chance, so kappa is 0.
   */
  lemma ImbalancedScenario()
    ensures var r := CalculateKappaDetailed(Repeat(Pass, 100), Repeat(Pass, 90) + Repeat(Fail, 10));
      r.Ok? && r.value.observed == 0.9 && r.value.expected == 0.9 && r.value.kappa == 0.0
  {
    ImbalancedTally();
    assert Ratio(90, 100) == 0.9;
    assert ExpectedAgreement(Counts(90, 10, 0, 0), 100) == 0.9 by {
      assert Ratio(100, 100) == 1.0 && Ratio(0, 100) == 0.0 && Ratio(10, 100) == 0.1;
    }
  }

  /** The figures the slider cell shows for a non-empty matrix. */
  datatype Reading = Reading(accuracy: real, kappa: real, failRecall: real, interpretation: string)

  /** The slider cell: a prompt for an empty matrix, otherwise accuracy, kappa, "fail recall" and the kappa band. */
  function SliderCell(tp: nat, tn: nat, fp: nat, fn: nat): (r: Option<Reading>)
    ensures r.None? <==> tp + tn + fp + fn == 0
    ensures r.Some? ==> 0.0 <= r.value.accuracy <= 1.0 && r.value.kappa <= 1.0
    ensures r.Some? ==> r.value.failRecall == ReportedFailRecall(Counts(tp, fp, fn, tn))
    ensures r.Some? ==> r.value.interpretation == Metrics.InterpretKappa(r.value.kappa)
  {
    var c := Counts(tp, fp, fn, tn);
    var n := tp + tn + fp + fn;
    if n == 0 then None
    else
      var accuracy := Ratio(tp + tn, n);
      var pe := ExpectedAgreement(c, n);
      var kappa := GuardedKappa(accuracy, pe);
      Some(Reading(accuracy, kappa, ReportedFailRecall(c), Interpret(kappa)))
  }

  /**
   * The sliders name fn "missed failures" and fp "false alarms", yet the
   * matrix the cell displays puts fn at predicted fail / actual pass, and its
   * chance agreement counts fn among the actual passes. Read with the sliders'
   * labels, a slider fn is a fail-labelled response passed (the evaluator
   * package's fp) and a slider fp a pass-labelled response failed (its fn).
   * Under that reading the cell's "fail recall" is the true recall of the fail
   * class, and its kappa is the package's under either reading.
   */
  lemma SliderLabelReading(tp: nat, tn: nat, fp: nat, fn: nat)
    requires tp + tn + fp + fn > 0
    ensures var r := SliderCell(tp, tn, fp, fn).value;
      var labelled := Counts(tp, fn, fp, tn);
      r.failRecall == FailRecall(labelled) && r.kappa == Metrics.KappaOf(labelled, Sum(labelled))
  {
    var c := Counts(tp, fp, fn, tn);
    SliderAgreesWithMetrics(tp, tn, fp, fn);
    ExpectedAgreementTransposed(c, Sum(c));
  }

  /**
   * One response on the true-negative slider and one on the false-negative
   * slider. As the cell displays the matrix, the one actual failure was
   * caught, so the fail recall is 1; the cell shows one half, which is the
   * recall only under the sliders' own labels.
   */
  lemma SliderReadingsDisagree()
    ensures var r := SliderCell(0, 1, 0, 1).value;
      r.failRecall == 0.5 && r.failRecall == FailRecall(Counts(0, 1, 0, 1))
    ensures FailRecall(Counts(0, 0, 1, 1)) == 1.0
  {
  }

  /** The slider cell's if-chain over the kappa bands. */
  function Interpret(kappa: real): (s: string)
    ensures s == Metrics.InterpretKappa(kappa)
  {
    if kappa < 0.0 then "Worse than chance"
    else if kappa < 0.2 then "Slight agreement"
    else if kappa < 0.4 then "Fair agreement"
    else if kappa < 0.6 then "Substantial agreement (TARGET)"
    else if kappa < 0.8 then "Excellent agreement"
    else "Near-perfect agreement"
  }

  /** For a non-empty matrix the slider cell's accuracy and kappa are the evaluator package's. */
  lemma SliderAgreesWithMetrics(tp: nat, tn: nat, fp: nat, fn: nat)
    requires tp + tn + fp + fn > 0
    ensures var c := Counts(tp, fp, fn, tn);
      var r := SliderCell(tp, tn, fp, fn).value;
      r.accuracy == Metrics.AccuracyOf(c, Sum(c)) && r.kappa == Metrics.KappaOf(c, Sum(c))
  {
    var c := Counts(tp, fp, fn, tn);
    Metrics.GuardsCoincide(Ratio(tp + tn, Sum(c)), ExpectedAgreement(c, Sum(c)));
  }
}
