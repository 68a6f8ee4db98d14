/**
 * The stand-alone Cohen's Kappa calculator script: its own copy of the
 * metric computation over two parallel lists of verdicts, its own wording of
 * the kappa bands, and the four demonstration scenarios.
 */
module KappaCalculator {
  import opened Agreement
  import opened KappaBands
  import opened Optional
  import Metrics

  /** The dictionary `calculate_metrics` returns. */
  datatype Summary = Summary(accuracy: real, kappa: real, failRecall: real, matrix: Counts, pe: real)

  /**
   * `calculate_metrics(predictions, ground_truth)`. It raises in two ways:
   * the assertion on equal lengths, and the division by `n`, which has no
   * guard for empty lists.
   */
  function CalculateMetrics(predictions: seq<string>, groundTruth: seq<string>): (r: Result<Summary>)
    ensures r.Ok? <==> |predictions| == |groundTruth| && |predictions| > 0
    ensures r.Ok? ==> r.value.matrix == Tally(Zip(predictions, groundTruth))
    ensures r.Ok? ==> 0.0 <= r.value.accuracy <= 1.0 && 0.0 <= r.value.failRecall <= 1.0
    ensures r.Ok? ==> 0.0 <= r.value.pe <= 1.0 && r.value.kappa <= 1.0
    ensures r.Ok? && r.value.pe == 1.0 ==> r.value.kappa == 0.0
  {
    if |predictions| != |groundTruth| then Err("Lists must be same length")
    else if |predictions| == 0 then Err("division by zero")
    else
      var js := Zip(predictions, groundTruth);
      TallyCovers(js);
      Ok(Summarize(Tally(js), |predictions|))
  }

  /**
   * The metrics of a matrix over `n > 0` samples. The marginal shares are
   * plain quotients here; with `n > 0` they are the values `ExpectedAgreement`
   * computes behind its guard.
   */
  function Summarize(c: Counts, n: nat): (s: Summary)
    requires 0 < n && Sum(c) <= n
    ensures s.matrix == c
    ensures 0.0 <= s.accuracy <= 1.0 && 0.0 <= s.failRecall <= 1.0
    ensures 0.0 <= s.pe <= 1.0 && s.kappa <= 1.0
    ensures s.pe == 1.0 ==> s.kappa == 0.0
  {
    var accuracy := Ratio(c.tp + c.tn, n);
    var po := Ratio(c.tp + c.tn, n);
    var pe := ExpectedAgreement(c, n);
    Summary(accuracy, GuardedKappa(po, pe), ReportedFailRecall(c), c, pe)
  }

  /**
   * Over the same matrix the script and the evaluator package agree on
   * accuracy, chance agreement and kappa; what the script calls fail recall
   * is the package's fail precision.
   */
  lemma SummaryAgreesWithMetrics(c: Counts, n: nat)
    requires 0 < n && Sum(c) <= n
    ensures var s := Summarize(c, n);
      && s.accuracy == Metrics.AccuracyOf(c, n)
      && s.pe == ExpectedAgreement(c, n)
      && s.kappa == Metrics.KappaOf(c, n)
      && s.failRecall == Metrics.ScoreClass(c.tn, c.fn, c.fp).precision
  {
    Metrics.GuardsCoincide(Ratio(c.tp + c.tn, n), ExpectedAgreement(c, n));
  }

  /** The same agreement, stated over the lists: the script's results are the package's results for the zipped pairs. */
  lemma AgreesWithMetrics(predictions: seq<string>, groundTruth: seq<string>, sqrt: real -> Metrics.NonNegReal)
    requires |predictions| == |groundTruth| > 0
    ensures var s := CalculateMetrics(predictions, groundTruth).value;
      var r := Metrics.CalculateMetrics(Zip(predictions, groundTruth), sqrt);
      && s.matrix == Counts(r.tp, r.fp, r.fn, r.tn)
      && s.accuracy == r.accuracy
      && s.pe == Metrics.ExpectedOf(Zip(predictions, groundTruth))
      && s.kappa == r.kappa
      && s.failRecall == r.failScores.precision
  {
    var js := Zip(predictions, groundTruth);
    TallyCovers(js);
    SummaryAgreesWithMetrics(Tally(js), |js|);
  }

  /** `interpret_kappa(kappa)`: the package's bands, with a longer text for the negative one. */
  function InterpretKappa(kappa: real): (s: string)
    ensures kappa >= 0.0 ==> s == Metrics.InterpretKappa(kappa)
    ensures kappa < 0.0 ==> s == "Worse than chance (systematic disagreement)" && s != Metrics.InterpretKappa(kappa)
  {
    if kappa < 0.0 then "Worse than chance (systematic disagreement)"
    else if kappa < 0.2 then "Slight agreement"
    else if kappa < 0.4 then "Fair agreement"
    else if kappa < 0.6 then "Substantial agreement (TARGET)"
    else if kappa < 0.8 then "Excellent agreement"
    else "Near-perfect agreement"
  }

  /** "Perfect agreement": accuracy 1, kappa 1, chance agreement 1/2. */
  lemma PerfectScenario()
    ensures CalculateMetrics([Pass, Pass, Fail, Fail, Pass, Fail, Pass, Fail],
                             [Pass, Pass, Fail, Fail, Pass, Fail, Pass, Fail])
         == Ok(Summary(1.0, 1.0, 1.0, Counts(4, 0, 0, 4), 0.5))
  {
    PerfectTally();
    PerfectFigures();
  }

  lemma PerfectTally()
    ensures Tally(Zip([Pass, Pass, Fail, Fail, Pass, Fail, Pass, Fail],
                      [Pass, Pass, Fail, Fail, Pass, Fail, Pass, Fail])) == Counts(4, 0, 0, 4)
  {
    var js := Zip([Pass, Pass, Fail, Fail, Pass, Fail, Pass, Fail], [Pass, Pass, Fail, Fail, Pass, Fail, Pass, Fail]);
    assert js == [Judgement(Pass, Pass), Judgement(Pass, Pass), Judgement(Fail, Fail), Judgement(Fail, Fail),
                  Judgement(Pass, Pass), Judgement(Fail, Fail), Judgement(Pass, Pass), Judgement(Fail, Fail)];
    TallyOfDisplay(Judgement(Pass, Pass), Judgement(Pass, Pass), Judgement(Fail, Fail), Judgement(Fail, Fail),
                   Judgement(Pass, Pass), Judgement(Fail, Fail), Judgement(Pass, Pass), Judgement(Fail, Fail));
    CellsOfSingletons();
  }

  lemma PerfectFigures()
    ensures Summarize(Counts(4, 0, 0, 4), 8) == Summary(1.0, 1.0, 1.0, Counts(4, 0, 0, 4), 0.5)
  {
  }

  /** "Always predicts pass (imbalanced)": 75% accuracy, yet kappa 0 because chance agreement is also 75%. */
  lemma AlwaysPassScenario()
    ensures CalculateMetrics([Pass, Pass, Pass, Pass, Pass, Pass, Pass, Pass],
                             [Pass, Pass, Pass, Pass, Pass, Pass, Fail, Fail])
         == Ok(Summary(0.75, 0.0, 0.0, Counts(6, 2, 0, 0), 0.75))
  {
    AlwaysPassTally();
    AlwaysPassFigures();
  }

  lemma AlwaysPassTally()
    ensures Tally(Zip([Pass, Pass, Pass, Pass, Pass, Pass, Pass, Pass],
                      [Pass, Pass, Pass, Pass, Pass, Pass, Fail, Fail])) == Counts(6, 2, 0, 0)
  {
    var js := Zip([Pass, Pass, Pass, Pass, Pass, Pass, Pass, Pass], [Pass, Pass, Pass, Pass, Pass, Pass, Fail, Fail]);
    assert js == [Judgement(Pass, Pass), Judgement(Pass, Pass), Judgement(Pass, Pass), Judgement(Pass, Pass),
                  Judgement(Pass, Pass), Judgement(Pass, Pass), Judgement(Fail, Pass), Judgement(Fail, Pass)];
    TallyOfDisplay(Judgement(Pass, Pass), Judgement(Pass, Pass), Judgement(Pass, Pass), Judgement(Pass, Pass),
                   Judgement(Pass, Pass), Judgement(Pass, Pass), Judgement(Fail, Pass), Judgement(Fail, Pass));
    CellsOfSingletons();
  }

  lemma AlwaysPassFigures()
    ensures Summarize(Counts(6, 2, 0, 0), 8) == Summary(0.75, 0.0, 0.0, Counts(6, 2, 0, 0), 0.75)
  {
  }

  /** "Realistic evaluator": accuracy 0.75, chance agreement 17/32, kappa 7/15. */
  lemma RealisticScenario()
    ensures CalculateMetrics([Pass, Pass, Fail, Fail, Pass, Pass, Fail, Pass],
                             [Pass, Pass, Fail, Pass, Pass, Fail, Fail, Pass])
         == Ok(Summary(0.75, 7.0 / 15.0, 2.0 / 3.0, Counts(4, 1, 1, 2), 17.0 / 32.0))
  {
    RealisticTally();
    RealisticFigures();
  }

  lemma RealisticTally()
    ensures Tally(Zip([Pass, Pass, Fail, Fail, Pass, Pass, Fail, Pass],
                      [Pass, Pass, Fail, Pass, Pass, Fail, Fail, Pass])) == Counts(4, 1, 1, 2)
  {
    var js := Zip([Pass, Pass, Fail, Fail, Pass, Pass, Fail, Pass], [Pass, Pass, Fail, Pass, Pass, Fail, Fail, Pass]);
    assert js == [Judgement(Pass, Pass), Judgement(Pass, Pass), Judgement(Fail, Fail), Judgement(Pass, Fail),
                  Judgement(Pass, Pass), Judgement(Fail, Pass), Judgement(Fail, Fail), Judgement(Pass, Pass)];
    TallyOfDisplay(Judgement(Pass, Pass), Judgement(Pass, Pass), Judgement(Fail, Fail), Judgement(Pass, Fail),
                   Judgement(Pass, Pass), Judgement(Fail, Pass), Judgement(Fail, Fail), Judgement(Pass, Pass));
    CellsOfSingletons();
  }

  lemma RealisticFigures()
    ensures Summarize(Counts(4, 1, 1, 2), 8) == Summary(0.75, 7.0 / 15.0, 2.0 / 3.0, Counts(4, 1, 1, 2), 17.0 / 32.0)
  {
  }

  /** "Random guessing": every cell 2, so observed and chance agreement are both one half and kappa is 0. */
  lemma RandomScenario()
    ensures CalculateMetrics([Pass, Fail, Pass, Fail, Pass, Fail, Pass, Fail],
                             [Pass, Pass, Fail, Fail, Fail, Pass, Pass, Fail])
         == Ok(Summary(0.5, 0.0, 0.5, Counts(2, 2, 2, 2), 0.5))
  {
    RandomTally();
    RandomFigures();
  }

  lemma RandomTally()
    ensures Tally(Zip([Pass, Fail, Pass, Fail, Pass, Fail, Pass, Fail],
                      [Pass, Pass, Fail, Fail, Fail, Pass, Pass, Fail])) == Counts(2, 2, 2, 2)
  {
    var js := Zip([Pass, Fail, Pass, Fail, Pass, Fail, Pass, Fail], [Pass, Pass, Fail, Fail, Fail, Pass, Pass, Fail]);
    assert js == [Judgement(Pass, Pass), Judgement(Pass, Fail), Judgement(Fail, Pass), Judgement(Fail, Fail),
                  Judgement(Fail, Pass), Judgement(Pass, Fail), Judgement(Pass, Pass), Judgement(Fail, Fail)];
    TallyOfDisplay(Judgement(Pass, Pass), Judgement(Pass, Fail), Judgement(Fail, Pass), Judgement(Fail, Fail),
                   Judgement(Fail, Pass), Judgement(Pass, Fail), Judgement(Pass, Pass), Judgement(Fail, Fail));
    CellsOfSingletons();
  }

  lemma RandomFigures()
    ensures Summarize(Counts(2, 2, 2, 2), 8) == Summary(0.5, 0.0, 0.5, Counts(2, 2, 2, 2), 0.5)
  {
    assert Ratio(4, 8) == 0.5;
    assert ExpectedAgreement(Counts(2, 2, 2, 2), 8) == 0.5;
  }

  /** The matrices of the four single judgements over valid verdicts. */
  lemma CellsOfSingletons()
    ensures Tally([Judgement(Pass, Pass)]) == Counts(1, 0, 0, 0)
    ensures Tally([Judgement(Fail, Pass)]) == Counts(0, 1, 0, 0)
    ensures Tally([Judgement(Pass, Fail)]) == Counts(0, 0, 1, 0)
    ensures Tally([Judgement(Fail, Fail)]) == Counts(0, 0, 0, 1)
  {
    assert Pass != Fail by { assert Pass[0] != Fail[0]; }
    TallySingleton(Judgement(Pass, Pass));
    TallySingleton(Judgement(Fail, Pass));
    TallySingleton(Judgement(Pass, Fail));
    TallySingleton(Judgement(Fail, Fail));
  }

  /** The tally of eight judgements, one at a time. */
  lemma TallyOfEight(js: seq<Judgement>)
    requires |js| == 8
    ensures Tally(js) == Add(Tally([js[0]]), Add(Tally([js[1]]), Add(Tally([js[2]]), Add(Tally([js[3]]),
      Add(Tally([js[4]]), Add(Tally([js[5]]), Add(Tally([js[6]]), Tally([js[7]]))))))))
  {
    assert js == [js[0]] + ([js[1]] + ([js[2]] + ([js[3]] + ([js[4]] + ([js[5]] + ([js[6]] + [js[7]]))))));
    TallyAppend([js[6]], [js[7]]);
    TallyAppend([js[5]], [js[6]] + [js[7]]);
    TallyAppend([js[4]], [js[5]] + ([js[6]] + [js[7]]));
    TallyAppend([js[3]], [js[4]] + ([js[5]] + ([js[6]] + [js[7]])));
    TallyAppend([js[2]], [js[3]] + ([js[4]] + ([js[5]] + ([js[6]] + [js[7]]))));
    TallyAppend([js[1]], [js[2]] + ([js[3]] + ([js[4]] + ([js[5]] + ([js[6]] + [js[7]])))));
    TallyAppend([js[0]], [js[1]] + ([js[2]] + ([js[3]] + ([js[4]] + ([js[5]] + ([js[6]] + [js[7]]))))));
  }

  /** The tally of eight judgements given as a display. */
  lemma TallyOfDisplay(j0: Judgement, j1: Judgement, j2: Judgement, j3: Judgement,
                       j4: Judgement, j5: Judgement, j6: Judgement, j7: Judgement)
    ensures Tally([j0, j1, j2, j3, j4, j5, j6, j7]) == Add(Tally([j0]), Add(Tally([j1]), Add(Tally([j2]), Add(Tally([j3]),
      Add(Tally([j4]), Add(Tally([j5]), Add(Tally([j6]), Tally([j7]))))))))
  {
    TallyOfEight([j0, j1, j2, j3, j4, j5, j6, j7]);
  }
}
