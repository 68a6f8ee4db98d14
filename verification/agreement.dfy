/**
 * The vocabulary every agreement computation of the repository shares:
 * a (ground-truth label, prediction) pair, the 2x2 confusion matrix built by
 * counting such pairs, guarded ratios, chance agreement and Cohen's Kappa.
 * Positive means "pass". Labels stay strings, as in the source, so a value
 * other than "pass" or "fail" is counted in the total but in no cell.
 */
module Agreement {

  const Pass: string := "pass"
  const Fail: string := "fail"

  predicate IsVerdict(s: string) {
    s == Pass || s == Fail
  }

  /** One judged sample: the ground-truth label (`label` in the source) and the evaluator's prediction. */
  datatype Judgement = Judgement(truth: string, pred: string)

  /** The confusion matrix: tp = (pass, pass), fp = (fail label, pass pred), fn = (pass label, fail pred), tn = (fail, fail). */
  datatype Counts = Counts(tp: nat, fp: nat, fn: nat, tn: nat)

  function Sum(c: Counts): nat {
    c.tp + c.fp + c.fn + c.tn
  }

  function Add(a: Counts, b: Counts): Counts {
    Counts(a.tp + b.tp, a.fp + b.fp, a.fn + b.fn, a.tn + b.tn)
  }

  predicate AllVerdicts(js: seq<Judgement>) {
    forall i :: 0 <= i < |js| ==> IsVerdict(js[i].truth) && IsVerdict(js[i].pred)
  }

  /** Python's `zip(predictions, ground_truth)`: pairs up to the shorter list. */
  function Zip(preds: seq<string>, truths: seq<string>): (r: seq<Judgement>)
    ensures |r| == if |preds| <= |truths| then |preds| else |truths|
    ensures forall i :: 0 <= i < |r| ==> r[i] == Judgement(truths[i], preds[i])
  {
    if preds == [] || truths == [] then []
    else [Judgement(truths[0], preds[0])] + Zip(preds[1..], truths[1..])
  }

  /** `sum(1 for r in js if r["label"] == truth and r["pred"] == pred)`. */
  function CountCell(js: seq<Judgement>, truth: string, pred: string): nat
  {
    if js == [] then 0
    else (if js[0] == Judgement(truth, pred) then 1 else 0) + CountCell(js[1..], truth, pred)
  }

  /** The four counts, each an independent pass over the pairs. */
  function Tally(js: seq<Judgement>): Counts {
    Counts(CountCell(js, Pass, Pass), CountCell(js, Fail, Pass),
           CountCell(js, Pass, Fail), CountCell(js, Fail, Fail))
  }

  /** A cell's count is the multiplicity of its pair among the judgements. */
  lemma {:induction false} CountCellIsMultiplicity(js: seq<Judgement>, truth: string, pred: string)
    ensures CountCell(js, truth, pred) == multiset(js)[Judgement(truth, pred)]
  {
    if js != [] {
      CountCellIsMultiplicity(js[1..], truth, pred);
      assert js == [js[0]] + js[1..];
      assert multiset(js) == multiset{js[0]} + multiset(js[1..]);
    }
  }

  /** Number of judgements whose ground-truth label is `truth`. */
  function CountTruth(js: seq<Judgement>, truth: string): (r: nat)
    ensures r <= |js|
  {
    if js == [] then 0 else (if js[0].truth == truth then 1 else 0) + CountTruth(js[1..], truth)
  }

  /** Number of judgements whose prediction is `pred`. */
  function CountPred(js: seq<Judgement>, pred: string): (r: nat)
    ensures r <= |js|
  {
    if js == [] then 0 else (if js[0].pred == pred then 1 else 0) + CountPred(js[1..], pred)
  }

  /** With valid predictions, the cells of a label's column add up to that label's count; with valid labels, likewise for a prediction's row. */
  lemma {:induction false} MarginalCounts(js: seq<Judgement>)
    ensures (forall i :: 0 <= i < |js| ==> IsVerdict(js[i].pred)) ==>
      CountTruth(js, Pass) == Tally(js).tp + Tally(js).fn && CountTruth(js, Fail) == Tally(js).fp + Tally(js).tn
    ensures (forall i :: 0 <= i < |js| ==> IsVerdict(js[i].truth)) ==>
      CountPred(js, Pass) == Tally(js).tp + Tally(js).fp && CountPred(js, Fail) == Tally(js).fn + Tally(js).tn
  {
    if js != [] {
      MarginalCounts(js[1..]);
      assert forall i :: 0 <= i < |js[1..]| ==> js[1..][i] == js[i + 1];
    }
  }

  /** The matrix of a single judgement: a one in its cell, if it has one. */
  lemma TallySingleton(j: Judgement)
    ensures Tally([j]) == Counts(if j == Judgement(Pass, Pass) then 1 else 0, if j == Judgement(Fail, Pass) then 1 else 0,
                                 if j == Judgement(Pass, Fail) then 1 else 0, if j == Judgement(Fail, Fail) then 1 else 0)
  {
    assert [j][0] == j && [j][1..] == [];
    assert CountCell([], Pass, Pass) == 0 && CountCell([], Fail, Pass) == 0;
    assert CountCell([], Pass, Fail) == 0 && CountCell([], Fail, Fail) == 0;
  }

  /** Counting does not depend on the order of the judgements. */
  lemma TallyPermutation(a: seq<Judgement>, b: seq<Judgement>)
    requires multiset(a) == multiset(b)
    ensures Tally(a) == Tally(b)
    ensures |a| == |b|
  {
    CountCellIsMultiplicity(a, Pass, Pass);
    CountCellIsMultiplicity(b, Pass, Pass);
    CountCellIsMultiplicity(a, Fail, Pass);
    CountCellIsMultiplicity(b, Fail, Pass);
    CountCellIsMultiplicity(a, Pass, Fail);
    CountCellIsMultiplicity(b, Pass, Fail);
    CountCellIsMultiplicity(a, Fail, Fail);
    CountCellIsMultiplicity(b, Fail, Fail);
    assert |multiset(a)| == |a| && |multiset(b)| == |b|;
  }

  /** The first judgement adds one to the cells when both its strings are verdicts, and nothing otherwise. */
  lemma TallyCons(js: seq<Judgement>)
    requires js != []
    ensures Sum(Tally(js)) == (if IsVerdict(js[0].truth) && IsVerdict(js[0].pred) then 1 else 0) + Sum(Tally(js[1..]))
  {
    var j := js[0];
    if IsVerdict(j.truth) && IsVerdict(j.pred) {
      assert j == Judgement(Pass, Pass) || j == Judgement(Fail, Pass) || j == Judgement(Pass, Fail) || j == Judgement(Fail, Fail);
    } else {
      assert j != Judgement(Pass, Pass) && j != Judgement(Fail, Pass) && j != Judgement(Pass, Fail) && j != Judgement(Fail, Fail);
    }
  }

  /** The cells never count more pairs than there are, and count them all when every string is a verdict. */
  lemma {:induction false} TallyBounded(js: seq<Judgement>)
    ensures Sum(Tally(js)) <= |js|
    ensures AllVerdicts(js) ==> Sum(Tally(js)) == |js|
  {
    if js != [] {
      var rest := js[1..];
      TallyBounded(rest);
      TallyCons(js);
      if AllVerdicts(js) {
        assert IsVerdict(js[0].truth) && IsVerdict(js[0].pred);
        forall i | 0 <= i < |rest| ensures IsVerdict(rest[i].truth) && IsVerdict(rest[i].pred) {
          assert rest[i] == js[i + 1];
        }
      }
    }
  }

  /** A pair holding a string other than a verdict lands in no cell, so the cells count fewer pairs than there are. */
  lemma {:induction false} NonVerdictUncounted(js: seq<Judgement>, k: nat)
    requires k < |js| && !(IsVerdict(js[k].truth) && IsVerdict(js[k].pred))
    ensures Sum(Tally(js)) < |js|
  {
    TallyCons(js);
    if k == 0 {
      TallyBounded(js[1..]);
    } else {
      assert js[1..][k - 1] == js[k];
      NonVerdictUncounted(js[1..], k - 1);
    }
  }

  /** When the cells count every pair, every string is a verdict. */
  lemma FullTallyOnlyVerdicts(js: seq<Judgement>)
    requires Sum(Tally(js)) == |js|
    ensures AllVerdicts(js)
  {
    forall i | 0 <= i < |js| ensures IsVerdict(js[i].truth) && IsVerdict(js[i].pred) {
      if !(IsVerdict(js[i].truth) && IsVerdict(js[i].pred)) {
        NonVerdictUncounted(js, i);
      }
    }
  }

  /** The four cells never count more pairs than there are, and count exactly as many when, and only when, every string is a verdict. */
  lemma TallyCovers(js: seq<Judgement>)
    ensures Sum(Tally(js)) <= |js|
    ensures AllVerdicts(js) <==> Sum(Tally(js)) == |js|
  {
    TallyBounded(js);
    if Sum(Tally(js)) == |js| {
      FullTallyOnlyVerdicts(js);
    }
  }

  /** Counting a concatenation adds the counts of its parts. */
  lemma {:induction false} TallyAppend(a: seq<Judgement>, b: seq<Judgement>)
    ensures Tally(a + b) == Add(Tally(a), Tally(b))
  {
    CountCellIsMultiplicity(a + b, Pass, Pass);
    CountCellIsMultiplicity(a, Pass, Pass);
    CountCellIsMultiplicity(b, Pass, Pass);
    CountCellIsMultiplicity(a + b, Fail, Pass);
    CountCellIsMultiplicity(a, Fail, Pass);
    CountCellIsMultiplicity(b, Fail, Pass);
    CountCellIsMultiplicity(a + b, Pass, Fail);
    CountCellIsMultiplicity(a, Pass, Fail);
    CountCellIsMultiplicity(b, Pass, Fail);
    CountCellIsMultiplicity(a + b, Fail, Fail);
    CountCellIsMultiplicity(a, Fail, Fail);
    CountCellIsMultiplicity(b, Fail, Fail);
    assert multiset(a + b) == multiset(a) + multiset(b);
  }

  /** When every prediction matches a valid label, nothing lands off the diagonal. */
  lemma {:induction false} PerfectAgreementTally(js: seq<Judgement>)
    requires AllVerdicts(js)
    requires forall i :: 0 <= i < |js| ==> js[i].pred == js[i].truth
    ensures Tally(js).fp == 0 && Tally(js).fn == 0
    ensures Tally(js).tp + Tally(js).tn == |js|
  {
    CountCellIsMultiplicity(js, Fail, Pass);
    CountCellIsMultiplicity(js, Pass, Fail);
    assert Judgement(Fail, Pass) !in multiset(js);
    assert Judgement(Pass, Fail) !in multiset(js);
    TallyCovers(js);
  }

  /** When every prediction is the same valid verdict, only that verdict's cells are filled. */
  lemma {:induction false} SinglePredictionTally(js: seq<Judgement>, v: string)
    requires IsVerdict(v)
    requires forall i :: 0 <= i < |js| ==> js[i].pred == v && IsVerdict(js[i].truth)
    ensures v == Pass ==> Tally(js).fn == 0 && Tally(js).tn == 0 && Tally(js).tp + Tally(js).fp == |js|
    ensures v == Fail ==> Tally(js).tp == 0 && Tally(js).fp == 0 && Tally(js).fn + Tally(js).tn == |js|
  {
    CountCellIsMultiplicity(js, Pass, Fail);
    CountCellIsMultiplicity(js, Fail, Fail);
    CountCellIsMultiplicity(js, Pass, Pass);
    CountCellIsMultiplicity(js, Fail, Pass);
    if v == Pass {
      assert Judgement(Pass, Fail) !in multiset(js);
      assert Judgement(Fail, Fail) !in multiset(js);
    } else {
      assert Judgement(Pass, Pass) !in multiset(js);
      assert Judgement(Fail, Pass) !in multiset(js);
    }
    TallyCovers(js);
  }

  /** `num / den if den > 0 else 0`, the guard the repository puts on every rate. */
  function Ratio(num: nat, den: nat): (r: real)
    ensures den == 0 ==> r == 0.0
    ensures den > 0 ==> r * (den as real) == num as real
    ensures num <= den ==> 0.0 <= r <= 1.0
    ensures 0 < den == num ==> r == 1.0
    ensures num == 0 ==> r == 0.0
  {
    if den > 0 then
      var r := num as real / den as real;
      assert num == den ==> r == 1.0 by {
        if num == den {
          QuotientOfEqual(num as real, den as real);
        }
      }
      r
    else 0.0
  }

  lemma QuotientOfEqual(a: real, b: real)
    requires a == b && b != 0.0
    ensures a / b == 1.0
  {
  }

  /** Ratios over one denominator add up like their numerators. */
  lemma RatioAdd(x: nat, y: nat, den: nat)
    ensures Ratio(x, den) + Ratio(y, den) == Ratio(x + y, den)
  {
  }

  /** Chance agreement from the four marginal shares. */
  function ChanceAgreement(predPass: real, truePass: real, predFail: real, trueFail: real): real {
    predPass * truePass + predFail * trueFail
  }

  /** When each pair of marginals sums to at most one, so does chance agreement. */
  lemma ChanceAgreementBounds(predPass: real, truePass: real, predFail: real, trueFail: real)
    requires 0.0 <= predPass && 0.0 <= truePass && 0.0 <= predFail && 0.0 <= trueFail
    requires predPass + predFail <= 1.0 && truePass + trueFail <= 1.0
    ensures 0.0 <= ChanceAgreement(predPass, truePass, predFail, trueFail) <= 1.0
  {
    var s := predPass + predFail;
    var t := truePass + trueFail;
    assert predPass * trueFail >= 0.0 && predFail * truePass >= 0.0;
    assert s * t == predPass * truePass + predPass * trueFail + predFail * truePass + predFail * trueFail;
    assert s * t <= s * 1.0;
    assert predPass * truePass >= 0.0 && predFail * trueFail >= 0.0;
  }

  /** `p_expected`: chance agreement from the four marginal shares, each `0` on an empty list. */
  function ExpectedAgreement(c: Counts, total: nat): (pe: real)
    ensures Sum(c) <= total ==> 0.0 <= pe <= 1.0
    ensures total == 0 ==> pe == 0.0
  {
    var pPredPass := Ratio(c.tp + c.fp, total);
    var pTruePass := Ratio(c.tp + c.fn, total);
    var pPredFail := Ratio(c.tn + c.fn, total);
    var pTrueFail := Ratio(c.tn + c.fp, total);
    if Sum(c) <= total then
      RatioAdd(c.tp + c.fp, c.tn + c.fn, total);
      RatioAdd(c.tp + c.fn, c.tn + c.fp, total);
      ChanceAgreementBounds(pPredPass, pTruePass, pPredFail, pTrueFail);
      ChanceAgreement(pPredPass, pTruePass, pPredFail, pTrueFail)
    else
      ChanceAgreement(pPredPass, pTruePass, pPredFail, pTrueFail)
  }

  lemma QuotientAtMostOne(a: real, d: real)
    requires 0.0 < d && a <= d
    ensures a / d <= 1.0
  {
  }

  /** Cohen's formula `(po - pe) / (1 - pe)`, defined wherever `pe != 1`. */
  function CohenKappa(po: real, pe: real): (k: real)
    requires pe != 1.0
    ensures k * (1.0 - pe) == po - pe
    ensures po == pe ==> k == 0.0
    ensures pe < 1.0 && po <= 1.0 ==> k <= 1.0
    ensures pe < 1.0 ==> (k == 1.0 <==> po == 1.0)
  {
    var d := 1.0 - pe;
    var k := (po - pe) / d;
    assert k * d == po - pe;
    assert po == pe ==> k == 0.0;
    if pe < 1.0 && po <= 1.0 then
      QuotientAtMostOne(po - pe, d);
      k
    else
      k
  }

  /** Python's `int(x)`: truncation toward zero. */
  function Trunc(x: real): (r: int)
    ensures x >= 0.0 ==> 0 <= r && r as real <= x < r as real + 1.0
    ensures x < 0.0 ==> r <= 0 && r as real - 1.0 < x <= r as real
  {
    if x >= 0.0 then x.Floor else -((-x).Floor)
  }

  /** `(po - pe) / (1 - pe) if pe != 1 else 0`: the guard the calculator script and both notebooks use. */
  function GuardedKappa(po: real, pe: real): (k: real)
    ensures pe == 1.0 ==> k == 0.0
    ensures pe != 1.0 ==> k * (1.0 - pe) == po - pe
    ensures po == pe ==> k == 0.0
    ensures pe < 1.0 && po <= 1.0 ==> k <= 1.0
  {
    if pe != 1.0 then CohenKappa(po, pe) else 0.0
  }

  /** Recall of the fail class, `tn / (tn + fp)` or 0: the share of responses labelled "fail" that the evaluator failed. */
  function FailRecall(c: Counts): (r: real)
    ensures 0.0 <= r <= 1.0
    ensures r * (c.tn + c.fp) as real == c.tn as real
  {
    Ratio(c.tn, c.tn + c.fp)
  }

  /** Chance agreement treats the two error cells alike: exchanging fp and fn leaves it unchanged. */
  lemma ExpectedAgreementTransposed(c: Counts, total: nat)
    ensures ExpectedAgreement(Counts(c.tp, c.fn, c.fp, c.tn), total) == ExpectedAgreement(c, total)
  {
    var d := Counts(c.tp, c.fn, c.fp, c.tn);
    assert Sum(d) == Sum(c);
    var pPredPass := Ratio(c.tp + c.fp, total);
    var pTruePass := Ratio(c.tp + c.fn, total);
    var pPredFail := Ratio(c.tn + c.fn, total);
    var pTrueFail := Ratio(c.tn + c.fp, total);
    assert ExpectedAgreement(d, total) == ChanceAgreement(pTruePass, pPredPass, pTrueFail, pPredFail);
    assert ExpectedAgreement(c, total) == ChanceAgreement(pPredPass, pTruePass, pPredFail, pTrueFail);
  }

  /**
   * What the calculator script and the notebooks report as "fail recall",
   * `tn / (tn + fn)` or 0. With fn counting pass-labelled responses predicted
   * "fail", this is the share of "fail" predictions that were right: the
   * precision of the fail class, not its recall.
   */
  function ReportedFailRecall(c: Counts): (r: real)
    ensures 0.0 <= r <= 1.0
    ensures r * (c.tn + c.fn) as real == c.tn as real
  {
    Ratio(c.tn, c.tn + c.fn)
  }

  /**
   * Over valid verdicts, `FailRecall` is the share of fail-labelled responses
   * predicted "fail", while `ReportedFailRecall` is the share of "fail"
   * predictions that are labelled "fail".
   */
  lemma FailRecallMeaning(js: seq<Judgement>)
    requires AllVerdicts(js)
    ensures FailRecall(Tally(js)) == Ratio(CountCell(js, Fail, Fail), CountTruth(js, Fail))
    ensures ReportedFailRecall(Tally(js)) == Ratio(CountCell(js, Fail, Fail), CountPred(js, Fail))
  {
    MarginalCounts(js);
  }

  /**
   * One pass-labelled response wrongly failed and one fail-labelled response
   * rightly failed: every failure was caught, yet the reported "fail recall"
   * is one half.
   */
  lemma ReportedFailRecallMisses()
    ensures var c := Tally(Zip([Fail, Fail], [Pass, Fail]));
      FailRecall(c) == 1.0 && ReportedFailRecall(c) == 0.5
  {
    var js := Zip([Fail, Fail], [Pass, Fail]);
    assert js == [Judgement(Pass, Fail), Judgement(Fail, Fail)];
    var rest := js[1..];
    assert rest == [Judgement(Fail, Fail)] && rest[1..] == [];
    assert Pass != Fail;
    assert CountCell(rest, Pass, Pass) == 0 && CountCell(rest, Fail, Pass) == 0;
    assert CountCell(rest, Pass, Fail) == 0 && CountCell(rest, Fail, Fail) == 1;
    assert Tally(js) == Counts(0, 0, 1, 1);
  }
}
