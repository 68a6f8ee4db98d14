# Agreement metrics and LLM-judge decision rules, in Dafny

This project models the computational core of a small toolkit for evaluating
LLM-as-judge evaluators. The judge labels question/response pairs "pass" or
"fail", and its labels are compared with human ground truth. The project covers:

- **Agreement metrics.** The 2x2 confusion matrix over (label, prediction)
  pairs; accuracy; precision, recall and F1 for the pass class and the fail
  class; Cohen's Kappa with its guard on chance agreement; the Wald confidence
  interval for accuracy; and the six textual kappa bands. The evaluator package
  has these, and so do its three copies (the stand-alone calculator script and
  the two teaching notebooks). Each copy is modelled as written, and a lemma
  relates each one to the package.
- **Position-bias resolution.** A pairwise comparison is asked twice, the
  second time with the texts and their labels swapped. An answer that
  survives the swap is kept. Otherwise the result is a tie and bias is flagged.
- **Verdict extraction from text.** This covers the naive substring parser of
  the text-versus-function-calling demo, including the false positives it
  admits. It also covers the stricter text fallback of the Cerebras evaluator.
- **The provider evaluators' retry loops.** Each API call's outcome is a
  parameter, so a run is a pure function. The model covers:
  - the number of calls made;
  - the backoff base before each retry: 2, or 3 for a Cerebras rate limit;
  - which reply decides the verdict;
  - the fixed fallback messages.

Python floats become exact `real`s. `math.sqrt` is a parameter known only to
be non-negative. The model client is an oracle: `nat -> Reply` for the
evaluators and `Call -> seq<OutputItem>` for the comparison demo. Exceptions
that end a computation (`ZeroDivisionError`, `AssertionError`, `ValueError`,
`json.loads` errors in the two evaluators) become the `Err` case of a `Result`, or a `Raised` step.

Modules, one per source file plus shared vocabulary:

| module | models |
|---|---|
| `Optional` | `Option` and `Result` |
| `Sequences` | `[x] * k` and "the first item that ..." |
| `Text` | ASCII `lower`/`upper`/`strip`, slicing, `in`, `str(int)` |
| `Agreement` | judgements, the confusion matrix, guarded ratios, chance agreement, kappa, both fail-recall formulas |
| `KappaBands` | the six bands and their cut points |
| `Metrics` | `evaluators/metrics.py` |
| `KappaCalculator` | `examples/kappa_calculator.py` |
| `KappaIntuition` | `notebooks/03_kappa_intuition.py` |
| `UnderstandingEvals` | `notebooks/01_understanding_evals.py` |
| `PositionBias` | `examples/position_bias_demo.py` |
| `TextParsing` | `examples/text_vs_function.py` |
| `Judge` | the result types and retry loop both evaluators share |
| `CerebrasEvaluator` | `evaluators/cerebras_evaluator.py` |
| `OpenAIEvaluator` | `evaluators/openai_evaluator.py` |

## Model

| member | source | states |
|---|---|---|
| Sequences.Repeat | notebooks/01_understanding_evals.py:140-141 | `[x] * k` has length k, and every element is x |
| Sequences.FirstIndex | evaluators/openai_evaluator.py:143-146 | the position returned satisfies the test and no earlier item does; nothing is returned exactly when no item satisfies it |
| Text.Strip | evaluators/cerebras_evaluator.py:150 | the stripped text is a slice of the original that neither starts nor ends with whitespace, and everything cut off on either side is whitespace |
| Text.Prefix | evaluators/cerebras_evaluator.py:146 | `s[:n]` is the first min(n, len s) characters of s |
| Text.ContainsIffOccurs | examples/text_vs_function.py:126 | the scanning `sub in s` holds exactly when sub occurs at some position of s |
| Text.LowerOfUpper | evaluators/cerebras_evaluator.py:150 | for ASCII text, lower-casing an upper-cased text gives the lower-cased text |
| Text.NatToString | evaluators/cerebras_evaluator.py:173 | `str(n)` for n >= 0 is a non-empty string of decimal digits whose value is n, with no leading zero unless n is 0 |
| Text.IntToString | evaluators/cerebras_evaluator.py:173 | `str(i)` starts with a minus sign exactly when i < 0, and the digits after it are the canonical decimal digits of the magnitude of i |
| Agreement.Zip | examples/kappa_calculator.py:32-35 | `zip` pairs the i-th prediction with the i-th label, up to the shorter list |
| Agreement.CountCellIsMultiplicity | evaluators/metrics.py:65-68 | each cell count is the number of times its (label, pred) pair occurs |
| Agreement.TallyCovers | evaluators/metrics.py:65-70 | the four cells never exceed the total; they sum to it exactly when every label and prediction is "pass" or "fail" |
| Agreement.NonVerdictUncounted | evaluators/metrics.py:65-70 | a pair holding any string other than "pass" or "fail" lands in no cell, so the cells sum to less than the total |
| Agreement.TallyPermutation | evaluators/metrics.py:65-70 | reordering the results changes neither the matrix nor the total |
| Agreement.TallyAppend | evaluators/metrics.py:65-68 | the matrix of a concatenation is the sum of the matrices |
| Agreement.MarginalCounts | evaluators/metrics.py:127-130 | with valid verdicts, a label's count is the sum of its column and a prediction's count the sum of its row |
| Agreement.PerfectAgreementTally | evaluators/metrics.py:65-68 | when every prediction equals its valid label, fp = fn = 0 and tp + tn is the total |
| Agreement.SinglePredictionTally | evaluators/metrics.py:65-68 | when every prediction is the same verdict, only that verdict's cells are filled, and they cover the total |
| Agreement.Ratio | evaluators/metrics.py:84 | the guarded quotient is 0 for a zero denominator, otherwise it times the denominator is the numerator; it lies in [0, 1] when num <= den |
| Agreement.ChanceAgreementBounds | evaluators/metrics.py:132 | chance agreement lies in [0, 1] whenever each pair of marginal shares sums to at most 1 |
| Agreement.ExpectedAgreementTransposed | evaluators/metrics.py:127-132 | exchanging the fp and fn cells leaves `p_expected` unchanged |
| Agreement.ExpectedAgreement | evaluators/metrics.py:127-132 | `p_expected` lies in [0, 1] for any matrix within its total, and is 0 for an empty list |
| Agreement.CohenKappa | evaluators/metrics.py:135 | kappa * (1 - pe) = po - pe; it is 0 when po = pe, at most 1 when pe < 1, and equals 1 exactly when po = 1 |
| Agreement.GuardedKappa | examples/kappa_calculator.py:61 | with the `pe != 1` guard, kappa is 0 at pe = 1 and satisfies Cohen's equation otherwise |
| Agreement.Trunc | notebooks/03_kappa_intuition.py:82 | `int(x)` truncates toward zero: the result lies within 1 of x, on the side of 0 |
| Agreement.FailRecall | evaluators/metrics.py:93 | `recall_fail` lies in [0, 1] and times (tn + fp) gives tn |
| Agreement.ReportedFailRecall | examples/kappa_calculator.py:64 | the script's "fail recall" lies in [0, 1] and times (tn + fn) gives tn |
| Agreement.FailRecallMeaning | examples/kappa_calculator.py:64 | over valid verdicts, the package's fail recall is the share of fail-labelled results predicted "fail"; the script's figure is the share of "fail" predictions labelled "fail" |
| Agreement.ReportedFailRecallMisses | examples/kappa_calculator.py:64 | for labels [pass, fail] and predictions [fail, fail] every failure is caught (recall 1), yet the script reports 0.5 |
| KappaBands.BandOf | evaluators/metrics.py:228-239 | every kappa falls in exactly one band of the scale cut at 0, 0.2, 0.4, 0.6 and 0.8 |
| KappaBands.BandMonotone | evaluators/metrics.py:228-239 | a larger kappa never falls in a lower band |
| Metrics.F1 | evaluators/metrics.py:99-108 | F1 is 0 when precision + recall is 0, and otherwise lies between the smaller and the larger of the two |
| Metrics.HarmonicMeanBetween | evaluators/metrics.py:100 | the harmonic mean of two non-negative numbers lies between them |
| Metrics.Kappa | evaluators/metrics.py:135 | with the `pe < 1` guard, kappa is 0 when pe >= 1 or po = pe, at most 1, and 1 exactly when po = 1 |
| Metrics.GuardsCoincide | evaluators/metrics.py:135 | since pe <= 1, the `pe < 1` guard here and the `pe != 1` guard of the script and notebooks give the same kappa |
| Metrics.ZScore | evaluators/metrics.py:190 | the z-score for every confidence level is positive |
| Metrics.ConfidenceInterval | evaluators/metrics.py:186-199 | (0, 0) for n = 0; for n > 0 and accuracy in [0, 1], 0 <= lower <= accuracy <= upper <= 1; an unclipped interval is symmetric about the accuracy; `math.sqrt` fails for negative n |
| Metrics.ScoreClass | evaluators/metrics.py:84-108 | precision, recall and F1 of a class lie in [0, 1]; precision times (hits + false alarms), and recall times (hits + misses), gives the hits; all three are 0 without hits |
| Metrics.CalculateMetrics | evaluators/metrics.py:22-160 | the report's total is the list length, its cells are the matrix, its accuracy, class scores, kappa and interval are those of the matrix |
| Metrics.ReportBounds | evaluators/metrics.py:77-143 | accuracy lies in [0, 1] and inside its confidence interval, which lies in [0, 1]; kappa is at most 1 |
| Metrics.ScoresInUnit | evaluators/metrics.py:84-108 | every precision, recall and F1 of a report lies in [0, 1] |
| Metrics.AccuracyOf | evaluators/metrics.py:77 | accuracy lies in [0, 1], is 0 for an empty list, and times the total gives tp + tn |
| Metrics.KappaOf | evaluators/metrics.py:123-135 | the reported kappa never exceeds 1 |
| Metrics.AccuracyInterval | evaluators/metrics.py:143 | the report's interval is the 95% interval, and it brackets a valid accuracy |
| Metrics.InterpretKappa | evaluators/metrics.py:202-239 | the text is the package's wording of the kappa's band |
| Metrics.WordingInjective | evaluators/metrics.py:228-239 | different bands get different texts |
| Metrics.PermutationInvariant | evaluators/metrics.py:65-70 | two results lists with the same multiset give identical reports |
| Metrics.EmptyResults | evaluators/metrics.py:77-187 | an empty list reports 0 for accuracy, every class score and kappa, and the interval (0, 0) |
| Metrics.FailScoresMeaning | evaluators/metrics.py:92-93 | over valid verdicts, fail recall is the share of fail-labelled results predicted "fail" and fail precision the share of "fail" predictions labelled "fail" |
| Metrics.PassScoresMeaning | evaluators/metrics.py:84-85 | over valid verdicts, pass recall is the share of pass-labelled results predicted "pass" and pass precision the share of "pass" predictions labelled "pass" |
| Metrics.PerfectChance | evaluators/metrics.py:127-132 | a perfectly agreeing matrix has accuracy 1; its chance agreement is below 1 when both classes occur and exactly 1 when only one does |
| Metrics.PerfectAgreementKappa | evaluators/metrics.py:123-135 | when every prediction equals its valid label, accuracy is 1, and kappa is 1 exactly when both classes occur; with one class, pe = 1 and kappa is 0 |
| Metrics.SinglePredictionChance | evaluators/metrics.py:127-135 | a matrix with one predicted class has chance agreement equal to its accuracy, and kappa 0 |
| Metrics.SinglePredictionKappa | evaluators/metrics.py:127-135 | an evaluator that always gives the same verdict has p_expected equal to its accuracy and kappa 0 |
| Metrics.IntervalsNest | evaluators/metrics.py:190-197 | the 99% interval contains the 95% one, which contains the interval of any other level |
| Metrics.WaldExample | evaluators/metrics.py:180-184 | accuracy 0.8 over 50 samples gives an interval of about (0.689, 0.911) |
| KappaCalculator.CalculateMetrics | examples/kappa_calculator.py:18-72 | the script fails exactly on lists of unequal length or empty lists; otherwise its matrix is the matrix of the zipped lists, its rates lie in [0, 1], kappa is at most 1, and 0 when pe = 1 |
| KappaCalculator.Summarize | examples/kappa_calculator.py:37-72 | for n > 0, accuracy, fail recall and pe lie in [0, 1], kappa is at most 1, and kappa is 0 when pe = 1 |
| KappaCalculator.SummaryAgreesWithMetrics | examples/kappa_calculator.py:40-64 | on one matrix the script's accuracy, pe and kappa are the package's; its fail recall is the package's fail precision |
| KappaCalculator.AgreesWithMetrics | examples/kappa_calculator.py:29-72 | on equal-length non-empty lists the script reports the package's matrix, accuracy, p_expected and kappa for the zipped pairs |
| KappaCalculator.InterpretKappa | examples/kappa_calculator.py:75-93 | the package's wording for every non-negative kappa; a different, longer text for negative ones |
| KappaCalculator.PerfectScenario | examples/kappa_calculator.py:101-104 | "Perfect agreement" yields accuracy 1, kappa 1, fail recall 1 and pe 1/2 |
| KappaCalculator.AlwaysPassScenario | examples/kappa_calculator.py:105-108 | "Always predicts pass" yields accuracy 0.75 with pe 0.75, so kappa 0 |
| KappaCalculator.RealisticScenario | examples/kappa_calculator.py:109-112 | "Realistic evaluator" yields accuracy 0.75, kappa 7/15, fail recall 2/3 and pe 17/32 |
| KappaCalculator.RandomScenario | examples/kappa_calculator.py:113-116 | "Random guessing" fills every cell with 2, giving accuracy 0.5, pe 0.5 and kappa 0 |
| KappaIntuition.CalculateMetrics | notebooks/03_kappa_intuition.py:53-72 | (0, 0) for an empty matrix; otherwise accuracy lies in [0, 1] and kappa is at most 1 |
| KappaIntuition.AgreesWithMetrics | notebooks/03_kappa_intuition.py:53-72 | for every matrix, the notebook's accuracy and kappa are the package's |
| KappaIntuition.AlwaysPassKappa | notebooks/03_kappa_intuition.py:85-93 | with tn = fn = 0, kappa is 0 whatever the split of the labels |
| KappaIntuition.AlwaysPassPoint | notebooks/03_kappa_intuition.py:81-95 | every point of the always-"pass" sweep has kappa 0 and accuracy in [0, 1] |
| KappaIntuition.NinetyPercentAccurateAlwaysPass | notebooks/03_kappa_intuition.py:121-122 | at a 10% failure rate the always-"pass" evaluator has accuracy 0.9 and kappa 0 |
| KappaIntuition.SliderAgreesWithMetrics | notebooks/03_kappa_intuition.py:183-186 | for a non-empty matrix the slider's accuracy and kappa are the package's |
| KappaIntuition.SliderCell | notebooks/03_kappa_intuition.py:183-248 | nothing is shown exactly for an empty matrix; otherwise fail recall is tn/(tn+fn), pass recall is the package's, the kappa text is the notebook's wording of its band, and the recall verdict is "Good" exactly from 0.8 up |
| KappaIntuition.SliderFailRecallMisses | notebooks/03_kappa_intuition.py:189 | with every failure caught (recall 1), the slider shows a fail recall of 0.5 and calls it too low |
| KappaIntuition.InterpretKappa | notebooks/03_kappa_intuition.py:235-246 | the text is the notebook's wording of the kappa's band |
| KappaIntuition.FailRecallVerdict | notebooks/03_kappa_intuition.py:248 | the verdict is "Good" exactly when fail recall is at least 0.8, and "Too low" otherwise |
| KappaIntuition.SimulatedCounts | notebooks/03_kappa_intuition.py:324-330 | the simulated matrix covers 200 samples, with `int(200 * rate)` fail labels and the rest pass labels |
| KappaIntuition.SimulatePoint | notebooks/03_kappa_intuition.py:323-348 | each record keeps its failure rate, has accuracy in [0, 1], and plots as "fail recall" tn/(tn+fn) of the simulated matrix |
| KappaIntuition.ComplementChanceAgrees | notebooks/03_kappa_intuition.py:336-338 | when the cells cover the total, the complement form of chance agreement equals the four-marginal form |
| KappaIntuition.SimulationAgreesWithMetrics | notebooks/03_kappa_intuition.py:332-339 | the simulation's accuracy and kappa are the package's for the simulated matrix |
| KappaIntuition.SimulatedFailRecallOverstates | notebooks/03_kappa_intuition.py:341 | at rate 0.5 the evaluator catches 75 of 100 failures (recall 0.75, below target), yet the plotted "fail recall" is 15/17, above 0.8 |
| UnderstandingEvals.CalculateKappaDetailed | notebooks/01_understanding_evals.py:101-132 | fails exactly on an empty prediction list; otherwise accuracy equals observed agreement, the confusion is the matrix of the zipped lists, both agreements lie in [0, 1], kappa is at most 1, and 0 when pe = 1 |
| UnderstandingEvals.ConfusionCoversAll | notebooks/01_understanding_evals.py:106-109 | with valid verdicts and equal lengths the four counts sum to the number of predictions |
| UnderstandingEvals.AgreesWithCalculator | notebooks/01_understanding_evals.py:101-132 | on equal-length non-empty lists the notebook reports the calculator script's accuracy, pe, kappa and matrix |
| UnderstandingEvals.ImbalancedTally | notebooks/01_understanding_evals.py:140-143 | always "pass" against 90 passes and 10 failures gives tp = 90, fp = 10 and no other cell |
| UnderstandingEvals.ImbalancedScenario | notebooks/01_understanding_evals.py:140-153 | that scenario has po = pe = 0.9 and kappa 0 |
| UnderstandingEvals.SliderCell | notebooks/01_understanding_evals.py:183-221 | nothing is shown exactly for an empty matrix; otherwise accuracy lies in [0, 1], kappa is at most 1, fail recall is tn/(tn+fn), and the text is the package's wording of the band |
| UnderstandingEvals.SliderLabelReading | notebooks/01_understanding_evals.py:173-207 | read with the sliders' labels (fn = missed failures, fp = false alarms), the cell's fail recall is the true fail recall, and its kappa is the package's under either reading |
| UnderstandingEvals.SliderReadingsDisagree | notebooks/01_understanding_evals.py:175-176 | with one response each on the tn and fn sliders, the cell shows 0.5, the recall under the slider labels, while the matrix as displayed has recall 1 |
| UnderstandingEvals.Interpret | notebooks/01_understanding_evals.py:210-221 | the slider's text is the package's `interpret_kappa` |
| UnderstandingEvals.SliderAgreesWithMetrics | notebooks/01_understanding_evals.py:194-204 | for a non-empty matrix the slider's accuracy and kappa are the package's |
| PositionBias.Swap | examples/position_bias_demo.py:93-98 | the swapped request exchanges both the texts and their labels |
| PositionBias.SwapInvolution | examples/position_bias_demo.py:93-98 | swapping twice restores the request |
| PositionBias.RoundTwoIsSwap | examples/position_bias_demo.py:93-98 | round two shows B first under label "B" and A second under label "A" |
| PositionBias.Choices | examples/position_bias_demo.py:61 | the enum holds exactly the two labels and "tie" |
| PositionBias.CompareResponses | examples/position_bias_demo.py:77-81 | fails exactly when the output has no function call; otherwise the winner is that of the first function call in the output |
| PositionBias.FirstCallDecides | examples/position_bias_demo.py:77-79 | the first function call names the winner, whatever calls follow it |
| PositionBias.Reconcile | examples/position_bias_demo.py:102-116 | both answers are echoed; bias is flagged exactly when they differ; the final answer is round one's when they agree and "tie" otherwise |
| PositionBias.DetectPositionBias | examples/position_bias_demo.py:84-116 | succeeds exactly when both rounds yield a call; round one asks (A, B), round two the swap; bias is flagged iff the answers differ; final is round one's answer or "tie" |
| PositionBias.FinalIsAChoice | examples/position_bias_demo.py:102-109 | when each round's answer is in its enum, the final answer is "A", "B" or "tie" |
| PositionBias.OrderBlindKeepsAnswer | examples/position_bias_demo.py:102-105 | a judge whose answer does not depend on the order never triggers the bias flag, and its answer stands |
| PositionBias.FirstShownIsCaught | examples/position_bias_demo.py:106-109 | a judge that always picks the first text shown answers A then B, so bias is flagged and the result is "tie" |
| PositionBias.PrefersLongerIsConsistent | examples/position_bias_demo.py:20-23 | a judge preferring the longer response B picks "B" in both rounds, so "B" stands without bias |
| TextParsing.ParseText | examples/text_vs_function.py:124-126 | the parse is always "pass" or "fail" |
| TextParsing.ParsesPassIff | examples/text_vs_function.py:126 | the parse is "pass" exactly when "pass" occurs somewhere in the lower-cased text |
| TextParsing.EvaluateWithTextParsing | examples/text_vs_function.py:51-55 | the raw text is returned unchanged; the verdict is "pass" exactly when "pass" occurs in the lower-cased text, and "fail" exactly when it does not |
| TextParsing.InlineParseIsParseText | examples/text_vs_function.py:53 | the inline parse is `parse_text` |
| TextParsing.CaseInsensitive | examples/text_vs_function.py:126 | for ASCII text, upper- or lower-casing a reply first never changes its parse |
| TextParsing.PassAt | examples/text_vs_function.py:126 | any text reading "pass", in any case, at some position parses as "pass" |
| TextParsing.TrickyResponsesParseAsPass | examples/text_vs_function.py:114-121 | every listed tricky reply parses as "pass" |
| TextParsing.BypassFalsePositive | examples/text_vs_function.py:144 | "The bypass fails" parses as "pass" |
| TextParsing.CompassionateFalsePositive | examples/text_vs_function.py:145 | "compassionate response" parses as "pass" |
| TextParsing.FailParsesAsFail | examples/text_vs_function.py:126 | "FAIL" parses as "fail" |
| TextParsing.EvaluateWithFunctionCalling | examples/text_vs_function.py:101-107 | fails exactly when the output has no function call; otherwise the raw arguments and verdict come from the first function call in the output |
| TextParsing.FirstCallDecides | examples/text_vs_function.py:101-105 | the first function call supplies the arguments and the verdict, whatever calls follow it |
| TextParsing.FunctionCallingIsValid | examples/text_vs_function.py:100-105 | when every call's verdict is in the strict enum, so is the extracted verdict |
| Judge.VerdictOf | evaluators/openai_evaluator.py:146 | the verdict is the submitted one when present, else "fail" |
| Judge.Loop | evaluators/openai_evaluator.py:130-158 | from a given iteration on: no call and "Max retries exceeded" for an empty range; otherwise at most `retries` calls, every call before the last raised and was followed by a backoff with its base, a returning call decides, and a raise in the last allowed call gives "fail" with the last-error text |
| Judge.Run | evaluators/openai_evaluator.py:130-158 | the same for the whole loop from the first iteration |
| Judge.FirstReturnDecides | evaluators/openai_evaluator.py:130-148 | the first iteration that returns decides the result, and it is the last call |
| Judge.EveryAttemptRaises | evaluators/openai_evaluator.py:150-156 | when every iteration raises, all `retries` calls are made with `retries - 1` backoffs, and the last error is reported |
| Judge.MaxRetriesOnlyWithoutCalls | evaluators/openai_evaluator.py:158 | "Max retries exceeded" is reported exactly when `retries <= 0` |
| CerebrasEvaluator.Fallback | evaluators/cerebras_evaluator.py:149-154 | the fallback verdict is "pass" exactly when "PASS" lies wholly within the first 20 characters of the stripped, upper-cased text; the reasoning is the prefix plus the first 100 characters |
| CerebrasEvaluator.PassWindow | evaluators/cerebras_evaluator.py:151 | `"PASS" in text[:20]` holds exactly when "PASS" starts at one of the positions 0 to 16 |
| CerebrasEvaluator.WindowOccurrence | evaluators/cerebras_evaluator.py:151 | `sub in s[:n]` holds exactly when sub occurs in s ending by position n |
| CerebrasEvaluator.Handle | evaluators/cerebras_evaluator.py:139-156 | an API error or malformed submitted arguments raise; a returned verdict is "pass", "fail" or the one a submitted call carries |
| CerebrasEvaluator.ToolCallDecides | evaluators/cerebras_evaluator.py:142-146 | a first tool call to `submit_evaluation` decides: its verdict (default "fail") and exactly the first min(200, len) characters of its reasoning (default "") |
| CerebrasEvaluator.TextFallbackDecides | evaluators/cerebras_evaluator.py:149-154 | without that call, non-empty text is parsed by the fallback, whose reasoning starts with the fallback prefix |
| CerebrasEvaluator.NothingUsableFails | evaluators/cerebras_evaluator.py:156 | without that call and without text, the answer is "fail" with the no-tool-call message |
| CerebrasEvaluator.FallbackPassIsNaivePass | evaluators/cerebras_evaluator.py:149-151 | for ASCII text, every reply the fallback passes is also passed by the naive parser of the text-parsing demo |
| CerebrasEvaluator.Base | evaluators/cerebras_evaluator.py:161-171 | the backoff base is 3 exactly for rate-limit errors and 2 for all others |
| CerebrasEvaluator.Evaluate | evaluators/cerebras_evaluator.py:122-175 | at most `retries` calls; none for `retries <= 0`; each call before the last raised, followed by a backoff with its base; a returning call decides; a raise in the last allowed call gives "fail" with the truncated error |
| CerebrasEvaluator.VerdictIsPassOrFail | evaluators/cerebras_evaluator.py:142-175 | when every submitted verdict is "pass" or "fail", so is the result |
| CerebrasEvaluator.RateLimitedThroughout | evaluators/cerebras_evaluator.py:162-173 | a constant rate-limit error makes 5 calls with four base-3 backoffs, then reports the error |
| CerebrasEvaluator.RateAt | evaluators/cerebras_evaluator.py:162 | any message showing "rate" in any case counts as a rate limit |
| CerebrasEvaluator.GenerateLooksLikeRateLimit | evaluators/cerebras_evaluator.py:162 | "failed to generate" counts as a rate limit, because it contains "rate" |
| OpenAIEvaluator.Handle | evaluators/openai_evaluator.py:143-148 | an API error raises; a response without submissions returns the no-function-call result; any other reasoning comes from a submission in the output |
| OpenAIEvaluator.FirstSubmissionDecides | evaluators/openai_evaluator.py:143-146 | the first `submit_evaluation` item decides, with verdict default "fail" and reasoning default "" |
| OpenAIEvaluator.MalformedSubmissionRaises | evaluators/openai_evaluator.py:143-150 | arguments of the first submission that do not decode raise inside the `try`, so the attempt fails and is retried |
| OpenAIEvaluator.Evaluate | evaluators/openai_evaluator.py:130-158 | at most `retries` calls; every backoff has base 2; each call before the last raised; a returning call decides; a raise in the last allowed call gives "fail" with the full error |
| OpenAIEvaluator.NoSubmissionStopsAtOnce | evaluators/openai_evaluator.py:148 | a response without a submission ends the run after one call, with no backoff |
| OpenAIEvaluator.FailingThroughout | evaluators/openai_evaluator.py:150-156 | an API that always raises makes 3 calls with two base-2 backoffs, then reports the error |

## Left out

- Network clients, API keys and `load_dotenv`: each call's outcome is a parameter instead.
- `time.sleep` and the `random.uniform` jitter: a run records only the base of each backoff, and its exponent is the backoff's position.
- JSON decoding: in the two evaluators, tool-call arguments arrive decoded as an optional verdict and an optional reasoning, or as a decoding error. Non-string JSON values (`args.get` returning a number, say) are not modelled.
- Decode errors in the two demos: undecodable arguments at `examples/position_bias_demo.py:79` and `examples/text_vs_function.py:104` raise out of the function in the source; the demos' `OutputItem` always carries a decoded value, so this error is not modelled.
- The prompt (`get_prompt` in `evaluators/base.py`) and the rest of that abstract base class: they are string interpolation with nothing to prove. `evaluators/base.py` is not part of this model.
- `math.sqrt`: a parameter known only to be non-negative. Hence `Metrics.WaldExample` assumes a square root exact at its one argument.
- Float rounding: ratios are exact reals, so equalities like `pe == 1` hold exactly in the model where Python may miss them by rounding.
- Case mapping and whitespace: ASCII only. Python's Unicode `lower`, `upper` and `strip` are not modelled.
- LowerOfUpper: holds for ASCII only. Under Python's Unicode mapping `"ß".upper().lower()` is `"ss"`, not `"ß"`.
- CaseInsensitive: holds for ASCII only. Under Python's Unicode mapping, `"paß".upper()` is `"PASS"`, so upper-casing can turn a "fail" parse into "pass".
- FallbackPassIsNaivePass: holds for ASCII only. Under Python's Unicode mapping the Cerebras fallback passes `"paß"` (it upper-cases to `"PASS"`), while the naive parser fails it.
- Missing dictionary keys: a result without `"label"` or `"pred"` (a `KeyError` in `evaluators/metrics.py:65-68`) a comparison without `"winner"` (a `KeyError` in `examples/position_bias_demo.py:79`) and function-calling arguments without `"verdict"` (a `KeyError` in `examples/text_vs_function.py:104`) are not modelled; `Judgement` and both demos' `OutputItem` always carry those fields.
- In the text-parsing demo, a `None` message content (an `AttributeError` in the source) is not modelled; the reply text is a string.
- In the Cerebras evaluator, an empty `choices` list (an `IndexError` inside the `try`) is not a separate case; it is one of the replies that raise.
- Printing, the `__main__` blocks, notebook UI, sliders and plots.
- The notebooks' `np.linspace` sweeps: `KappaIntuition.AlwaysPassPoint` and `KappaIntuition.SimulatePoint` model one loop iteration for any rate in [0, 1].
- KappaIntuition.AlwaysPassPoint: its accuracy is stated only by `NinetyPercentAccurateAlwaysPass` at one rate, not as a formula in the rate.
- The tool schemas and the "strict" flag: `PositionBias.Strict` and the requires of `TextParsing.FunctionCallingIsValid` and `CerebrasEvaluator.VerdictIsPassOrFail` assume what strict mode promises.

## Findings

| source | as written | input that shows it | evidently intended | confidence | as-written member | corrected member |
|---|---|---|---|---|---|---|
| examples/kappa_calculator.py:64 | "fail recall" is computed as tn / (tn + fn), which is the precision of the fail class | predictions [fail, fail], labels [pass, fail]: the one failure is caught, yet 0.5 is reported | tn / (tn + fp), the share of failures caught, as `recall_fail` in evaluators/metrics.py:93 | not executed | Agreement.ReportedFailRecallMisses | Agreement.FailRecallMeaning |
| notebooks/03_kappa_intuition.py:341 | the simulation plots tn / (tn + fn) as "fail recall" against the 80% target | failure rate 0.5: 75 of 100 failures caught (recall 0.75), yet 15/17 is plotted, above the target | tn / (tn + fp) | not executed | KappaIntuition.SimulatedFailRecallOverstates | Agreement.FailRecallMeaning |
| notebooks/03_kappa_intuition.py:189 | the slider cell computes "fail recall" as tn / (tn + fn) | tp = 0, tn = 1, fp = 0, fn = 1: no failure missed, yet 0.5 and "Too low" are shown | tn / (tn + fp) | not executed | KappaIntuition.SliderFailRecallMisses | Agreement.FailRecallMeaning |
| notebooks/01_understanding_evals.py:175-176 | the sliders label fn "missed failures" and fp "false alarms", but the matrix display (lines 229-233) and the chance-agreement marginals (lines 199-201) put fn at predicted fail / actual pass; the fail recall at line 207 is right only under the slider labels | tp = 0, tn = 1, fp = 0, fn = 1: as displayed, the one actual failure is caught (recall 1), yet 0.5 is shown | one convention for fn and fp throughout; kappa is the same either way, because chance agreement treats fp and fn alike | not executed | UnderstandingEvals.SliderReadingsDisagree | UnderstandingEvals.SliderLabelReading |

`Agreement.FailRecall` is the corrected definition. `Agreement.FailRecallMeaning`
proves it is the share of fail-labelled results predicted "fail". The
package's report uses it, and `Metrics.FailScoresMeaning` proves the same
meaning of the report's fail recall. The script and the notebooks keep their
formula as written (`Agreement.ReportedFailRecall`), because each copy is
modelled faithfully. `KappaCalculator.SummaryAgreesWithMetrics` shows that
their figure is the package's fail precision. Notebook 01 differs: its sliders
label fn as missed failures, so under its own labels the figure is a recall
(`UnderstandingEvals.SliderLabelReading`). What conflicts there is the matrix
display and the chance-agreement marginals, which use the other convention.
