/**
 * The position-bias demo: the same pairwise comparison is asked twice, the
 * second time with both the texts and their labels swapped, and the two
 * answers are reconciled into a final verdict. The model's reply to each
 * request is a parameter.
 */
module PositionBias {
  import opened Optional
  import opened Sequences

  /** One comparison request: the text shown first, the text shown second, and their labels in that order. */
  datatype Call = Call(first: string, second: string, firstLabel: string, secondLabel: string)

  /** The same request with the texts and their labels both exchanged. */
  function Swap(c: Call): (r: Call)
    ensures r.first == c.second && r.second == c.first
    ensures r.firstLabel == c.secondLabel && r.secondLabel == c.firstLabel
  {
    Call(c.second, c.first, c.secondLabel, c.firstLabel)
  }

  /** Swapping twice gives back the original request. */
  lemma SwapInvolution(c: Call)
    ensures Swap(Swap(c)) == c
  {
  }

  const Tie: string := "tie"

  /** The values the tool schema's `winner` enum admits for a request. */
  function Choices(c: Call): (s: set<string>)
    ensures c.firstLabel in s && c.secondLabel in s && Tie in s
    ensures forall w :: w in s ==> w == c.firstLabel || w == c.secondLabel || w == Tie
  {
    {c.firstLabel, c.secondLabel, Tie}
  }

  /** An item of the response's output list: a decoded `submit_comparison` call, or anything else. */
  datatype OutputItem = FunctionCall(winner: string) | OtherItem

  /** `item.type == "function_call"`. */
  predicate IsCall(item: OutputItem) {
    item.FunctionCall?
  }

  /** `compare_responses`: the winner named by the first function call, or the "No function call" error. */
  function CompareResponses(output: seq<OutputItem>): (r: Result<string>)
    ensures r.Err? <==> forall i :: 0 <= i < |output| ==> !output[i].FunctionCall?
    ensures r.Ok? ==> exists k :: 0 <= k < |output| && output[k] == FunctionCall(r.value) &&
                                  forall i :: 0 <= i < k ==> !output[i].FunctionCall?
  {
    match FirstIndex(output, IsCall)
    case None => Err("No function call")
    case Some(k) => Ok(output[k].winner)
  }

  /** The first function call names the winner, whatever calls follow it. */
  lemma FirstCallDecides(output: seq<OutputItem>, k: nat)
    requires k < |output| && output[k].FunctionCall?
    requires forall i :: 0 <= i < k ==> !output[i].FunctionCall?
    ensures CompareResponses(output) == Ok(output[k].winner)
  {
    var r := CompareResponses(output);
    assert r.Ok?;
    var j :| 0 <= j < |output| && output[j] == FunctionCall(r.value) && forall i :: 0 <= i < j ==> !output[i].FunctionCall?;
    assert j == k;
  }

  /** The dictionary `detect_position_bias` returns. */
  datatype Comparison = Comparison(round1: string, round2: string, final: string, biasDetected: bool)

  /** The first request: A shown first, B shown second. */
  function RoundOne(a: string, b: string): Call {
    Call(a, b, "A", "B")
  }

  /** The second request is the first one swapped. */
  lemma RoundTwoIsSwap(a: string, b: string)
    ensures Swap(RoundOne(a, b)) == Call(b, a, "B", "A")
  {
  }

  /** Reconciles two answers: agreement keeps the answer, disagreement becomes a tie and flags bias. */
  function Reconcile(result1: string, result2: string): (r: Comparison)
    ensures r.round1 == result1 && r.round2 == result2
    ensures r.biasDetected <==> result1 != result2
    ensures r.final == (if r.biasDetected then Tie else result1)
  {
    if result1 == result2 then Comparison(result1, result2, result1, false)
    else Comparison(result1, result2, Tie, true)
  }

  /**
   * `detect_position_bias` for the texts `a` and `b`, where `respond` gives
   * the output list the model returns for a request. A request without a
   * function call ends the run with its error.
   */
  function DetectPositionBias(respond: Call -> seq<OutputItem>, a: string, b: string): (r: Result<Comparison>)
    ensures r.Ok? <==> CompareResponses(respond(RoundOne(a, b))).Ok? && CompareResponses(respond(Swap(RoundOne(a, b)))).Ok?
    ensures r.Ok? ==> r.value.round1 == CompareResponses(respond(Call(a, b, "A", "B"))).value
    ensures r.Ok? ==> r.value.round2 == CompareResponses(respond(Call(b, a, "B", "A"))).value
    ensures r.Ok? ==> (r.value.biasDetected <==> r.value.round1 != r.value.round2)
    ensures r.Ok? ==> r.value.final == (if r.value.biasDetected then Tie else r.value.round1)
  {
    match CompareResponses(respond(RoundOne(a, b)))
    case Err(e) => Err(e)
    case Ok(result1) =>
      match CompareResponses(respond(Swap(RoundOne(a, b))))
      case Err(e) => Err(e)
      case Ok(result2) => Ok(Reconcile(result1, result2))
  }

  /** The first winner of every request's output lies in that request's enum, as strict tool calling promises. */
  ghost predicate Strict(respond: Call -> seq<OutputItem>) {
    forall c: Call :: CompareResponses(respond(c)).Ok? ==> CompareResponses(respond(c)).value in Choices(c)
  }

  /** Under strict tool calling, the final verdict is "A", "B" or "tie". */
  lemma FinalIsAChoice(respond: Call -> seq<OutputItem>, a: string, b: string)
    requires Strict(respond)
    requires DetectPositionBias(respond, a, b).Ok?
    ensures DetectPositionBias(respond, a, b).value.final in {"A", "B", Tie}
  {
    assert CompareResponses(respond(RoundOne(a, b))).value in Choices(RoundOne(a, b));
  }

  /** The winner a model names for a request, or nothing when it names none. */
  function Verdict(respond: Call -> seq<OutputItem>, c: Call): Option<string> {
    match CompareResponses(respond(c))
    case Ok(w) => Some(w)
    case Err(_) => None
  }

  /** A judge whose choice follows the texts: showing them in the other order, with their labels, names the same label. */
  ghost predicate OrderBlind(respond: Call -> seq<OutputItem>) {
    forall c: Call :: Verdict(respond, Swap(c)) == Verdict(respond, c)
  }

  /** An order-blind judge never triggers the bias flag, and its answer is kept. */
  lemma OrderBlindKeepsAnswer(respond: Call -> seq<OutputItem>, a: string, b: string)
    requires OrderBlind(respond)
    requires DetectPositionBias(respond, a, b).Ok?
    ensures !DetectPositionBias(respond, a, b).value.biasDetected
    ensures DetectPositionBias(respond, a, b).value.final == DetectPositionBias(respond, a, b).value.round1
  {
    assert Verdict(respond, Swap(RoundOne(a, b))) == Verdict(respond, RoundOne(a, b));
  }

  /** A judge that always names whichever text it was shown first. */
  function FirstShown(c: Call): seq<OutputItem> {
    [FunctionCall(c.firstLabel)]
  }

  /** A purely positional judge names "A" and then "B", so bias is detected and the verdict is a tie. */
  lemma FirstShownIsCaught(a: string, b: string)
    ensures DetectPositionBias(FirstShown, a, b) == Ok(Comparison("A", "B", Tie, true))
  {
    assert "A" != "B" by { assert "A"[0] != "B"[0]; }
    assert FirstIndex(FirstShown(RoundOne(a, b)), IsCall) == Some(0);
    assert FirstIndex(FirstShown(Swap(RoundOne(a, b))), IsCall) == Some(0);
  }

  /** A judge that prefers the longer text, as the demo expects, names "B" both times. */
  function PrefersLonger(c: Call): seq<OutputItem> {
    [FunctionCall(if |c.second| > |c.first| then c.secondLabel else c.firstLabel)]
  }

  /** Such a judge agrees with itself across the two orders, so its "B" stands. */
  lemma PrefersLongerIsConsistent(a: string, b: string)
    requires |b| > |a|
    ensures DetectPositionBias(PrefersLonger, a, b) == Ok(Comparison("B", "B", "B", false))
  {
    assert FirstIndex(PrefersLonger(RoundOne(a, b)), IsCall) == Some(0);
    assert FirstIndex(PrefersLonger(Swap(RoundOne(a, b))), IsCall) == Some(0);
  }
}
