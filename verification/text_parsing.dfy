/**
 * The text-parsing versus function-calling demo: the naive verdict parser
 * that looks for "pass" anywhere in the lower-cased reply, the examples it
 * handles, the false positives it admits, and the function-calling path
 * whose verdict comes from a decoded tool call.
 */
module TextParsing {
  import opened Text
  import opened Optional
  import opened Sequences

  const Pass: string := "pass"
  const Fail: string := "fail"

  /** `parse_text(text)`: "pass" when the lower-cased text contains "pass" anywhere, "fail" otherwise. */
  function ParseText(text: string): (r: string)
    ensures r == Pass || r == Fail
  {
    if Contains(Lower(text), Pass) then Pass else Fail
  }

  /** The parser answers "pass" exactly when "pass" occurs at some position of the lower-cased text. */
  lemma ParsesPassIff(text: string)
    ensures ParseText(text) == Pass <==> Occurs(Lower(text), Pass)
  {
    assert Pass != Fail by { assert Pass[0] != Fail[0]; }
    ChoiceByOccurrence(Lower(text), Pass, Pass, Fail, ParseText(text));
  }

  /** A two-way choice on `sub in s` picks its first value exactly when `sub` occurs in `s`. */
  lemma ChoiceByOccurrence(s: string, sub: string, yes: string, no: string, r: string)
    requires yes != no
    requires r == if Contains(s, sub) then yes else no
    ensures r == yes <==> Occurs(s, sub)
  {
    ContainsIffOccurs(s, sub);
  }

  /** The pair `evaluate_with_text_parsing` returns, the reply being a parameter. */
  function EvaluateWithTextParsing(rawText: string): (r: (string, string))
    ensures r.0 == rawText
    ensures r.1 == Pass <==> exists i :: OccursAt(Lower(rawText), Pass, i)
    ensures r.1 == Fail <==> !exists i :: OccursAt(Lower(rawText), Pass, i)
  {
    ContainsIffOccurs(Lower(rawText), Pass);
    assert Pass[0] != Fail[0];
    var parsed := if Contains(Lower(rawText), Pass) then Pass else Fail;
    assert parsed == Pass <==> Contains(Lower(rawText), Pass);
    (rawText, parsed)
  }

  /** The inline parse of the text-parsing path is `parse_text`. */
  lemma InlineParseIsParseText(rawText: string)
    ensures EvaluateWithTextParsing(rawText).1 == ParseText(rawText)
  {
    ParsesPassIff(rawText);
  }

  /** The parser is case-insensitive: upper- or lower-casing the reply first changes nothing. */
  lemma CaseInsensitive(text: string)
    ensures ParseText(Upper(text)) == ParseText(text)
    ensures ParseText(Lower(text)) == ParseText(text)
  {
    LowerOfUpper(text);
    forall i | 0 <= i < |text| ensures Lower(Lower(text))[i] == Lower(text)[i] {
      LowerOfUpperChar(text[i]);
    }
    assert Lower(Lower(text)) == Lower(text);
  }

  /** Text that reads "pass", in any case, at position `i` parses as "pass". */
  lemma PassAt(text: string, i: nat)
    requires i + 4 <= |text|
    requires LowerChar(text[i]) == 'p' && LowerChar(text[i + 1]) == 'a'
    requires LowerChar(text[i + 2]) == 's' && LowerChar(text[i + 3]) == 's'
    ensures ParseText(text) == Pass
  {
    assert Lower(text)[i..i + 4] == Pass;
    ContainsAt(Lower(text), Pass, i);
  }

  /** Text whose lower-cased form shows "pass" at position `k` parses as "pass". */
  lemma PassOccurs(text: string, k: int)
    requires OccursAt(Lower(text), Pass, k)
    ensures ParseText(text) == Pass
  {
    ContainsAt(Lower(text), Pass, k);
  }

  /** The replies the demo lists as tricky. */
  const TrickyResponses: seq<string> := [
    "I would pass this response as correct.",
    "PASS",
    "Pass.",
    "The response passes the accuracy test.",
    "Verdict: pass (with high confidence)",
    "This is a passing answer."
  ]

  /** "pass" in the middle of a sentence. */
  lemma PassInSentence()
    ensures ParseText(TrickyResponses[0]) == Pass
  {
    PassAt(TrickyResponses[0], 8);
  }

  /** "PASS" in capitals. */
  lemma PassInCapitals()
    ensures ParseText(TrickyResponses[1]) == Pass
  {
    PassAt(TrickyResponses[1], 0);
  }

  /** "Pass." capitalised and punctuated. */
  lemma PassCapitalised()
    ensures ParseText(TrickyResponses[2]) == Pass
  {
    PassAt(TrickyResponses[2], 0);
  }

  /** The verb form "passes". */
  lemma PassAsVerb()
    ensures ParseText(TrickyResponses[3]) == Pass
  {
    PassAt(TrickyResponses[3], 13);
  }

  /** "Verdict: pass" with trailing text. */
  lemma PassAfterLabel()
    ensures ParseText(TrickyResponses[4]) == Pass
  {
    PassAt(TrickyResponses[4], 9);
  }

  /** The adjective "passing". */
  lemma PassAsAdjective()
    ensures ParseText(TrickyResponses[5]) == Pass
  {
    PassAt(TrickyResponses[5], 10);
  }

  /** Every tricky reply parses as "pass": the word, any case of it, and any word containing it. */
  lemma TrickyResponsesParseAsPass(k: nat)
    requires k < |TrickyResponses|
    ensures ParseText(TrickyResponses[k]) == Pass
  {
    if k == 0 { PassInSentence(); }
    else if k == 1 { PassInCapitals(); }
    else if k == 2 { PassCapitalised(); }
    else if k == 3 { PassAsVerb(); }
    else if k == 4 { PassAfterLabel(); }
    else { PassAsAdjective(); }
  }

  /** A false positive the demo warns about: "pass" inside "bypass". */
  lemma BypassFalsePositive()
    ensures ParseText("The bypass fails") == Pass
  {
    PassAt("The bypass fails", 6);
  }

  /** A false positive the demo warns about: "pass" inside "compassionate". */
  lemma CompassionateFalsePositive()
    ensures ParseText("compassionate response") == Pass
  {
    PassAt("compassionate response", 3);
  }

  /** A plain "FAIL" reply parses as "fail". */
  lemma FailParsesAsFail()
    ensures ParseText("FAIL") == Fail
  {
    assert Lower("FAIL") == Fail;
    assert !StartsWith(Fail, Pass) by { assert Fail[0] != Pass[0]; }
    NotContainsLonger(Fail[1..], Pass);
  }

  /** An item of the Responses API output: a `submit_evaluation` call with its raw and decoded arguments, or anything else. */
  datatype OutputItem = FunctionCall(arguments: string, verdict: string) | OtherItem

  /** `item.type == "function_call"`. */
  predicate IsCall(item: OutputItem) {
    item.FunctionCall?
  }

  /** `evaluate_with_function_calling`: the raw arguments and verdict of the first function call, or the "No function call" error. */
  function EvaluateWithFunctionCalling(output: seq<OutputItem>): (r: Result<(string, string)>)
    ensures r.Err? <==> forall i :: 0 <= i < |output| ==> !output[i].FunctionCall?
    ensures r.Ok? ==> exists k :: 0 <= k < |output| && output[k] == FunctionCall(r.value.0, r.value.1) &&
                                  forall i :: 0 <= i < k ==> !output[i].FunctionCall?
  {
    match FirstIndex(output, IsCall)
    case None => Err("No function call")
    case Some(k) => Ok((output[k].arguments, output[k].verdict))
  }

  /** The first function call supplies the arguments and the verdict, whatever calls follow it. */
  lemma FirstCallDecides(output: seq<OutputItem>, k: nat)
    requires k < |output| && output[k].FunctionCall?
    requires forall i :: 0 <= i < k ==> !output[i].FunctionCall?
    ensures EvaluateWithFunctionCalling(output) == Ok((output[k].arguments, output[k].verdict))
  {
    var r := EvaluateWithFunctionCalling(output);
    assert r.Ok?;
    var j :| 0 <= j < |output| && output[j] == FunctionCall(r.value.0, r.value.1) && forall i :: 0 <= i < j ==> !output[i].FunctionCall?;
    assert j == k;
  }

  /** With a strict schema every call's verdict is "pass" or "fail", and then so is the parsed result. */
  lemma FunctionCallingIsValid(output: seq<OutputItem>)
    requires forall i :: 0 <= i < |output| && output[i].FunctionCall? ==> output[i].verdict in {Pass, Fail}
    requires EvaluateWithFunctionCalling(output).Ok?
    ensures EvaluateWithFunctionCalling(output).value.1 in {Pass, Fail}
  {
  }
}
