/**
 * `OpenAIEvaluator.evaluate`: the Responses API result of each attempt is a
 * parameter. The first output item that is a `submit_evaluation` function
 * call decides the verdict; every exception before the last attempt backs
 * off with base 2, whatever its kind.
 */
module OpenAIEvaluator {
  import opened Optional
  import opened Text
  import opened Sequences
  import opened Judge

  const DefaultRetries: int := 3
  const NoFunctionCall: string := "No function call found in response"

  /** An item of `result.output`: a function call with its name and decoded arguments, or anything else. */
  datatype OutputItem = FunctionCall(name: string, arguments: Arguments) | OtherItem

  /** What one call to the API does: raise with a message, or return the output list. */
  datatype Reply = Failure(error: string) | Responded(output: seq<OutputItem>)

  /** `item.type == "function_call" and item.name == "submit_evaluation"`. */
  predicate IsSubmission(item: OutputItem) {
    item.FunctionCall? && item.name == ToolName
  }

  /** One iteration of the loop body: what a reply turns into. */
  function Handle(reply: Reply): (s: Step)
    ensures reply.Failure? ==> s == Raised(reply.error)
    ensures reply.Responded? && (forall i :: 0 <= i < |reply.output| ==> !IsSubmission(reply.output[i])) ==>
              s == Done(Evaluation(Fail, NoFunctionCall))
    ensures reply.Responded? && s.Done? && s.result.reasoning != NoFunctionCall ==>
              exists i :: 0 <= i < |reply.output| && IsSubmission(reply.output[i])
  {
    match reply
    case Failure(error) => Raised(error)
    case Responded(output) =>
      match FirstIndex(output, IsSubmission)
      case None => Done(Evaluation(Fail, NoFunctionCall))
      case Some(k) =>
        match output[k].arguments
        case Malformed(error) => Raised(error)
        case Decoded(verdict, reasoning) => Done(Evaluation(VerdictOf(verdict), reasoning.GetOr("")))
  }

  /** The first submission decides: its verdict (default "fail") and its full reasoning (default empty); later items are ignored. */
  lemma FirstSubmissionDecides(output: seq<OutputItem>, k: nat, verdict: Option<string>, reasoning: Option<string>)
    requires k < |output| && output[k] == FunctionCall(ToolName, Decoded(verdict, reasoning))
    requires forall i :: 0 <= i < k ==> !IsSubmission(output[i])
    ensures Handle(Responded(output)) == Done(Evaluation(if verdict.Some? then verdict.value else Fail, reasoning.GetOr("")))
  {
    var r := FirstIndex(output, IsSubmission);
    if r != Some(k) {
      assert false;
    }
  }

  /** Arguments of the first submission that do not decode raise inside the `try`, so the attempt counts as failed. */
  lemma MalformedSubmissionRaises(output: seq<OutputItem>, k: nat, error: string)
    requires k < |output| && output[k] == FunctionCall(ToolName, Malformed(error))
    requires forall i :: 0 <= i < k ==> !IsSubmission(output[i])
    ensures Handle(Responded(output)) == Raised(error)
  {
    var r := FirstIndex(output, IsSubmission);
    if r != Some(k) {
      assert false;
    }
  }

  /** The message for an exception in the last attempt: the attempt count and the whole error. */
  function LastError(retries: int, error: string): string {
    "Error after " + IntToString(retries) + " attempts: " + error
  }

  /** Every exception backs off with base 2. */
  function Base(error: string): nat {
    2
  }

  /** `evaluate`, where `replies(i)` is what the i-th API call does. */
  function Evaluate(replies: nat -> Reply, retries: int): (r: Outcome)
    ensures retries <= 0 ==> r == Outcome(Evaluation(Fail, MaxRetriesExceeded), 0, [])
    ensures 0 < retries ==> 0 < r.calls <= retries && |r.backoffs| == r.calls - 1
    ensures forall i :: 0 <= i < |r.backoffs| ==> r.backoffs[i] == 2
    ensures 0 < retries ==> forall i :: 0 <= i < r.calls - 1 ==> Handle(replies(i)).Raised?
    ensures 0 < retries && Handle(replies(r.calls - 1)).Done? ==> r.result == Handle(replies(r.calls - 1)).result
    ensures 0 < retries && Handle(replies(r.calls - 1)).Raised? ==>
              r.calls == retries && r.result == Evaluation(Fail, LastError(retries, Handle(replies(r.calls - 1)).error))
  {
    var step := (i: nat) => Handle(replies(i));
    var r := Run(step, Base, e => LastError(retries, e), retries);
    assert forall i :: 0 <= i < r.calls - 1 ==> step(i) == Handle(replies(i));
    r
  }

  /** A response without a submission ends the run at once: there is no retry. */
  lemma NoSubmissionStopsAtOnce(replies: nat -> Reply, retries: int)
    requires 0 < retries
    requires replies(0).Responded?
    requires forall i :: 0 <= i < |replies(0).output| ==> !IsSubmission(replies(0).output[i])
    ensures Evaluate(replies, retries) == Outcome(Evaluation(Fail, NoFunctionCall), 1, [])
  {
    var r := Evaluate(replies, retries);
    assert Handle(replies(0)).Done?;
  }

  /** An API that always raises: three calls, two base-2 backoffs, and the error reported in full. */
  lemma FailingThroughout(error: string)
    ensures var r := Evaluate(_ => Failure(error), DefaultRetries);
      r.calls == 3 && r.backoffs == [2, 2] && r.result == Evaluation(Fail, LastError(3, error))
  {
    var r := Evaluate(_ => Failure(error), DefaultRetries);
    EveryAttemptRaises((i: nat) => Handle(Failure(error)), Base, e => LastError(3, e), 3);
    assert |r.backoffs| == 2;
  }
}
