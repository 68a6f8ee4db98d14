/**
 * What the two provider evaluators share: the `(verdict, reasoning)` pair,
 * the decoded arguments of a `submit_evaluation` call, and the shape of
 * their retry loop. A loop's run is described by the evaluation it returns,
 * how many calls it made, and the base of each backoff it slept through
 * (the exponent of the i-th backoff is i; the jitter is not modelled).
 */
module Judge {
  import opened Optional

  const Pass: string := "pass"
  const Fail: string := "fail"
  const ToolName: string := "submit_evaluation"
  const MaxRetriesExceeded: string := "Max retries exceeded"

  /** The `(verdict, reasoning)` pair `evaluate` returns. */
  datatype Evaluation = Evaluation(verdict: string, reasoning: string)

  /** The arguments of a tool call after `json.loads`: the two fields if present, or the decoder's error. */
  datatype Arguments = Decoded(verdict: Option<string>, reasoning: Option<string>) | Malformed(error: string)

  /** What one attempt of the loop body ends in: a `return`, or an exception with its message. */
  datatype Step = Done(result: Evaluation) | Raised(error: string)

  /** A run of the retry loop: its result, the number of API calls, and the base of each backoff in order. */
  datatype Outcome = Outcome(result: Evaluation, calls: nat, backoffs: seq<nat>)

  /** `args.get("verdict", "fail")`. */
  function VerdictOf(verdict: Option<string>): (v: string)
    ensures verdict.Some? ==> v == verdict.value
    ensures verdict.None? ==> v == Fail
  {
    verdict.GetOr(Fail)
  }

  /**
   * The loop `for attempt in range(retries)` from iteration `attempt` on.
   * `step(i)` is what the body's i-th iteration ends in; an exception
   * before the last iteration sleeps with base `base(error)` and retries;
   * one in the last iteration returns "fail" with `lastError(error)`;
   * an empty range returns "Max retries exceeded".
   */
  function Loop(step: nat -> Step, base: string -> nat, lastError: string -> string, retries: int, attempt: nat): (r: Outcome)
    requires attempt == 0 || attempt < retries
    ensures retries <= attempt ==> r == Outcome(Evaluation(Fail, MaxRetriesExceeded), attempt, [])
    ensures attempt < retries ==> attempt < r.calls <= retries
    ensures attempt < retries ==> |r.backoffs| == r.calls - 1 - attempt
    ensures attempt < retries ==> forall i :: attempt <= i < r.calls - 1 ==>
              step(i).Raised? && r.backoffs[i - attempt] == base(step(i).error)
    ensures attempt < retries && step(r.calls - 1).Done? ==> r.result == step(r.calls - 1).result
    ensures attempt < retries && step(r.calls - 1).Raised? ==>
              r.calls == retries && r.result == Evaluation(Fail, lastError(step(r.calls - 1).error))
    decreases retries - attempt
  {
    if retries <= attempt then Outcome(Evaluation(Fail, MaxRetriesExceeded), attempt, [])
    else
      match step(attempt)
      case Done(e) => Outcome(e, attempt + 1, [])
      case Raised(error) =>
        if attempt < retries - 1 then
          var rest := Loop(step, base, lastError, retries, attempt + 1);
          Outcome(rest.result, rest.calls, [base(error)] + rest.backoffs)
        else Outcome(Evaluation(Fail, lastError(error)), attempt + 1, [])
  }

  /** The whole loop, from the first iteration. */
  function Run(step: nat -> Step, base: string -> nat, lastError: string -> string, retries: int): (r: Outcome)
    ensures retries <= 0 ==> r == Outcome(Evaluation(Fail, MaxRetriesExceeded), 0, [])
    ensures 0 < retries ==> 0 < r.calls <= retries && |r.backoffs| == r.calls - 1
    ensures 0 < retries ==> forall i :: 0 <= i < r.calls - 1 ==> step(i).Raised? && r.backoffs[i] == base(step(i).error)
    ensures 0 < retries && step(r.calls - 1).Done? ==> r.result == step(r.calls - 1).result
    ensures 0 < retries && step(r.calls - 1).Raised? ==>
              r.calls == retries && r.result == Evaluation(Fail, lastError(step(r.calls - 1).error))
  {
    Loop(step, base, lastError, retries, 0)
  }

  /** The first iteration that does not raise decides the result, and no call follows it. */
  lemma FirstReturnDecides(step: nat -> Step, base: string -> nat, lastError: string -> string, retries: int, k: nat)
    requires k < retries
    requires step(k).Done?
    requires forall i :: 0 <= i < k ==> step(i).Raised?
    ensures Run(step, base, lastError, retries).result == step(k).result
    ensures Run(step, base, lastError, retries).calls == k + 1
  {
    var r := Run(step, base, lastError, retries);
    if r.calls - 1 < k {
      assert false;
    }
    if r.calls - 1 > k {
      assert false;
    }
  }

  /** When every iteration raises, all `retries` calls are made, `retries - 1` backoffs taken, and the last error reported. */
  lemma EveryAttemptRaises(step: nat -> Step, base: string -> nat, lastError: string -> string, retries: int)
    requires 0 < retries
    requires forall i :: 0 <= i < retries ==> step(i).Raised?
    ensures Run(step, base, lastError, retries).calls == retries
    ensures |Run(step, base, lastError, retries).backoffs| == retries - 1
    ensures Run(step, base, lastError, retries).result == Evaluation(Fail, lastError(step(retries - 1).error))
  {
    var r := Run(step, base, lastError, retries);
    assert step(r.calls - 1).Raised?;
  }

  /** "Max retries exceeded" is reported only by a loop that made no call at all. */
  lemma MaxRetriesOnlyWithoutCalls(step: nat -> Step, base: string -> nat, lastError: string -> string, retries: int)
    requires forall i :: 0 <= i < retries && step(i).Done? ==> step(i).result.reasoning != MaxRetriesExceeded
    requires forall e :: lastError(e) != MaxRetriesExceeded
    ensures Run(step, base, lastError, retries).result.reasoning == MaxRetriesExceeded <==> retries <= 0
  {
    var r := Run(step, base, lastError, retries);
    if 0 < retries {
      assert step(r.calls - 1).Done? || step(r.calls - 1).Raised?;
    }
  }
}
