/**
 * `CerebrasEvaluator.evaluate`: the Chat Completions reply of each attempt
 * is a parameter. A reply's first tool call decides the verdict; without
 * one, the message text is parsed; an exception is classified as a rate
 * limit or not, which picks the backoff base, and ends the run on the last
 * attempt.
 */
module CerebrasEvaluator {
  import opened Optional
  import opened Text
  import opened Judge
  import TextParsing

  const DefaultRetries: int := 5
  const NoToolCallOrContent: string := "No tool call or content in response"
  const FallbackPrefix: string := "Fallback text parse: "

  /** A tool call of the reply: the function's name and its decoded arguments. */
  datatype ToolCall = ToolCall(name: string, arguments: Arguments)

  /** `result.choices[0].message`: its tool calls (none is the empty list) and its text content. */
  datatype Message = Message(toolCalls: seq<ToolCall>, content: Option<string>)

  /** What one call to the API does: raise with a message, or return a message. */
  datatype Reply = Failure(error: string) | Completed(message: Message)

  /** "PASS" starts at one of the positions 0 to 16, so that all of it lies in the first 20 characters. */
  ghost predicate ShowsPassEarly(text: string) {
    exists i :: 0 <= i <= 16 && OccursAt(text, "PASS", i)
  }

  /** The text fallback: "pass" when "PASS" is among the first 20 characters of the stripped, upper-cased text. */
  function Fallback(content: string): (e: Evaluation)
    ensures e.verdict == Pass <==> ShowsPassEarly(Upper(Strip(content)))
    ensures e.verdict == Pass || e.verdict == Fail
    ensures e.reasoning == FallbackPrefix + Prefix(content, 100)
  {
    var text := Upper(Strip(content));
    PassWindow(text);
    assert Pass[0] != Fail[0];
    var verdict := if Contains(Prefix(text, 20), "PASS") then Pass else Fail;
    assert verdict == Pass <==> Contains(Prefix(text, 20), "PASS");
    Evaluation(verdict, FallbackPrefix + Prefix(content, 100))
  }

  /** `"PASS" in text[:20]` is `ShowsPassEarly`. */
  lemma PassWindow(text: string)
    ensures Contains(Prefix(text, 20), "PASS") <==> ShowsPassEarly(text)
  {
    WindowOccurrence(text, 20, "PASS");
    if Contains(Prefix(text, 20), "PASS") {
      var i :| 0 <= i && i + |"PASS"| <= 20 && OccursAt(text, "PASS", i);
      assert 0 <= i <= 16;
    }
    if ShowsPassEarly(text) {
      var i :| 0 <= i <= 16 && OccursAt(text, "PASS", i);
      assert 0 <= i && i + |"PASS"| <= 20 && OccursAt(text, "PASS", i);
    }
  }

  /** `sub in s[:n]` holds exactly when `sub` occurs in `s` ending by position `n`. */
  lemma WindowOccurrence(s: string, n: nat, sub: string)
    ensures Contains(Prefix(s, n), sub) <==> exists i :: 0 <= i && i + |sub| <= n && OccursAt(s, sub, i)
  {
    var p := Prefix(s, n);
    ContainsIffOccurs(p, sub);
    if exists i :: OccursAt(p, sub, i) {
      var i :| OccursAt(p, sub, i);
      assert s[i..i + |sub|] == p[i..i + |sub|];
      assert OccursAt(s, sub, i);
    }
    if exists i :: 0 <= i && i + |sub| <= n && OccursAt(s, sub, i) {
      var i :| 0 <= i && i + |sub| <= n && OccursAt(s, sub, i);
      assert p[i..i + |sub|] == s[i..i + |sub|];
      assert OccursAt(p, sub, i);
    }
  }

  /** One iteration of the loop body: what a reply turns into. */
  function Handle(reply: Reply): (s: Step)
    ensures reply.Failure? ==> s == Raised(reply.error)
    ensures reply.Completed? && IsMalformedCall(reply.message) ==> s == Raised(reply.message.toolCalls[0].arguments.error)
    ensures s.Done? ==> s.result.verdict in {Pass, Fail} || (reply.Completed? && IsSubmitted(reply.message, s.result.verdict))
  {
    match reply
    case Failure(error) => Raised(error)
    case Completed(m) =>
      if |m.toolCalls| > 0 && m.toolCalls[0].name == ToolName then
        match m.toolCalls[0].arguments
        case Malformed(error) => Raised(error)
        case Decoded(verdict, reasoning) => Done(Evaluation(VerdictOf(verdict), Prefix(reasoning.GetOr(""), 200)))
      else if m.content.Some? && m.content.value != "" then Done(Fallback(m.content.value))
      else Done(Evaluation(Fail, NoToolCallOrContent))
  }

  /** The message's first tool call is `submit_evaluation` with arguments `json.loads` rejects. */
  predicate IsMalformedCall(m: Message) {
    |m.toolCalls| > 0 && m.toolCalls[0].name == ToolName && m.toolCalls[0].arguments.Malformed?
  }

  /** The message's first tool call is `submit_evaluation` and carries this verdict. */
  predicate IsSubmitted(m: Message, verdict: string) {
    |m.toolCalls| > 0 && m.toolCalls[0].name == ToolName && m.toolCalls[0].arguments.Decoded?
    && m.toolCalls[0].arguments.verdict == Some(verdict)
  }

  /** A submitted call decides the verdict, with the reasoning cut to 200 characters. */
  lemma ToolCallDecides(m: Message, verdict: Option<string>, reasoning: Option<string>)
    requires |m.toolCalls| > 0 && m.toolCalls[0] == ToolCall(ToolName, Decoded(verdict, reasoning))
    ensures Handle(Completed(m)).Done?
    ensures Handle(Completed(m)).result.verdict == if verdict.Some? then verdict.value else Fail
    ensures |Handle(Completed(m)).result.reasoning| <= 200
    ensures Handle(Completed(m)).result.reasoning <= reasoning.GetOr("")
    ensures Handle(Completed(m)).result.reasoning == Prefix(reasoning.GetOr(""), 200)
  {
  }

  /** Without a submitted call, non-empty text is parsed and the reasoning says so. */
  lemma TextFallbackDecides(m: Message)
    requires |m.toolCalls| == 0 || m.toolCalls[0].name != ToolName
    requires m.content.Some? && m.content.value != ""
    ensures Handle(Completed(m)) == Done(Fallback(m.content.value))
    ensures FallbackPrefix <= Handle(Completed(m)).result.reasoning
  {
  }

  /** Without a submitted call or text, the answer is "fail" with no retry. */
  lemma NothingUsableFails(m: Message)
    requires |m.toolCalls| == 0 || m.toolCalls[0].name != ToolName
    requires m.content.None? || m.content.value == ""
    ensures Handle(Completed(m)) == Done(Evaluation(Fail, NoToolCallOrContent))
  {
  }

  /** The characters of an occurrence of "PASS". */
  lemma UpperPassChars(t: string, i: int)
    requires OccursAt(t, "PASS", i)
    ensures 0 <= i && i + 4 <= |t|
    ensures t[i] == 'P' && t[i + 1] == 'A' && t[i + 2] == 'S' && t[i + 3] == 'S'
  {
    assert t[i..i + 4] == "PASS";
    assert t[i..i + 4][0] == 'P' && t[i..i + 4][1] == 'A' && t[i..i + 4][2] == 'S' && t[i..i + 4][3] == 'S';
  }

  /** Four characters reading "pass" are an occurrence of it. */
  lemma LowerPassChars(t: string, i: int)
    requires 0 <= i && i + 4 <= |t|
    requires t[i] == 'p' && t[i + 1] == 'a' && t[i + 2] == 's' && t[i + 3] == 's'
    ensures OccursAt(t, TextParsing.Pass, i)
  {
    assert t[i..i + 4] == TextParsing.Pass;
  }

  /** A character that upper-cases to the letter `upper` lower-cases to `lower`, its small form. */
  lemma LowerOfUpperAt(s: string, i: nat, upper: char, lower: char)
    requires i < |s| && Upper(s)[i] == upper
    requires 'A' <= upper <= 'Z' && lower == LowerChar(upper)
    ensures Lower(s)[i] == lower
  {
    LowerOfUpperChar(s[i]);
  }

  /** Where the upper-cased text shows "PASS", the lower-cased text shows "pass". */
  lemma UpperPassIsLowerPass(s: string, i: int)
    requires OccursAt(Upper(s), "PASS", i)
    ensures OccursAt(Lower(s), TextParsing.Pass, i)
  {
    UpperPassChars(Upper(s), i);
    LowerOfUpperAt(s, i, 'P', 'p');
    LowerOfUpperAt(s, i + 1, 'A', 'a');
    LowerOfUpperAt(s, i + 2, 'S', 's');
    LowerOfUpperAt(s, i + 3, 'S', 's');
    LowerPassChars(Lower(s), i);
  }

  /** "pass" occurs in a text wherever it occurs in a piece of it, shifted by the piece's position. */
  lemma PieceOccurrence(content: string, piece: string, i: int, j: int)
    requires OccursAt(content, piece, j)
    requires OccursAt(Lower(piece), TextParsing.Pass, i)
    ensures OccursAt(Lower(content), TextParsing.Pass, j + i)
  {
    var lc := Lower(content);
    var lp := Lower(piece);
    forall k | 0 <= k < 4 ensures lc[j + i + k] == TextParsing.Pass[k] {
      assert lp[i + k] == TextParsing.Pass[k];
      assert piece[i + k] == content[j + i + k];
    }
    assert lc[j + i..j + i + 4] == TextParsing.Pass;
  }

  /** Where the stripped, upper-cased text shows "PASS", the stripped, lower-cased text shows "pass". */
  lemma StrippedPassIsLowerPass(content: string, i: int)
    requires OccursAt(Upper(Strip(content)), "PASS", i)
    ensures OccursAt(Lower(Strip(content)), TextParsing.Pass, i)
  {
    UpperPassIsLowerPass(Strip(content), i);
  }

  /** A text with a piece showing "pass" in lower case parses as "pass" under the naive parser. */
  lemma PieceParsesPass(content: string, piece: string, i: int, j: int)
    requires OccursAt(content, piece, j)
    requires OccursAt(Lower(piece), TextParsing.Pass, i)
    ensures TextParsing.ParseText(content) == TextParsing.Pass
  {
    PieceOccurrence(content, piece, i, j);
    TextParsing.PassOccurs(content, j + i);
  }

  /** Hence "PASS" in the stripped, upper-cased text makes the naive parser answer "pass". */
  lemma EarlyPassOccurs(content: string, i: int)
    requires OccursAt(Upper(Strip(content)), "PASS", i)
    ensures TextParsing.ParseText(content) == TextParsing.Pass
  {
    StrippedPassIsLowerPass(content, i);
    PieceParsesPass(content, Strip(content), i, StripOffset(content));
  }

  /** The fallback is stricter than the naive parser of the text-parsing demo: its "pass" is also the naive "pass". */
  lemma FallbackPassIsNaivePass(content: string)
    requires Fallback(content).verdict == Pass
    ensures TextParsing.ParseText(content) == TextParsing.Pass
  {
    assert ShowsPassEarly(Upper(Strip(content)));
    var i :| 0 <= i <= 16 && OccursAt(Upper(Strip(content)), "PASS", i);
    EarlyPassOccurs(content, i);
  }

  /** `"429" in error or "rate" in error.lower()`. */
  predicate IsRateLimit(error: string) {
    Contains(error, "429") || Contains(Lower(error), "rate")
  }

  /** Rate-limit errors back off with base 3, all others with base 2. */
  function Base(error: string): (b: nat)
    ensures b == 3 <==> IsRateLimit(error)
    ensures b == 2 <==> !IsRateLimit(error)
  {
    if IsRateLimit(error) then 3 else 2
  }

  /** The message for an exception in the last attempt: the attempt count and the error's first 100 characters. */
  function LastError(retries: int, error: string): string {
    "Error after " + IntToString(retries) + " attempts: " + Prefix(error, 100)
  }

  /** `evaluate`, where `replies(i)` is what the i-th API call does. */
  function Evaluate(replies: nat -> Reply, retries: int): (r: Outcome)
    ensures retries <= 0 ==> r == Outcome(Evaluation(Fail, MaxRetriesExceeded), 0, [])
    ensures 0 < retries ==> 0 < r.calls <= retries && |r.backoffs| == r.calls - 1
    ensures 0 < retries ==> forall i :: 0 <= i < r.calls - 1 ==>
              Handle(replies(i)).Raised? && r.backoffs[i] == Base(Handle(replies(i)).error)
    ensures 0 < retries && Handle(replies(r.calls - 1)).Done? ==> r.result == Handle(replies(r.calls - 1)).result
    ensures 0 < retries && Handle(replies(r.calls - 1)).Raised? ==>
              r.calls == retries && r.result == Evaluation(Fail, LastError(retries, Handle(replies(r.calls - 1)).error))
  {
    var step := (i: nat) => Handle(replies(i));
    var r := Run(step, Base, e => LastError(retries, e), retries);
    assert forall i :: 0 <= i < r.calls - 1 ==> step(i) == Handle(replies(i));
    r
  }

  /** Every verdict is "pass" or "fail" as long as every submitted call's verdict is. */
  lemma VerdictIsPassOrFail(replies: nat -> Reply, retries: int)
    requires forall i: nat, v :: replies(i).Completed? && IsSubmitted(replies(i).message, v) ==> v in {Pass, Fail}
    ensures Evaluate(replies, retries).result.verdict in {Pass, Fail}
  {
    var r := Evaluate(replies, retries);
    if 0 < retries && Handle(replies(r.calls - 1)).Done? {
      var s := Handle(replies(r.calls - 1));
    }
  }

  /** An API that always answers with HTTP 429: five calls, four base-3 backoffs, and the error reported. */
  lemma RateLimitedThroughout(error: string)
    requires IsRateLimit(error)
    ensures var r := Evaluate(_ => Failure(error), DefaultRetries);
      r.calls == 5 && r.backoffs == [3, 3, 3, 3] && r.result == Evaluation(Fail, LastError(5, error))
  {
    var r := Evaluate(_ => Failure(error), DefaultRetries);
    EveryAttemptRaises((i: nat) => Handle(Failure(error)), Base, e => LastError(5, e), 5);
    assert |r.backoffs| == 4;
    assert forall i :: 0 <= i < 4 ==> r.backoffs[i] == 3;
  }

  /** An error whose lower-cased text shows "rate" at position `i` counts as a rate limit. */
  lemma RateAt(error: string, i: nat)
    requires i + 4 <= |error|
    requires LowerChar(error[i]) == 'r' && LowerChar(error[i + 1]) == 'a'
    requires LowerChar(error[i + 2]) == 't' && LowerChar(error[i + 3]) == 'e'
    ensures IsRateLimit(error)
  {
    assert Lower(error)[i..i + 4] == "rate";
    ContainsAt(Lower(error), "rate", i);
  }

  /** "rate" is matched anywhere in the message, so an error about failing to "generate" counts as a rate limit. */
  lemma GenerateLooksLikeRateLimit()
    ensures IsRateLimit("failed to generate")
  {
    RateAt("failed to generate", 14);
  }
}
