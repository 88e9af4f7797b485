/** The text-transformation service: asks the chat-completion API to rewrite
    a prompt, with at most two attempts, and never throws: a failure is
    returned in the `error` field of the answer. The API key is the
    configured key (empty when not configured); the n-th request receives
    `replies(n)`. */
module AiService {
  import opened Outcomes
  import opened JsText
  import opened Platform
  import opened RetryLoop

  const MaxAttempts: nat := 2

  const MissingKey: string := "API key is not configured"
  const NoContent: string := "No content in AI response"
  const Refused: string := "AI refused to generate response"
  const AllAttemptsFailed: string := "Failed to generate AI response after multiple attempts"

  /** A parsed JSON body: the `error` field of an error answer, and the
      first choice's `message.content` and `message.refusal`. */
  datatype AiBody =
    | AiJson(errorField: Option<string>, content: Option<string>, refusal: Option<string>)
    | NotJsonBody(parseError: string)

  datatype AiReply = AiAnswer(status: int, body: AiBody) | AiRejected(thrown: Option<Failure>)

  /** One request as sent: the prompt and the bearer key. */
  datatype AiRequest = AiRequest(prompt: string, apiKey: string)

  /** `{ text, error? }`. */
  datatype AiResponse = AiResponse(text: string, error: Option<string>)

  /** The value is present and not the empty string. */
  predicate Truthy(o: Option<string>) {
    o.Some? && o.value != ""
  }

  predicate IsQuoteMark(c: char) {
    c == '"' || c == '\''
  }

  /** `t.replace(/^["']|["']$/g, '')`: one quote mark is removed at the
      start and one at the end; a lone quote mark is removed once. */
  function StripQuotes(t: string): (r: string)
    ensures |t| - 2 <= |r| <= |t|
  {
    var head := if |t| >= 1 && IsQuoteMark(t[0]) then 1 else 0;
    var tail := if |t| >= 2 && IsQuoteMark(t[|t| - 1]) then 1 else 0;
    t[head..|t| - tail]
  }

  /** Quoting a text and stripping the quotes gives the text back. */
  lemma StripQuotesOfQuoted(s: string, open: char, close: char)
    requires IsQuoteMark(open) && IsQuoteMark(close)
    ensures StripQuotes([open] + s + [close]) == s
  {
    var t := [open] + s + [close];
    assert t[1..|t| - 1] == s;
  }

  /** A text that neither starts nor ends with a quote mark is kept. */
  lemma StripQuotesKeepsUnquoted(s: string)
    requires s != [] ==> !IsQuoteMark(s[0]) && !IsQuoteMark(s[|s| - 1])
    ensures StripQuotes(s) == s
  {
    assert s[0..|s|] == s;
  }

  /** `content.trim().replace(/^["']|["']$/g, '')`. */
  function CleanText(content: string): string {
    StripQuotes(Trim(content))
  }

  /** `errorData.error || 'API request failed (status). Please try again.'`. */
  function ApiFailureMessage(status: int, body: AiBody): string {
    if body.AiJson? && Truthy(body.errorField) then body.errorField.value
    else "API request failed (" + IntToString(status) + "). Please try again."
  }

  /** One pass through the `try` block of the loop. */
  function AttemptResult(apiKey: string, reply: AiReply): Result<string, Failure> {
    if apiKey == "" then Err(Failure(TransformationError, MissingKey))
    else
      match reply
      case AiRejected(thrown) => Err(AsError(thrown))
      case AiAnswer(status, body) =>
        if !IsOkStatus(status) then Err(Failure(TransformationError, ApiFailureMessage(status, body)))
        else
          match body
          case NotJsonBody(message) => Err(Failure(PlainError, message))
          case AiJson(_, content, refusal) =>
            if !Truthy(content) then Err(Failure(TransformationError, NoContent))
            else if Truthy(refusal) then Err(Failure(TransformationError, Refused))
            else Ok(CleanText(content.value))
  }

  /** An attempt succeeds exactly when a key is configured and the answer
      is ok, parsed, with content and without a refusal; it then yields the
      cleaned content. Without a key it fails with `MissingKey`. */
  lemma AttemptResultSpec(apiKey: string, reply: AiReply)
    ensures AttemptResult(apiKey, reply).Ok? <==>
      apiKey != "" && reply.AiAnswer? && IsOkStatus(reply.status) && reply.body.AiJson?
      && Truthy(reply.body.content) && !Truthy(reply.body.refusal)
    ensures AttemptResult(apiKey, reply).Ok? ==> AttemptResult(apiKey, reply).value == CleanText(reply.body.content.value)
    ensures apiKey == "" ==> AttemptResult(apiKey, reply) == Err(Failure(TransformationError, MissingKey))
  {
  }

  /** A non-ok answer fails the attempt with the server's `error` field, or
      else a message naming the status; a refusal fails it even when
      content is present. */
  lemma AttemptFailures(apiKey: string, reply: AiReply)
    requires apiKey != "" && reply.AiAnswer?
    ensures !IsOkStatus(reply.status) ==>
      AttemptResult(apiKey, reply) == Err(Failure(TransformationError,
        if reply.body.AiJson? && Truthy(reply.body.errorField) then reply.body.errorField.value
        else "API request failed (" + IntToString(reply.status) + "). Please try again."))
    ensures IsOkStatus(reply.status) && reply.body.AiJson? && Truthy(reply.body.content) && Truthy(reply.body.refusal) ==>
      AttemptResult(apiKey, reply) == Err(Failure(TransformationError, Refused))
    ensures IsOkStatus(reply.status) && reply.body.AiJson? && !Truthy(reply.body.content) ==>
      AttemptResult(apiKey, reply) == Err(Failure(TransformationError, NoContent))
  {
  }

  /** The attempts the loop would make if none succeeded. */
  function AiTries(apiKey: string, replies: nat -> AiReply): (ts: seq<Result<string, Failure>>)
    ensures |ts| == MaxAttempts
    ensures forall i :: 0 <= i < |ts| ==> ts[i] == AttemptResult(apiKey, replies(i))
  {
    seq(MaxAttempts, (i: int) requires 0 <= i => AttemptResult(apiKey, replies(i)))
  }

  /** `lastError?.message || 'Failed to generate AI response after multiple attempts'`. */
  function FinalError(lastError: Option<Failure>): string {
    if lastError.Some? && lastError.value.message != "" then lastError.value.message else AllAttemptsFailed
  }

  /** What `generateAIResponse` resolves to. */
  function ResponseOutcome(apiKey: string, replies: nat -> AiReply): AiResponse {
    match Settle(AiTries(apiKey, replies))
    case Some(Ok(text)) => AiResponse(text, None)
    case Some(Err(f)) => AiResponse("", Some(FinalError(Some(f))))
    case None => AiResponse("", Some(FinalError(None)))
  }

  /** The answer carries text and no error exactly when one of the two
      attempts succeeds, and then the first success's cleaned text;
      otherwise the text is empty and the error is the last attempt's
      message (or the fixed one when that message is empty). */
  lemma ResponseOutcomeSpec(apiKey: string, replies: nat -> AiReply)
    ensures ResponseOutcome(apiKey, replies).error.None? <==>
      exists i :: 0 <= i < MaxAttempts && AttemptResult(apiKey, replies(i)).Ok?
    ensures ResponseOutcome(apiKey, replies).error.None? ==>
      ResponseOutcome(apiKey, replies).text == AttemptResult(apiKey, replies(Made(AiTries(apiKey, replies)) - 1)).value
    ensures ResponseOutcome(apiKey, replies).error.Some? ==>
      ResponseOutcome(apiKey, replies) == AiResponse("", Some(FinalError(Some(AttemptResult(apiKey, replies(MaxAttempts - 1)).error))))
  {
    var ts := AiTries(apiKey, replies);
    SettleSpec(ts);
    var k := Made(ts);
    assert Settle(ts) == Some(ts[k - 1]);
    if exists i :: 0 <= i < MaxAttempts && AttemptResult(apiKey, replies(i)).Ok? {
      var i :| 0 <= i < MaxAttempts && AttemptResult(apiKey, replies(i)).Ok?;
      assert ts[i].Ok?;
    } else {
      assert forall i :: 0 <= i < |ts| ==> ts[i].Err?;
    }
  }

  /** Without an API key both attempts fail without a request, one second
      apart, and the answer reports the missing key. */
  lemma MissingKeyAnswer(replies: nat -> AiReply)
    ensures ResponseOutcome("", replies) == AiResponse("", Some(MissingKey))
    ensures Made(AiTries("", replies)) == MaxAttempts
  {
    SettleSpec(AiTries("", replies));
  }

  /** `generateAIResponse(prompt)`. */
  method GenerateAIResponse(prompt: string, apiKey: string, replies: nat -> AiReply)
    returns (response: AiResponse, sent: seq<AiRequest>, waits: seq<nat>)
    ensures response == ResponseOutcome(apiKey, replies)
    ensures |sent| == (if apiKey == "" then 0 else Made(AiTries(apiKey, replies)))
    ensures forall i :: 0 <= i < |sent| ==> sent[i] == AiRequest(prompt, apiKey)
    ensures waits == Pauses(Made(AiTries(apiKey, replies)), LinearBackoff)
  {
    ghost var ts := AiTries(apiKey, replies);
    var lastError: Option<Failure> := None;
    var attempts := 0;
    sent, waits := [], [];
    while attempts < MaxAttempts
      invariant 0 <= attempts <= MaxAttempts
      invariant forall j :: 0 <= j < attempts ==> ts[j].Err?
      invariant |sent| == (if apiKey == "" then 0 else attempts)
      invariant forall j :: 0 <= j < |sent| ==> sent[j] == AiRequest(prompt, apiKey)
      invariant waits == Pauses(attempts + (if attempts < MaxAttempts then 1 else 0), LinearBackoff)
      invariant attempts == 0 <==> lastError.None?
      invariant attempts > 0 ==> lastError == Some(ts[attempts - 1].error)
    {
      var outcome: Result<string, Failure>;
      if apiKey == "" {
        outcome := Err(Failure(TransformationError, MissingKey));
      } else {
        var reply := replies(|sent|);
        sent := sent + [AiRequest(prompt, apiKey)];
        outcome := AttemptResult(apiKey, reply);
      }
      if outcome.Ok? {
        SettleAtFirstOk(ts, attempts);
        return AiResponse(outcome.value, None), sent, waits;
      }
      lastError := Some(outcome.error);
      FailuresExtend(ts, attempts);
      if attempts < MaxAttempts - 1 {
        PausesExtend(attempts + 1, LinearBackoff);
        waits := waits + [1000 * (attempts + 1)];
      }
      attempts := attempts + 1;
    }
    SettleAllFailed(ts);
    response := AiResponse("", Some(FinalError(lastError)));
  }
}
