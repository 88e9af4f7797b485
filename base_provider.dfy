/** The common base of the data providers: a base URL taken from the
    configuration and a bounded retry loop around `fetch`. The network is an
    oracle: the n-th request of a call receives `replies(n)`. */
module BaseProviders {
  import opened Outcomes
  import opened JsText
  import opened Platform
  import opened RetryLoop

  datatype ProviderConfig = ProviderConfig(apiKey: Option<string>, baseUrl: Option<string>)

  type Headers = map<string, string>

  /** The part of a `RequestInit` the loop looks at. */
  datatype RequestOptions = RequestOptions(headers: Option<Headers>)

  /** One request as sent. */
  datatype Request = Request(url: string, headers: Headers)

  datatype HttpResponse<B> = HttpResponse(status: int, body: B)

  /** The settlement of one `fetch`: a response, or a rejection with the
      thrown value (`None` when it is not an `Error`). */
  datatype HttpReply<B> = Answered(response: HttpResponse<B>) | Rejected(thrown: Option<Failure>)

  const DefaultRetries: int := 3
  const RetryPause: nat := 1000

  const DefaultHeaders: Headers := map["Accept" := "application/json", "Cache-Control" := "no-cache"]

  /** `{ Accept, Cache-Control, ...(options.headers || {}) }`. */
  function MergedHeaders(given: Option<Headers>): Headers {
    DefaultHeaders + given.GetOr(map[])
  }

  /** Caller-supplied headers override the defaults; the defaults fill in
      the rest and nothing else is added. */
  lemma MergedHeadersSpec(given: Option<Headers>)
    ensures var h := MergedHeaders(given);
      h.Keys == DefaultHeaders.Keys + given.GetOr(map[]).Keys
      && (forall k :: k in given.GetOr(map[]) ==> h[k] == given.GetOr(map[])[k])
      && (forall k :: k in DefaultHeaders && k !in given.GetOr(map[]) ==> h[k] == DefaultHeaders[k])
  {
  }

  /** How one attempt ends: an ok response succeeds; a non-ok status fails
      the attempt like a thrown error does. */
  function AttemptOutcome<B>(reply: HttpReply<B>): Result<HttpResponse<B>, Failure> {
    match reply
    case Answered(response) =>
      if IsOkStatus(response.status) then Ok(response)
      else Err(Failure(PlainError, "HTTP error! status: " + IntToString(response.status)))
    case Rejected(thrown) => Err(AsError(thrown))
  }

  /** The attempts a call with `retries` would make if none succeeded. */
  function Tries<B>(replies: nat -> HttpReply<B>, retries: int): (ts: seq<Result<HttpResponse<B>, Failure>>)
    ensures |ts| == if retries < 0 then 0 else retries
    ensures forall i :: 0 <= i < |ts| ==> ts[i] == AttemptOutcome(replies(i))
  {
    seq(if retries < 0 then 0 else retries, (i: int) requires 0 <= i => AttemptOutcome(replies(i)))
  }

  /** What the call settles to: the first ok response, or the last error
      thrown; `Err(None)` is the `null` thrown when no attempt was made. */
  function FetchOutcome<B>(replies: nat -> HttpReply<B>, retries: int): Result<HttpResponse<B>, Option<Failure>> {
    match Settle(Tries(replies, retries))
    case None => Err(None)
    case Some(Ok(response)) => Ok(response)
    case Some(Err(f)) => Err(Some(f))
  }

  /** The call succeeds exactly when one of its `retries` attempts is
      answered with an ok status, and then with the first such response;
      when all fail it throws the last attempt's error. */
  lemma FetchOutcomeSpec<B>(replies: nat -> HttpReply<B>, retries: int)
    ensures FetchOutcome(replies, retries).Ok? <==>
      exists i :: 0 <= i < retries && replies(i).Answered? && IsOkStatus(replies(i).response.status)
    ensures forall i ::
      (0 <= i < retries && replies(i).Answered? && IsOkStatus(replies(i).response.status)
       && forall j :: 0 <= j < i ==> AttemptOutcome(replies(j)).Err?)
      ==> FetchOutcome(replies, retries) == Ok(replies(i).response)
    ensures retries > 0 && (forall i :: 0 <= i < retries ==> AttemptOutcome(replies(i)).Err?) ==>
      FetchOutcome(replies, retries) == Err(Some(AttemptOutcome(replies(retries - 1)).error))
    ensures retries <= 0 ==> FetchOutcome(replies, retries) == Err(None)
  {
    var ts := Tries(replies, retries);
    SettleSpec(ts);
    if exists i :: 0 <= i < retries && replies(i).Answered? && IsOkStatus(replies(i).response.status) {
      var i :| 0 <= i < retries && replies(i).Answered? && IsOkStatus(replies(i).response.status);
      assert ts[i].Ok?;
    }
    if FetchOutcome(replies, retries).Ok? {
      var i :| 0 <= i < |ts| && ts[i].Ok?;
      assert replies(i).Answered? && IsOkStatus(replies(i).response.status);
    }
  }

  /** An HTTP error status is reported with the status in the message. */
  lemma ErrorStatusMessage<B>(response: HttpResponse<B>)
    requires !IsOkStatus(response.status)
    ensures AttemptOutcome(Answered(response)) == Err(Failure(PlainError, "HTTP error! status: " + IntToString(response.status)))
  {
  }

  class BaseProvider<B> {
    const config: ProviderConfig
    const baseUrl: string

    /** `this.baseUrl = config.baseUrl || ''`. */
    constructor (config: ProviderConfig)
      ensures this.config == config
      ensures config.baseUrl.Some? && config.baseUrl.value != "" ==> baseUrl == config.baseUrl.value
      ensures config.baseUrl.None? || config.baseUrl.value == "" ==> baseUrl == ""
    {
      this.config := config;
      baseUrl := if config.baseUrl.Some? && config.baseUrl.value != "" then config.baseUrl.value else "";
    }

    /** `fetchWithRetry(url, options, retries)`: at most `retries` requests,
        all to `url` with the merged headers; the first ok response is
        returned at once; a pause of one second follows every failed
        attempt but the last; when all attempts fail the last error is
        thrown. */
    method FetchWithRetry(url: string, options: RequestOptions, retries: int, replies: nat -> HttpReply<B>)
      returns (r: Result<HttpResponse<B>, Option<Failure>>, sent: seq<Request>, waits: seq<nat>)
      ensures r == FetchOutcome(replies, retries)
      ensures |sent| == Made(Tries(replies, retries))
      ensures forall i :: 0 <= i < |sent| ==> sent[i] == Request(url, MergedHeaders(options.headers))
      ensures waits == Pauses(|sent|, Constantly(RetryPause))
    {
      ghost var ts := Tries(replies, retries);
      var headers := MergedHeaders(options.headers);
      var lastError: Option<Failure> := None;
      sent, waits := [], [];
      var i := 0;
      while i < retries
        invariant 0 <= i <= |ts| && (retries > 0 ==> i < retries)
        invariant |sent| == i && forall j :: 0 <= j < i ==> sent[j] == Request(url, headers)
        invariant forall j :: 0 <= j < i ==> ts[j].Err?
        invariant waits == Pauses(i + 1, Constantly(RetryPause))
        invariant lastError.None? <==> i == 0
        invariant i > 0 ==> lastError == Some(ts[i - 1].error)
      {
        sent := sent + [Request(url, headers)];
        var outcome := AttemptOutcome(replies(i));
        assert ts[i] == outcome;
        if outcome.Ok? {
          SettleAtFirstOk(ts, i);
          return Ok(outcome.value), sent, waits;
        }
        lastError := Some(outcome.error);
        if i == retries - 1 {
          SettleAtLastFailure(ts, i);
          return Err(lastError), sent, waits;
        }
        FailuresExtend(ts, i);
        PausesExtend(i + 1, Constantly(RetryPause));
        waits := waits + [RetryPause];
        i := i + 1;
      }
      r := Err(lastError);
    }
  }
}
