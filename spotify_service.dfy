/** The music-catalog access layer: a cached bearer token obtained with the
    client-credentials grant (section 4.4 of RFC 6749) and sent as a bearer
    token (section 2.1 of RFC 6750), a recursive retry wrapper that reacts to
    429 Too Many Requests (section 4 of RFC 6585) and its Retry-After header
    (section 10.2.3 of RFC 9110), to 401 and to transport failures, and the
    search post-filter.

    The network is an oracle: the n-th token request and the n-th catalog
    request of a session receive `token(n)` and `api(n)`. The clock is an
    explicit `now` in milliseconds, advanced only by the waits the service
    performs and by `Elapse`. */
module SpotifyService {
  import opened Outcomes
  import opened JsText
  import opened JsList
  import opened Platform
  import opened SpotifyTypes

  const InitialRetryDelay: int := 1000
  const MaxRetryDelay: int := 16000
  const MaxRetries: int := 3

  /** The answer of the token endpoint to one client-credentials request. */
  datatype TokenReply =
    | TokenGranted(accessToken: string, expiresIn: int)
      /** A non-ok answer with a JSON body carrying `error_description` and `error`. */
    | TokenRefused(description: Option<string>, error: Option<string>)
      /** The request was rejected, or the body could not be parsed. */
    | TokenFailed(message: string)

  /** The catalog resources the application requests. */
  datatype Endpoint = Search(query: string) | AudioFeatures(trackId: string)

  /** A parsed JSON body. */
  datatype Payload =
    | TrackPage(items: seq<Track>)
    | Features(features: FeatureData)
    | ErrorBody(message: Option<string>)
    | OtherJson

  datatype Body = Json(payload: Payload) | NotJson(parseError: string)

  /** The answer to one catalog request. */
  datatype ApiReply =
    | ApiResponse(status: int, retryAfter: Option<string>, body: Body)
    | ApiFailed(message: string)

  datatype Network = Network(token: nat -> TokenReply, api: nat -> ApiReply)

  /** One catalog request as sent: the resource and the bearer token. */
  datatype ApiRequest = ApiRequest(endpoint: Endpoint, bearer: string)

  /** The module-level token state plus what has happened so far: the clock,
      how many token requests and which catalog requests were made, and the
      waits performed. */
  datatype Session = Session(
    accessToken: Option<string>,
    expiry: Option<int>,
    now: int,
    exchanges: nat,
    requests: seq<ApiRequest>,
    waits: seq<nat>)

  datatype Step<T> = Step(session: Session, result: Result<T, Failure>)

  /** `accessToken && tokenExpirationTime && Date.now() < tokenExpirationTime`. */
  predicate HasFreshToken(s: Session) {
    s.accessToken.Some? && s.accessToken.value != ""
    && s.expiry.Some? && s.expiry.value != 0 && s.now < s.expiry.value
  }

  /** `error.error_description || error.error`, as interpolated into the
      message (an absent field prints as "undefined"). */
  function AuthFailureMessage(description: Option<string>, error: Option<string>): string {
    "Authentication failed: "
    + if description.Some? && description.value != "" then description.value
      else if error.Some? then error.value
      else "undefined"
  }

  /** `getAccessToken()`: the cached token while it is fresh, otherwise one
      exchange. A granted token is stored with an expiry one minute before
      the one announced; a failed exchange stores nothing. */
  function AccessToken(s: Session, net: Network): Step<string>
  {
    if HasFreshToken(s) then Step(s, Ok(s.accessToken.value))
    else
      var counted := s.(exchanges := s.exchanges + 1);
      match net.token(s.exchanges)
      case TokenGranted(token, expiresIn) =>
        Step(counted.(accessToken := Some(token), expiry := Some(s.now + (expiresIn - 60) * 1000)), Ok(token))
      case TokenRefused(description, error) =>
        Step(counted, Err(Failure(SpotifyError, AuthFailureMessage(description, error))))
      case TokenFailed(message) =>
        Step(counted, Err(Failure(PlainError, message)))
  }

  /** The token cache: a fresh token is reused with no exchange; otherwise
      exactly one exchange is made, a granted token is stored with its
      expiry, and a failed exchange stores nothing. */
  lemma AccessTokenSpec(s: Session, net: Network)
    ensures var r := AccessToken(s, net); HasFreshToken(s) ==> r == Step(s, Ok(s.accessToken.value))
    ensures var r := AccessToken(s, net); !HasFreshToken(s) ==> r.session.exchanges == s.exchanges + 1
    ensures var r := AccessToken(s, net); !HasFreshToken(s) && net.token(s.exchanges).TokenGranted? ==>
      var g := net.token(s.exchanges);
      r.result == Ok(g.accessToken)
      && r.session.accessToken == Some(g.accessToken)
      && r.session.expiry == Some(s.now + (g.expiresIn - 60) * 1000)
    ensures var r := AccessToken(s, net); r.result.Err? ==> r.session == s.(exchanges := s.exchanges + 1)
    ensures var r := AccessToken(s, net); r.result.Err? ==>
      (r.result.error.kind == SpotifyError <==> net.token(s.exchanges).TokenRefused?)
    ensures var r := AccessToken(s, net); r.session.now == s.now && r.session.requests == s.requests && r.session.waits == s.waits
  {
  }

  /** The wait before a rate-limited request is repeated:
      `parseInt(Retry-After || '1') * 1000` milliseconds, as `setTimeout`
      performs it. */
  function RetryWait(retryAfter: Option<string>): nat {
    var text := if retryAfter.Some? && retryAfter.value != "" then retryAfter.value else "1";
    TimerDelay(match ParseInt(text) case None => None case Some(n) => Some(n * 1000))
  }

  /** A Retry-After of n seconds waits n seconds. */
  lemma RetryWaitHonoursHeader(n: nat)
    requires n * 1000 <= TimerMax
    ensures RetryWait(Some(NatToString(n))) == n * 1000
  {
    var text := NatToString(n);
    assert text != "";
    ParseIntOfDecimal(n);
    assert ParseInt(text) == Some(n);
  }

  /** A missing or empty Retry-After waits one second. */
  lemma RetryWaitDefault()
    ensures RetryWait(None) == 1000 && RetryWait(Some("")) == 1000
  {
    ParseIntOfDecimal(1);
    assert NatToString(1) == "1";
  }

  /** `Math.min(delay * 2, MAX_RETRY_DELAY)`. */
  function NextDelay(delay: int): int {
    if delay * 2 < MaxRetryDelay then delay * 2 else MaxRetryDelay
  }

  /** `error.error?.message || 'Failed to fetch from Spotify'`. */
  function ApiErrorMessage(p: Payload): string {
    if p.ErrorBody? && p.message.Some? && p.message.value != "" then p.message.value
    else "Failed to fetch from Spotify"
  }

  /** How one pass through the `try` block of `fetchWithRetry` ends. A
      returned value or promise (`return response.json()`, `return
      fetchWithRetry(...)`) is not awaited, so its rejection does not reach
      that pass's `catch`. */
  datatype TryOutcome =
    | Threw(failure: Failure)
    | Returned(result: Result<Payload, Failure>)
    | RateLimited(wait: nat)
    | Reauthorise

  /** What the `try` block does with the catalog's answer. */
  function Classify(reply: ApiReply, attempt: int, forced: bool): TryOutcome
  {
    match reply
    case ApiFailed(message) => Threw(Failure(PlainError, message))
    case ApiResponse(status, retryAfter, body) =>
      if status == 429 && attempt <= MaxRetries then RateLimited(RetryWait(retryAfter))
      else if status == 401 && !forced then Reauthorise
      else if !IsOkStatus(status) then
        match body
        case NotJson(message) => Threw(Failure(PlainError, message))
        case Json(p) => Threw(Failure(SpotifyError, ApiErrorMessage(p)))
      else
        match body
        case NotJson(message) => Returned(Err(Failure(PlainError, message)))
        case Json(p) => Returned(Ok(p))
  }

  /** The classification of an answer: a 429 within the retry budget waits
      and retries, an unforced 401 retries with a new token, a 2xx answer is
      returned, and every other non-ok JSON answer raises `SpotifyError`
      with the body's message. */
  lemma ClassifySpec(reply: ApiReply, attempt: int, forced: bool)
    ensures var o := Classify(reply, attempt, forced); o.RateLimited? <==> reply.ApiResponse? && reply.status == 429 && attempt <= MaxRetries
    ensures var o := Classify(reply, attempt, forced); o.RateLimited? ==> o.wait == RetryWait(reply.retryAfter)
    ensures var o := Classify(reply, attempt, forced); o.Reauthorise? <==> reply.ApiResponse? && reply.status == 401 && !forced
    ensures var o := Classify(reply, attempt, forced); o.Returned? <==> reply.ApiResponse? && IsOkStatus(reply.status)
    ensures var o := Classify(reply, attempt, forced); o.Returned? && o.result.Ok? ==> reply.body == Json(o.result.value)
    ensures var o := Classify(reply, attempt, forced); o.Threw? && o.failure.kind == SpotifyError <==>
      reply.ApiResponse? && !IsOkStatus(reply.status) && reply.body.Json?
      && !(reply.status == 429 && attempt <= MaxRetries) && !(reply.status == 401 && !forced)
    ensures var o := Classify(reply, attempt, forced); o.Threw? && o.failure.kind == SpotifyError ==> o.failure.message == ApiErrorMessage(reply.body.payload)
  {
  }

  datatype Pass = Pass(session: Session, outcome: TryOutcome)

  /** One pass through the `try` block: drop the cached token when forced,
      obtain a token, send the request with it, classify the answer. */
  function TryOnce(s: Session, net: Network, endpoint: Endpoint, attempt: int, forced: bool): Pass
  {
    var cleared := if forced then s.(accessToken := None, expiry := None) else s;
    var t := AccessToken(cleared, net);
    match t.result
    case Err(f) => Pass(t.session, Threw(f))
    case Ok(token) =>
      var sent := t.session.(requests := t.session.requests + [ApiRequest(endpoint, token)]);
      Pass(sent, Classify(net.api(|t.session.requests|), attempt, forced))
  }

  /** A pass as a function of the session, the attempt number and whether a
      new token is forced. */
  type PassFn = (Session, int, bool) -> Pass

  /** The passes of `fetchWithRetry` for one resource. */
  function PassOf(net: Network, endpoint: Endpoint): PassFn {
    (s: Session, attempt: int, forced: bool) => TryOnce(s, net, endpoint, attempt, forced)
  }

  /** What one pass from `s` guarantees: a forced pass exchanges credentials,
      no pass makes more than one exchange or more than one catalog request,
      the clock and the waits are left alone, a rate-limit retry is only
      offered within the budget and a re-authorisation only without a forced
      token, and a returned value is the JSON body of a 2xx answer to the
      request just made. */
  ghost predicate PassLaw(net: Network, s: Session, attempt: int, forced: bool, p: Pass) {
    (forced ==> p.session.exchanges == s.exchanges + 1)
    && s.exchanges <= p.session.exchanges <= s.exchanges + 1
    && |s.requests| <= |p.session.requests| <= |s.requests| + 1
    && p.session.requests[..|s.requests|] == s.requests
    && p.session.now == s.now && p.session.waits == s.waits
    && (p.outcome.RateLimited? ==> attempt <= MaxRetries)
    && (p.outcome.Reauthorise? ==> !forced)
    && (p.outcome.Returned? && p.outcome.result.Ok? ==>
          |p.session.requests| == |s.requests| + 1
          && net.api(|s.requests|).ApiResponse? && IsOkStatus(net.api(|s.requests|).status)
          && net.api(|s.requests|).body == Json(p.outcome.result.value))
  }

  ghost predicate Lawful(net: Network, pass: PassFn) {
    forall s, attempt, forced :: PassLaw(net, s, attempt, forced, pass(s, attempt, forced))
  }

  /** Every pass of `fetchWithRetry` keeps the pass law. */
  lemma TryOnceLawful(net: Network, endpoint: Endpoint)
    ensures Lawful(net, PassOf(net, endpoint))
  {
    forall s, attempt, forced
      ensures PassLaw(net, s, attempt, forced, PassOf(net, endpoint)(s, attempt, forced))
    {
      var cleared := if forced then s.(accessToken := None, expiry := None) else s;
      AccessTokenSpec(cleared, net);
      var t := AccessToken(cleared, net);
      ClassifySpec(net.api(|t.session.requests|), attempt, forced);
    }
  }

  /** The rate-limit retries left at `attempt`. */
  function RetriesLeft(attempt: int): nat {
    if attempt <= MaxRetries then MaxRetries + 1 - attempt else 0
  }

  /** The recursion of `fetchWithRetry(endpoint, attempt, delay,
      forceNewToken)` around its passes: a returned value ends it, a 429
      waits and recurses with the next attempt, an unforced 401 recurses
      with a forced token, and a thrown failure is retried once with a
      forced token unless it is a `SpotifyError` or the token was already
      forced. */
  function Retry(net: Network, pass: PassFn, s: Session, attempt: int, delay: int, forced: bool): Step<Payload>
    requires Lawful(net, pass)
    decreases RetriesLeft(attempt), if forced then 0 else 1
  {
    var p := pass(s, attempt, forced);
    assert PassLaw(net, s, attempt, forced, p);
    match p.outcome
    case Returned(result) => Step(p.session, result)
    case RateLimited(w) =>
      Retry(net, pass, Waited(p.session, w), attempt + 1, NextDelay(delay), false)
    case Reauthorise => Retry(net, pass, p.session, attempt, delay, true)
    case Threw(f) =>
      if f.kind == SpotifyError || forced then Step(p.session, Err(f))
      else Retry(net, pass, p.session, attempt, delay, true)
  }

  /** `s` after waiting `w` milliseconds. */
  function Waited(s: Session, w: nat): Session {
    s.(now := s.now + w, waits := s.waits + [w])
  }

  /** `fetchWithRetry(endpoint, attempt, delay, forceNewToken)`. */
  function Fetch(s: Session, net: Network, endpoint: Endpoint, attempt: int, delay: int, forced: bool): Step<Payload>
  {
    TryOnceLawful(net, endpoint);
    Retry(net, PassOf(net, endpoint), s, attempt, delay, forced)
  }

  /** One level of a fetch: the pass, then what the pass's outcome calls
      for. */
  lemma FetchStep(s: Session, net: Network, endpoint: Endpoint, attempt: int, delay: int, forced: bool)
    ensures var p := TryOnce(s, net, endpoint, attempt, forced);
      Fetch(s, net, endpoint, attempt, delay, forced) ==
        match p.outcome
        case Returned(result) => Step(p.session, result)
        case RateLimited(w) => Fetch(Waited(p.session, w), net, endpoint, attempt + 1, NextDelay(delay), false)
        case Reauthorise => Fetch(p.session, net, endpoint, attempt, delay, true)
        case Threw(f) =>
          if f.kind == SpotifyError || forced then Step(p.session, Err(f))
          else Fetch(p.session, net, endpoint, attempt, delay, true)
  {
    TryOnceLawful(net, endpoint);
    assert PassOf(net, endpoint)(s, attempt, forced) == TryOnce(s, net, endpoint, attempt, forced);
  }

  /** A fetch whose first pass returns ends with that pass. */
  lemma FetchReturned(s: Session, net: Network, endpoint: Endpoint, attempt: int, delay: int, forced: bool, p: Pass)
    requires p == TryOnce(s, net, endpoint, attempt, forced) && p.outcome.Returned?
    ensures Fetch(s, net, endpoint, attempt, delay, forced) == Step(p.session, p.outcome.result)
  {
    FetchStep(s, net, endpoint, attempt, delay, forced);
  }

  /** A fetch whose first pass is rate limited is within the retry budget
      and goes on, after the wait, with the next attempt. */
  lemma FetchRateLimited(s: Session, net: Network, endpoint: Endpoint, attempt: int, delay: int, forced: bool, p: Pass)
    requires p == TryOnce(s, net, endpoint, attempt, forced) && p.outcome.RateLimited?
    ensures attempt <= MaxRetries
    ensures Fetch(s, net, endpoint, attempt, delay, forced)
        == Fetch(Waited(p.session, p.outcome.wait), net, endpoint, attempt + 1, NextDelay(delay), false)
  {
    FetchStep(s, net, endpoint, attempt, delay, forced);
    TryOnceLawful(net, endpoint);
    assert PassLaw(net, s, attempt, forced, PassOf(net, endpoint)(s, attempt, forced));
  }

  /** A fetch whose first pass asks for re-authorisation was not forced and
      goes on with a forced token. */
  lemma FetchReauthorised(s: Session, net: Network, endpoint: Endpoint, attempt: int, delay: int, forced: bool, p: Pass)
    requires p == TryOnce(s, net, endpoint, attempt, forced) && p.outcome.Reauthorise?
    ensures !forced
    ensures Fetch(s, net, endpoint, attempt, delay, forced) == Fetch(p.session, net, endpoint, attempt, delay, true)
  {
    FetchStep(s, net, endpoint, attempt, delay, forced);
    TryOnceLawful(net, endpoint);
    assert PassLaw(net, s, attempt, forced, PassOf(net, endpoint)(s, attempt, forced));
  }

  /** A fetch whose first pass throws fails with that failure when it is a
      `SpotifyError` or the token was forced, and otherwise goes on with a
      forced token. */
  lemma FetchThrew(s: Session, net: Network, endpoint: Endpoint, attempt: int, delay: int, forced: bool, p: Pass)
    requires p == TryOnce(s, net, endpoint, attempt, forced) && p.outcome.Threw?
    ensures Fetch(s, net, endpoint, attempt, delay, forced) ==
        if p.outcome.failure.kind == SpotifyError || forced then Step(p.session, Err(p.outcome.failure))
        else Fetch(p.session, net, endpoint, attempt, delay, true)
  {
    FetchStep(s, net, endpoint, attempt, delay, forced);
  }

  function Sum(ws: seq<nat>): nat {
    if ws == [] then 0 else ws[0] + Sum(ws[1..])
  }

  lemma {:induction false} SumAppend(a: seq<nat>, w: nat)
    ensures Sum(a + [w]) == Sum(a) + w
  {
    if a != [] {
      assert (a + [w])[1..] == a[1..] + [w];
      SumAppend(a[1..], w);
    }
  }

  /** The `delay` argument never influences what a fetch does: the wait
      before a rate-limited retry comes from Retry-After alone. */
  lemma {:induction false} RetryIgnoresDelay(net: Network, pass: PassFn, s: Session, attempt: int, d1: int, d2: int, forced: bool)
    requires Lawful(net, pass)
    ensures Retry(net, pass, s, attempt, d1, forced) == Retry(net, pass, s, attempt, d2, forced)
    decreases RetriesLeft(attempt), if forced then 0 else 1
  {
    var p := pass(s, attempt, forced);
    assert PassLaw(net, s, attempt, forced, p);
    match p.outcome
    case Returned(_) =>
    case RateLimited(w) =>
      RetryIgnoresDelay(net, pass, Waited(p.session, w), attempt + 1, NextDelay(d1), NextDelay(d2), false);
    case Reauthorise =>
      RetryIgnoresDelay(net, pass, p.session, attempt, d1, d2, true);
    case Threw(f) =>
      if !(f.kind == SpotifyError || forced) {
        RetryIgnoresDelay(net, pass, p.session, attempt, d1, d2, true);
      }
  }

  /** A fetch only appends to the request log and to the waits; it issues at
      most two catalog requests and two token requests per attempt level
      (one with the cached token, one with a forced new token), always
      exchanges credentials when forced, waits at most once per rate-limit
      retry left, and its clock advances by exactly the waits it performs. */
  lemma {:induction false} RetryBounds(net: Network, pass: PassFn, s: Session, attempt: int, delay: int, forced: bool)
    requires Lawful(net, pass)
    ensures var r := Retry(net, pass, s, attempt, delay, forced).session;
      |s.requests| <= |r.requests| && r.requests[..|s.requests|] == s.requests
      && |r.requests| - |s.requests| <= 2 * RetriesLeft(attempt) + (if forced then 1 else 2)
    ensures var r := Retry(net, pass, s, attempt, delay, forced).session;
      s.exchanges <= r.exchanges <= s.exchanges + 2 * RetriesLeft(attempt) + (if forced then 1 else 2)
      && (forced ==> r.exchanges > s.exchanges)
    ensures var r := Retry(net, pass, s, attempt, delay, forced).session;
      |s.waits| <= |r.waits| && r.waits[..|s.waits|] == s.waits
      && |r.waits| - |s.waits| <= RetriesLeft(attempt)
      && r.now == s.now + Sum(r.waits[|s.waits|..])
    decreases RetriesLeft(attempt), if forced then 0 else 1
  {
    var p := pass(s, attempt, forced);
    assert PassLaw(net, s, attempt, forced, p);
    var r := Retry(net, pass, s, attempt, delay, forced).session;
    match p.outcome
    case Returned(_) =>
      assert r.waits[|s.waits|..] == [];
    case RateLimited(w) =>
      var q := Waited(p.session, w);
      RetryBounds(net, pass, q, attempt + 1, NextDelay(delay), false);
      assert r.requests[..|p.session.requests|] == p.session.requests;
      assert r.waits[..|q.waits|] == q.waits;
      assert r.waits[|s.waits|..] == [w] + r.waits[|q.waits|..];
    case Reauthorise =>
      RetryBounds(net, pass, p.session, attempt, delay, true);
      assert r.requests[..|p.session.requests|] == p.session.requests;
    case Threw(f) =>
      if f.kind == SpotifyError || forced {
        assert r.waits[|s.waits|..] == [];
      } else {
        RetryBounds(net, pass, p.session, attempt, delay, true);
        assert r.requests[..|p.session.requests|] == p.session.requests;
      }
  }

  /** A fetch succeeds only with the JSON body of a 2xx answer to one of the
      catalog requests it made. */
  lemma {:induction false} RetrySuccessFromOkReply(net: Network, pass: PassFn, s: Session, attempt: int, delay: int, forced: bool)
    requires Lawful(net, pass)
    ensures var r := Retry(net, pass, s, attempt, delay, forced);
      r.result.Ok? ==>
        exists i :: |s.requests| <= i < |r.session.requests|
          && net.api(i).ApiResponse? && IsOkStatus(net.api(i).status)
          && net.api(i).body == Json(r.result.value)
    decreases RetriesLeft(attempt), if forced then 0 else 1
  {
    var p := pass(s, attempt, forced);
    assert PassLaw(net, s, attempt, forced, p);
    var r := Retry(net, pass, s, attempt, delay, forced);
    match p.outcome
    case Returned(result) =>
      if result.Ok? {
        var i := |s.requests|;
        assert net.api(i).body == Json(r.result.value);
      }
    case RateLimited(w) =>
      RetryBounds(net, pass, Waited(p.session, w), attempt + 1, NextDelay(delay), false);
      RetrySuccessFromOkReply(net, pass, Waited(p.session, w), attempt + 1, NextDelay(delay), false);
    case Reauthorise =>
      RetryBounds(net, pass, p.session, attempt, delay, true);
      RetrySuccessFromOkReply(net, pass, p.session, attempt, delay, true);
    case Threw(f) =>
      if !(f.kind == SpotifyError || forced) {
        RetryBounds(net, pass, p.session, attempt, delay, true);
        RetrySuccessFromOkReply(net, pass, p.session, attempt, delay, true);
      }
  }

  /** A non-ok JSON answer that is neither a 429 within the retry budget
      nor a 401 under a cached token ends the fetch with a `SpotifyError`
      carrying the body's message, after one catalog request and no wait,
      whenever the pass obtains a token. */
  lemma NonOkAnswerRaises(s: Session, net: Network, endpoint: Endpoint, attempt: int, delay: int, forced: bool)
    requires (!forced && HasFreshToken(s)) || net.token(s.exchanges).TokenGranted?
    requires var reply := net.api(|s.requests|);
      reply.ApiResponse? && !IsOkStatus(reply.status) && reply.body.Json?
      && !(reply.status == 429 && attempt <= MaxRetries) && !(reply.status == 401 && !forced)
    ensures var r := Fetch(s, net, endpoint, attempt, delay, forced);
      r.result == Err(Failure(SpotifyError, ApiErrorMessage(net.api(|s.requests|).body.payload)))
      && |r.session.requests| == |s.requests| + 1 && r.session.waits == s.waits && r.session.now == s.now
  {
    var cleared := if forced then s.(accessToken := None, expiry := None) else s;
    AccessTokenSpec(cleared, net);
    var p := TryOnce(s, net, endpoint, attempt, forced);
    ClassifySpec(net.api(|s.requests|), attempt, forced);
    assert p.outcome == Threw(Failure(SpotifyError, ApiErrorMessage(net.api(|s.requests|).body.payload)));
    FetchThrew(s, net, endpoint, attempt, delay, forced, p);
  }

  /** The catalog cannot be reached from request `from` on, and no token
      request from `exchanged` on is refused. */
  ghost predicate CatalogUnreachable(net: Network, from: nat, exchanged: nat) {
    (forall i :: i >= from ==> net.api(i).ApiFailed?)
    && (forall n :: n >= exchanged ==> !net.token(n).TokenRefused?)
  }

  /** While the catalog cannot be reached, every pass throws a plain
      failure: the failed exchange's, or else the failed request's. */
  lemma UnreachablePassThrows(s: Session, net: Network, endpoint: Endpoint, attempt: int, forced: bool)
    requires CatalogUnreachable(net, |s.requests|, s.exchanges)
    ensures var p := TryOnce(s, net, endpoint, attempt, forced);
      p.outcome.Threw? && p.outcome.failure.kind == PlainError
      && s.exchanges <= p.session.exchanges <= s.exchanges + 1
      && (forced || !HasFreshToken(s) ==> p.session.exchanges == s.exchanges + 1)
      && |s.requests| <= |p.session.requests| <= |s.requests| + 1
      && p.session.waits == s.waits && p.session.now == s.now
      && (if p.session.exchanges > s.exchanges && net.token(s.exchanges).TokenFailed?
          then p.outcome.failure.message == net.token(s.exchanges).message
          else (|p.session.requests| == |s.requests| + 1
                && p.outcome.failure.message == net.api(|s.requests|).message))
  {
    var cleared := if forced then s.(accessToken := None, expiry := None) else s;
    AccessTokenSpec(cleared, net);
    assert net.api(|s.requests|).ApiFailed?;
    assert !net.token(s.exchanges).TokenRefused?;
  }

  /** With the catalog unreachable, a fetch without a forced token makes
      exactly two passes, the second with a forced token, performs no wait,
      and fails with the second pass's failure: the forced exchange's when
      it failed, otherwise the last catalog request's. */
  lemma UnreachableFailsAfterTwoPasses(s: Session, net: Network, endpoint: Endpoint, attempt: int, delay: int)
    requires CatalogUnreachable(net, |s.requests|, s.exchanges)
    ensures var r := Fetch(s, net, endpoint, attempt, delay, false);
      r.result.Err? && r.result.error.kind == PlainError
      && s.exchanges + 1 <= r.session.exchanges <= s.exchanges + 2
      && (!HasFreshToken(s) ==> r.session.exchanges == s.exchanges + 2)
      && |s.requests| <= |r.session.requests| <= |s.requests| + 2
      && r.session.waits == s.waits && r.session.now == s.now
      && (if net.token(r.session.exchanges - 1).TokenFailed?
          then r.result.error.message == net.token(r.session.exchanges - 1).message
          else (|r.session.requests| > |s.requests|
                && r.result.error.message == net.api(|r.session.requests| - 1).message))
  {
    UnreachablePassThrows(s, net, endpoint, attempt, false);
    var p1 := TryOnce(s, net, endpoint, attempt, false);
    FetchThrew(s, net, endpoint, attempt, delay, false, p1);
    var q := p1.session;
    UnreachablePassThrows(q, net, endpoint, attempt, true);
    var p2 := TryOnce(q, net, endpoint, attempt, true);
    FetchThrew(q, net, endpoint, attempt, delay, true, p2);
    assert Fetch(s, net, endpoint, attempt, delay, false) == Step(p2.session, Err(p2.outcome.failure));
    assert p2.session.exchanges - 1 == q.exchanges;
  }

  /** An answer of 429 once the retries are used up, and a 401 under a
      forced token, end in a `SpotifyError` carrying the body's message. */
  lemma TerminalStatusesRaise(reply: ApiReply, attempt: int, forced: bool)
    requires reply.ApiResponse? && reply.body.Json?
    requires (reply.status == 429 && attempt > MaxRetries) || (reply.status == 401 && forced)
    ensures Classify(reply, attempt, forced) == Threw(Failure(SpotifyError, ApiErrorMessage(reply.body.payload)))
  {
  }

  // ---------------------------------------------------------------------
  // The search post-filter

  /** Tracks in order of non-increasing popularity. */
  predicate ByPopularity(ts: seq<Track>) {
    forall i, j :: 0 <= i < j < |ts| ==> ts[i].popularity >= ts[j].popularity
  }

  function WithPopularity(p: int): Track -> bool {
    (t: Track) => t.popularity == p
  }

  /** Places `x` after every track at least as popular. */
  function InsertByPopularity(x: Track, r: seq<Track>): seq<Track>
  {
    if r == [] then [x]
    else if r[0].popularity >= x.popularity then [r[0]] + InsertByPopularity(x, r[1..])
    else [x] + r
  }

  /** Inserting adds exactly the one track. */
  lemma {:induction false} InsertAddsOne(x: Track, r: seq<Track>)
    ensures multiset(InsertByPopularity(x, r)) == multiset(r) + multiset{x}
  {
    if r == [] {
      assert InsertByPopularity(x, r) == [x];
    } else if r[0].popularity >= x.popularity {
      var rest := InsertByPopularity(x, r[1..]);
      InsertAddsOne(x, r[1..]);
      assert InsertByPopularity(x, r) == [r[0]] + rest;
      assert r == [r[0]] + r[1..];
      ConsAddsOne(r[0], rest, r[1..], x);
    } else {
      assert InsertByPopularity(x, r) == [x] + r;
    }
  }

  lemma ConsAddsOne(h: Track, rest: seq<Track>, tail: seq<Track>, x: Track)
    requires multiset(rest) == multiset(tail) + multiset{x}
    ensures multiset([h] + rest) == multiset([h] + tail) + multiset{x}
  {
    calc {
      multiset([h] + rest);
      multiset([h]) + multiset(rest);
      multiset([h]) + multiset(tail) + multiset{x};
      multiset([h] + tail) + multiset{x};
    }
  }

  /** A track followed by an ordered list of tracks no more popular than
      it is ordered. */
  lemma ConsByPopularity(h: Track, rest: seq<Track>)
    requires ByPopularity(rest)
    requires forall k :: 0 <= k < |rest| ==> rest[k].popularity <= h.popularity
    ensures ByPopularity([h] + rest)
  {
    var q := [h] + rest;
    forall i, j | 0 <= i < j < |q| ensures q[i].popularity >= q[j].popularity {
      assert q[j] == rest[j - 1];
      if i > 0 {
        assert q[i] == rest[i - 1];
      }
    }
  }

  /** Inserting a track into tracks no more popular than `bound` gives
      tracks no more popular than `bound`. */
  lemma {:induction false} InsertBounded(x: Track, r: seq<Track>, bound: int)
    requires x.popularity <= bound && forall k :: 0 <= k < |r| ==> r[k].popularity <= bound
    ensures forall k :: 0 <= k < |InsertByPopularity(x, r)| ==> InsertByPopularity(x, r)[k].popularity <= bound
  {
    if r == [] {
      assert InsertByPopularity(x, r) == [x];
    } else if r[0].popularity >= x.popularity {
      InsertBounded(x, r[1..], bound);
      assert InsertByPopularity(x, r) == [r[0]] + InsertByPopularity(x, r[1..]);
    } else {
      assert InsertByPopularity(x, r) == [x] + r;
    }
  }

  /** Inserting into a list ordered by popularity keeps it ordered. */
  lemma {:induction false} InsertKeepsOrder(x: Track, r: seq<Track>)
    requires ByPopularity(r)
    ensures ByPopularity(InsertByPopularity(x, r))
  {
    if r == [] {
      assert InsertByPopularity(x, r) == [x];
    } else if r[0].popularity >= x.popularity {
      var tail := r[1..];
      var rest := InsertByPopularity(x, tail);
      assert InsertByPopularity(x, r) == [r[0]] + rest;
      InsertKeepsOrder(x, tail);
      forall k | 0 <= k < |tail| ensures tail[k].popularity <= r[0].popularity {
        assert tail[k] == r[k + 1];
      }
      InsertBounded(x, tail, r[0].popularity);
      ConsByPopularity(r[0], rest);
    } else {
      assert InsertByPopularity(x, r) == [x] + r;
      ConsByPopularity(x, r);
    }
  }

  /** `items.sort((a, b) => b.popularity - a.popularity)`: the stable sort
      by non-increasing popularity. */
  function SortByPopularity(ts: seq<Track>): (r: seq<Track>)
    ensures ByPopularity(r)
    ensures multiset(r) == multiset(ts)
  {
    if ts == [] then []
    else
      var init := ts[..|ts| - 1];
      assert ts == init + [ts[|ts| - 1]];
      InsertKeepsOrder(ts[|ts| - 1], SortByPopularity(init));
      InsertAddsOne(ts[|ts| - 1], SortByPopularity(init));
      InsertByPopularity(ts[|ts| - 1], SortByPopularity(init))
  }

  lemma {:induction false} InsertKeepsEqualOrder(x: Track, r: seq<Track>, p: int)
    requires ByPopularity(r)
    ensures Filter(InsertByPopularity(x, r), WithPopularity(p))
      == Filter(r, WithPopularity(p)) + (if x.popularity == p then [x] else [])
  {
    var P := WithPopularity(p);
    var q := InsertByPopularity(x, r);
    if r == [] {
      assert q == [x];
    } else if r[0].popularity >= x.popularity {
      var rest := InsertByPopularity(x, r[1..]);
      assert q == [r[0]] + rest;
      TailByPopularity(r);
      InsertKeepsEqualOrder(x, r[1..], p);
      assert Filter(q, P) == (if P(r[0]) then [r[0]] else []) + Filter(rest, P);
      assert Filter(r, P) == (if P(r[0]) then [r[0]] else []) + Filter(r[1..], P);
    } else {
      assert q == [x] + r;
      if x.popularity == p {
        NoneAsPopular(r, x.popularity);
      }
    }
  }

  lemma TailByPopularity(r: seq<Track>)
    requires ByPopularity(r) && r != []
    ensures ByPopularity(r[1..])
  {
    forall i, j | 0 <= i < j < |r| - 1 ensures r[1..][i].popularity >= r[1..][j].popularity {
      assert r[1..][i] == r[i + 1] && r[1..][j] == r[j + 1];
    }
  }

  /** No track of a list ordered by popularity whose head is less popular
      than `p` has popularity `p`. */
  lemma NoneAsPopular(r: seq<Track>, p: int)
    requires ByPopularity(r) && r != [] && r[0].popularity < p
    ensures Filter(r, WithPopularity(p)) == []
  {
    FilterSpec(r, WithPopularity(p));
  }

  /** The sort is stable: tracks of equal popularity keep their relative
      order. */
  lemma {:induction false} SortByPopularityStable(ts: seq<Track>, p: int)
    ensures Filter(SortByPopularity(ts), WithPopularity(p)) == Filter(ts, WithPopularity(p))
  {
    if ts != [] {
      var init := ts[..|ts| - 1];
      var x := ts[|ts| - 1];
      assert ts == init + [x];
      SortByPopularityStable(init, p);
      InsertKeepsEqualOrder(x, SortByPopularity(init), p);
      FilterAppend(init, [x], WithPopularity(p));
    }
  }

  const TypeErrorReadingItems: string := "Cannot read properties of undefined (reading 'items')"

  /** `searchTracks(query)`: nothing is requested for a blank query; otherwise
      the tracks of the answer that have a preview, most popular first. */
  function SearchOutcome(s: Session, net: Network, query: string): Step<seq<Track>> {
    var q := Trim(query);
    if q == "" then Step(s, Ok([]))
    else
      var f := Fetch(s, net, Search(q), 1, InitialRetryDelay, false);
      match f.result
      case Err(e) => Step(f.session, Err(e))
      case Ok(payload) =>
        if payload.TrackPage? then
          Step(f.session, Ok(SortByPopularity(Filter(payload.items, HasPreview))))
        else
          Step(f.session, Err(Failure(PlainError, TypeErrorReadingItems)))
  }

  /** A blank query is answered with no tracks and no request; any other
      is fetched trimmed, and its answer is the fetched tracks that have a
      preview, as a permutation ordered by popularity, or the fetch's
      error. */
  lemma SearchOutcomeSpec(s: Session, net: Network, query: string)
    ensures Trim(query) == "" ==> SearchOutcome(s, net, query) == Step(s, Ok([]))
    ensures Trim(query) != "" ==>
      var r := SearchOutcome(s, net, query);
      var f := Fetch(s, net, Search(Trim(query)), 1, InitialRetryDelay, false);
      r.session == f.session
      && (r.result.Ok? <==> f.result.Ok? && f.result.value.TrackPage?)
      && (r.result.Ok? ==>
            ByPopularity(r.result.value)
            && (forall t :: t in r.result.value ==> HasPreview(t))
            && multiset(r.result.value) == multiset(Filter(f.result.value.items, HasPreview)))
      && (f.result.Err? ==> r.result == Err(f.result.error))
  {
    var q := Trim(query);
    if q != "" {
      var f := Fetch(s, net, Search(q), 1, InitialRetryDelay, false);
      if f.result.Ok? && f.result.value.TrackPage? {
        var kept := Filter(f.result.value.items, HasPreview);
        FilterSpec(f.result.value.items, HasPreview);
        var sorted := SortByPopularity(kept);
        assert SearchOutcome(s, net, query) == Step(f.session, Ok(sorted));
        forall t | t in sorted ensures HasPreview(t) {
          assert t in multiset(sorted);
        }
      }
    }
  }

  /** The module-level token state of the service, with the clock, the
      network and the record of requests and waits. */
  class SpotifyClient {
    var accessToken: Option<string>
    var tokenExpirationTime: Option<int>
    var now: int
    var exchanges: nat
    var requests: seq<ApiRequest>
    var waits: seq<nat>
    const net: Network

    function State(): Session
      reads this
    {
      Session(accessToken, tokenExpirationTime, now, exchanges, requests, waits)
    }

    constructor (net: Network, now: int)
      ensures State() == Session(None, None, now, 0, [], [])
      ensures this.net == net
    {
      this.net := net;
      accessToken, tokenExpirationTime := None, None;
      this.now := now;
      exchanges, requests, waits := 0, [], [];
    }

    /** Time passing between calls. */
    method Elapse(ms: nat)
      modifies this
      ensures State() == old(State()).(now := old(now) + ms)
    {
      now := now + ms;
    }

    method GetAccessToken() returns (r: Result<string, Failure>)
      modifies this
      ensures Step(State(), r) == AccessToken(old(State()), net)
    {
      if accessToken.Some? && accessToken.value != ""
        && tokenExpirationTime.Some? && tokenExpirationTime.value != 0 && now < tokenExpirationTime.value {
        return Ok(accessToken.value);
      }
      var reply := net.token(exchanges);
      exchanges := exchanges + 1;
      match reply
      case TokenGranted(token, expiresIn) =>
        accessToken := Some(token);
        tokenExpirationTime := Some(now + (expiresIn - 60) * 1000);
        r := Ok(token);
      case TokenRefused(description, error) =>
        r := Err(Failure(SpotifyError, AuthFailureMessage(description, error)));
      case TokenFailed(message) =>
        r := Err(Failure(PlainError, message));
    }

    /** One pass through the `try` block of `fetchWithRetry`. */
    method Attempt(endpoint: Endpoint, attempt: int, forced: bool) returns (outcome: TryOutcome)
      modifies this
      ensures Pass(State(), outcome) == TryOnce(old(State()), net, endpoint, attempt, forced)
    {
      if forced {
        accessToken := None;
        tokenExpirationTime := None;
      }
      var token := GetAccessToken();
      match token {
        case Err(f) =>
          outcome := Threw(f);
        case Ok(t) =>
          var reply := net.api(|requests|);
          requests := requests + [ApiRequest(endpoint, t)];
          outcome := Classify(reply, attempt, forced);
      }
    }

    method FetchWithRetry(endpoint: Endpoint, attempt: int, delay: int, forced: bool) returns (r: Result<Payload, Failure>)
      modifies this
      ensures Step(State(), r) == Fetch(old(State()), net, endpoint, attempt, delay, forced)
      decreases RetriesLeft(attempt), if forced then 0 else 1, 1
    {
      ghost var s0 := State();
      var outcome := Attempt(endpoint, attempt, forced);
      match outcome
      case Returned(result) =>
        FetchReturned(s0, net, endpoint, attempt, delay, forced, Pass(State(), outcome));
        r := result;
      case RateLimited(w) =>
        FetchRateLimited(s0, net, endpoint, attempt, delay, forced, Pass(State(), outcome));
        r := WaitAndRetry(endpoint, attempt, delay, forced, w);
      case Reauthorise =>
        FetchReauthorised(s0, net, endpoint, attempt, delay, forced, Pass(State(), outcome));
        r := FetchWithRetry(endpoint, attempt, delay, true);
      case Threw(f) =>
        FetchThrew(s0, net, endpoint, attempt, delay, forced, Pass(State(), outcome));
        if f.kind == SpotifyError || forced {
          r := Err(f);
        } else {
          r := FetchWithRetry(endpoint, attempt, delay, true);
        }
    }

    /** The 429 branch of `fetchWithRetry`: wait `w` milliseconds, then
        fetch again with the next attempt number. */
    method WaitAndRetry(endpoint: Endpoint, attempt: int, delay: int, ghost forced: bool, w: nat) returns (r: Result<Payload, Failure>)
      requires attempt <= MaxRetries
      modifies this
      ensures Step(State(), r) == Fetch(Waited(old(State()), w), net, endpoint, attempt + 1, NextDelay(delay), false)
      decreases RetriesLeft(attempt), if forced then 0 else 1, 0
    {
      now := now + w;
      waits := waits + [w];
      assert State() == Waited(old(State()), w);
      r := FetchWithRetry(endpoint, attempt + 1, NextDelay(delay), false);
    }

    method SearchTracks(query: string) returns (r: Result<seq<Track>, Failure>)
      modifies this
      ensures Step(State(), r) == SearchOutcome(old(State()), net, query)
    {
      var q := Trim(query);
      if q == "" {
        return Ok([]);
      }
      var data := FetchWithRetry(Search(q), 1, InitialRetryDelay, false);
      match data
      case Err(e) =>
        r := Err(e);
      case Ok(payload) =>
        if payload.TrackPage? {
          r := Ok(SortByPopularity(Filter(payload.items, HasPreview)));
        } else {
          r := Err(Failure(PlainError, TypeErrorReadingItems));
        }
    }

    /** `getTrackFeatures(trackId)`. */
    method GetTrackFeatures(trackId: string) returns (r: Result<Payload, Failure>)
      modifies this
      ensures Step(State(), r) == Fetch(old(State()), net, AudioFeatures(trackId), 1, InitialRetryDelay, false)
    {
      r := FetchWithRetry(AudioFeatures(trackId), 1, InitialRetryDelay, false);
    }
  }
}
