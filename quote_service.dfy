/** The quote service: asks the quote provider for quotes and rejects an
    empty answer. */
module QuoteService {
  import opened Outcomes
  import opened JsList
  import opened Platform
  import opened RetryLoop
  import opened BaseProviders
  import opened QuoteTypes
  import opened QuoteProviders

  const DefaultQuoteCount: int := 5

  const NoQuotesReceived: Failure := Failure(PlainError, "No quotes received")

  /** `fetchQuotes` once the provider's `fetchItems` has settled to
      `provided`: a non-empty list is passed on unchanged, an empty one is
      rejected, and a provider error is rethrown as it is. */
  function QuotesOutcome(provided: Result<seq<Quote>, Failure>): (r: Result<seq<Quote>, Failure>)
    ensures r.Ok? <==> provided.Ok? && provided.value != []
    ensures r.Ok? || provided.Err? ==> r == provided
    ensures provided == Ok([]) ==> r == Err(NoQuotesReceived)
  {
    match provided
    case Err(e) => Err(e)
    case Ok(quotes) => if quotes == [] then Err(NoQuotesReceived) else Ok(quotes)
  }

  /** When the API path fails, `fetchQuotes(count)` rejects with "No quotes
      received" exactly when the fallback slice is empty: for `count` 0 (or
      a negative `count` of -15 or less), and never for a positive one. */
  lemma FetchQuotesWithoutApi(fetched: Result<HttpResponse<QuoteBody>, Option<Failure>>, count: int,
                              rolls: nat -> nat, order: seq<nat>, now: int, noise: nat -> string)
    requires IsShuffle(order)
    requires ApiQuotes(fetched, rolls).Err?
    ensures var r := QuotesOutcome(Ok(ItemsOutcome(fetched, count, rolls, order, now, noise)));
      (r == Err(NoQuotesReceived) <==> count == 0 || count <= -|Quotes|)
      && (count > 0 ==> r.Ok? && |r.value| == if count < |Quotes| then count else |Quotes|)
  {
    FallbackSpec(count, order, now, noise);
  }

  /** `fetchQuotes(count)` with the service's single provider. */
  method FetchQuotes(provider: QuoteProvider, count: int, replies: nat -> HttpReply<QuoteBody>, rolls: nat -> nat,
                     order: seq<nat>, now: int, noise: nat -> string)
    returns (r: Result<seq<Quote>, Failure>)
    requires IsShuffle(order)
    ensures r == QuotesOutcome(Ok(ItemsOutcome(FetchOutcome(replies, DefaultRetries), count, rolls, order, now, noise)))
  {
    var quotes, _, _ := provider.FetchItems(count, replies, rolls, order, now, noise);
    if quotes == [] {
      return Err(NoQuotesReceived);
    }
    return Ok(quotes);
  }
}
