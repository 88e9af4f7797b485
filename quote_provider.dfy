/** The quote provider: fetches random quotes from the quote API through the
    base provider's retry loop, turns the API records into quotes, and falls
    back to a shuffled prefix of the bundled quotes on any failure.

    `Math.random` is replaced by parameters: `rolls(i)` is the random number
    behind the category chosen for the i-th record, `order` is the order the
    shuffle puts the bundled quotes in, and `noise(i)` is the random text in
    the i-th fallback id; `now` is `Date.now()`. */
module QuoteProviders {
  import opened Outcomes
  import opened JsText
  import opened JsList
  import opened Platform
  import opened RetryLoop
  import opened BaseProviders
  import opened QuoteTypes

  const DefaultBaseUrl: string := "https://api.quotable.io"
  const DefaultCount: int := 5

  /** The titles chosen from when a record has no usable tag. */
  const Categories: seq<string> :=
    ["Reflection", "Wisdom", "Life", "Inspiration", "Growth", "Journey", "Purpose", "Understanding"]

  /** A JSON element of the API's answer. Objects carry their string-valued
      properties and their `tags` array. */
  datatype RawItem =
    | JsonObject(fields: map<string, string>, tags: Option<seq<string>>)
    | JsonArray
    | JsonPrimitive(text: string)

  /** The parsed answer: an array of elements, or any other JSON value. */
  datatype QuoteJson = ItemArray(items: seq<RawItem>) | OtherValue

  /** `response.json()`: the parsed value, or the parse error. */
  datatype QuoteBody = Parsed(json: QuoteJson) | Malformed(message: string)

  predicate IsFamousQuotes(tag: string) {
    ToLower(tag) == "famous quotes"
  }

  /** The tags that may name the category. */
  function RelevantTags(tags: seq<string>): seq<string> {
    Filter(tags, (t: string) => !IsFamousQuotes(t))
  }

  /** `tag.charAt(0).toUpperCase() + tag.slice(1).toLowerCase()`. */
  function Capitalised(tag: string): string {
    if tag == [] then "" else [ToUpperChar(tag[0])] + ToLower(tag[1..])
  }

  /** Capitalising keeps the length, upper-cases the first character and
      lower-cases every other one. */
  lemma CapitalisedSpec(tag: string)
    ensures |Capitalised(tag)| == |tag|
    ensures tag != [] ==> Capitalised(tag)[0] == ToUpperChar(tag[0])
    ensures forall i :: 1 <= i < |tag| ==> Capitalised(tag)[i] == ToLowerChar(tag[i])
  {
    if tag != [] {
      var rest := ToLower(tag[1..]);
      forall i | 1 <= i < |tag| ensures Capitalised(tag)[i] == ToLowerChar(tag[i]) {
        assert Capitalised(tag)[i] == rest[i - 1];
        assert tag[1..][i - 1] == tag[i];
      }
    }
  }

  /** The position among the categories that the random number `roll`
      picks: `roll` modulo the number of categories. */
  function CategoryIndex(roll: nat): (k: nat)
    ensures k < |Categories|
  {
    if roll < |Categories| then roll else CategoryIndex(roll - |Categories|)
  }

  /** The pick is the remainder of the roll by the number of categories. */
  lemma {:induction false} CategoryIndexIsRemainder(roll: nat)
    ensures CategoryIndex(roll) == roll % |Categories|
  {
    var n := |Categories|;
    assert n == 8;
    if roll >= n {
      CategoryIndexIsRemainder(roll - n);
      assert (roll - n) % 8 == roll % 8;
    }
  }

  /** `getQuoteCategory(tags)`: the first tag other than "famous quotes",
      capitalised, or else the category the random number picks. */
  function QuoteCategory(tags: seq<string>, roll: nat): string {
    var relevant := RelevantTags(tags);
    if relevant == [] then Categories[CategoryIndex(roll)] else Capitalised(relevant[0])
  }

  /** A "famous quotes" tag, in any letter case, never names the category. */
  lemma FamousQuotesTagIgnored(tag: string, tags: seq<string>, roll: nat)
    requires IsFamousQuotes(tag)
    ensures QuoteCategory([tag] + tags, roll) == QuoteCategory(tags, roll)
  {
    assert ([tag] + tags)[1..] == tags;
  }

  /** Any other first tag names the category, capitalised. */
  lemma FirstTagNamesCategory(tag: string, tags: seq<string>, roll: nat)
    requires !IsFamousQuotes(tag)
    ensures QuoteCategory([tag] + tags, roll) == Capitalised(tag)
  {
    assert ([tag] + tags)[0] == tag;
  }

  /** Without a usable tag the title is one of the eight categories, and
      each of them can be drawn. */
  lemma UntaggedCategory(tags: seq<string>, roll: nat)
    requires forall i :: 0 <= i < |tags| ==> IsFamousQuotes(tags[i])
    ensures QuoteCategory(tags, roll) in Categories
    ensures roll < |Categories| ==> QuoteCategory(tags, roll) == Categories[roll]
  {
    FilterSpec(tags, (t: string) => !IsFamousQuotes(t));
  }

  predicate HasQuoteFields(item: RawItem) {
    item.JsonObject? && "_id" in item.fields && "content" in item.fields && "author" in item.fields
  }

  const InvalidQuoteFormat: Failure := Failure(PlainError, "Invalid quote format")
  const InvalidResponseFormat: Failure := Failure(PlainError, "Invalid response format")

  /** The quote made from a well-formed record. */
  function QuoteOf(item: RawItem, roll: nat): Quote
    requires HasQuoteFields(item)
  {
    Quote(item.fields["_id"], QuoteCategory(item.tags.GetOr([]), roll), item.fields["content"], item.fields["author"])
  }

  /** The callback of `data.map`: an object with `_id`, `content` and
      `author` becomes a quote; any other object or array is rejected; the
      `in` operator throws a `TypeError` on a primitive. */
  function TransformItem(item: RawItem, roll: nat): Result<Quote, Failure> {
    if HasQuoteFields(item) then Ok(QuoteOf(item, roll))
    else if item.JsonPrimitive? then
      Err(Failure(PlainError, "Cannot use 'in' operator to search for '_id' in " + item.text))
    else Err(InvalidQuoteFormat)
  }

  /** The callback of `data.map`, with the random draw of position `k`. */
  function ItemCallback(rolls: nat -> nat): (RawItem, nat) -> Result<Quote, Failure> {
    (item: RawItem, k: nat) => TransformItem(item, rolls(k))
  }

  /** `items.map(...)` from position `start` on: the first element that
      cannot be turned into a quote aborts the whole map. */
  function TransformItems(items: seq<RawItem>, rolls: nat -> nat, start: nat): Result<seq<Quote>, Failure>
  {
    MapOrThrow(items, ItemCallback(rolls), start)
  }

  /** `transformResponse(data)`. */
  function TransformResponse(data: QuoteJson, rolls: nat -> nat): Result<seq<Quote>, Failure> {
    match data
    case OtherValue => Err(InvalidResponseFormat)
    case ItemArray(items) => TransformItems(items, rolls, 0)
  }

  /** The map succeeds exactly when every element is a well-formed
      record. */
  lemma TransformItemsOkWhen(items: seq<RawItem>, rolls: nat -> nat, start: nat)
    ensures TransformItems(items, rolls, start).Ok? <==> forall i :: 0 <= i < |items| ==> HasQuoteFields(items[i])
  {
    var f := ItemCallback(rolls);
    MapOrThrowOk(items, f, start);
    forall i | 0 <= i < |items| ensures f(items[i], start + i).Ok? <==> HasQuoteFields(items[i]) {
      assert f(items[i], start + i) == TransformItem(items[i], rolls(start + i));
    }
  }

  /** A successful map has one element per record, and its element `i`
      is the quote of record `i`. */
  lemma TransformItemsAt(items: seq<RawItem>, rolls: nat -> nat, start: nat, i: nat)
    requires TransformItems(items, rolls, start).Ok? && i < |items|
    ensures var r := TransformItems(items, rolls, start);
      |r.value| == |items| && HasQuoteFields(items[i]) && r.value[i] == QuoteOf(items[i], rolls(start + i))
      && r.value[i].id == items[i].fields["_id"] && r.value[i].content == items[i].fields["content"]
      && r.value[i].author == items[i].fields["author"]
      && r.value[i].title == QuoteCategory(items[i].tags.GetOr([]), rolls(start + i))
  {
    MapOrThrowAt(items, ItemCallback(rolls), start, i);
    assert ItemCallback(rolls)(items[i], start + i) == TransformItem(items[i], rolls(start + i));
  }

  /** The map succeeds exactly when every element is a well-formed record,
      and then yields one quote per record, in order. */
  lemma TransformItemsOk(items: seq<RawItem>, rolls: nat -> nat, start: nat)
    ensures TransformItems(items, rolls, start).Ok? <==> forall i :: 0 <= i < |items| ==> HasQuoteFields(items[i])
    ensures var r := TransformItems(items, rolls, start);
      r.Ok? ==> |r.value| == |items| && forall i :: 0 <= i < |items| ==> r.value[i] == QuoteOf(items[i], rolls(start + i))
  {
    TransformItemsOkWhen(items, rolls, start);
    var r := TransformItems(items, rolls, start);
    if r.Ok? && items != [] {
      TransformItemsAt(items, rolls, start, 0);
      forall i | 0 <= i < |items| ensures r.value[i] == QuoteOf(items[i], rolls(start + i)) {
        TransformItemsAt(items, rolls, start, i);
      }
    }
  }

  /** A failing map fails with the error of the first malformed element. */
  lemma TransformItemsErr(items: seq<RawItem>, rolls: nat -> nat, start: nat)
    ensures var r := TransformItems(items, rolls, start);
      r.Err? ==>
        exists k :: 0 <= k < |items| && !HasQuoteFields(items[k])
          && (forall i :: 0 <= i < k ==> HasQuoteFields(items[i]))
          && r.error == TransformItem(items[k], rolls(start + k)).error
  {
    var f := ItemCallback(rolls);
    MapOrThrowErr(items, f, start);
    var r := TransformItems(items, rolls, start);
    if r.Err? {
      var k :| 0 <= k < |items| && f(items[k], start + k).Err?
        && (forall i :: 0 <= i < k ==> f(items[i], start + i).Ok?)
        && r.error == f(items[k], start + k).error;
      assert f(items[k], start + k) == TransformItem(items[k], rolls(start + k));
      forall i | 0 <= i < k ensures HasQuoteFields(items[i]) {
        assert f(items[i], start + i) == TransformItem(items[i], rolls(start + i));
      }
    }
  }

  /** `transformResponse` throws on anything but an array, and on an array
      holding any element without `_id`, `content` and `author`; otherwise
      it keeps the length and order and copies the three fields. */
  lemma TransformResponseSpec(data: QuoteJson, rolls: nat -> nat)
    ensures TransformResponse(data, rolls).Ok? <==>
      data.ItemArray? && forall i :: 0 <= i < |data.items| ==> HasQuoteFields(data.items[i])
    ensures data.OtherValue? ==> TransformResponse(data, rolls) == Err(InvalidResponseFormat)
    ensures TransformResponse(data, rolls).Ok? ==>
      var qs := TransformResponse(data, rolls).value;
      |qs| == |data.items|
      && forall i :: 0 <= i < |qs| ==>
           qs[i].id == data.items[i].fields["_id"] && qs[i].content == data.items[i].fields["content"]
           && qs[i].author == data.items[i].fields["author"]
           && qs[i].title == QuoteCategory(data.items[i].tags.GetOr([]), rolls(i))
  {
    if data.ItemArray? {
      TransformItemsOkWhen(data.items, rolls, 0);
      if TransformItems(data.items, rolls, 0).Ok? {
        TransformItemsFields(data.items, rolls);
      }
    }
  }

  /** The fields of every quote of a successful map. */
  lemma TransformItemsFields(items: seq<RawItem>, rolls: nat -> nat)
    requires TransformItems(items, rolls, 0).Ok?
    ensures var qs := TransformItems(items, rolls, 0).value;
      |qs| == |items|
      && forall i :: 0 <= i < |qs| ==>
           HasQuoteFields(items[i]) && qs[i].id == items[i].fields["_id"] && qs[i].content == items[i].fields["content"]
           && qs[i].author == items[i].fields["author"]
           && qs[i].title == QuoteCategory(items[i].tags.GetOr([]), rolls(i))
  {
    if items != [] {
      TransformItemsAt(items, rolls, 0, 0);
      forall i | 0 <= i < |items| {
        QuoteFieldsAt(items, rolls, i);
      }
    }
  }

  lemma QuoteFieldsAt(items: seq<RawItem>, rolls: nat -> nat, i: nat)
    requires TransformItems(items, rolls, 0).Ok? && i < |items|
    ensures var qs := TransformItems(items, rolls, 0).value;
      i < |qs| && HasQuoteFields(items[i]) && qs[i].id == items[i].fields["_id"] && qs[i].content == items[i].fields["content"]
      && qs[i].author == items[i].fields["author"]
      && qs[i].title == QuoteCategory(items[i].tags.GetOr([]), rolls(i))
  {
    TransformItemsAt(items, rolls, 0, i);
  }

  /** An order of the bundled quotes. */
  predicate IsShuffle(order: seq<nat>) {
    |order| == |Quotes|
    && (forall i :: 0 <= i < |order| ==> order[i] < |Quotes|)
    && (forall i, j :: 0 <= i < j < |order| ==> order[i] != order[j])
  }

  /** `fallback-${Date.now()}-${Math.random()}`. */
  function FallbackId(now: int, noise: string): string {
    "fallback-" + IntToString(now) + "-" + noise
  }

  /** `shuffled.slice(0, count).map(...)`. */
  function Fallback(count: int, order: seq<nat>, now: int, noise: nat -> string): (qs: seq<Quote>)
    requires IsShuffle(order)
  {
    var k := SliceEnd(count, |Quotes|);
    seq(k, (i: int) requires 0 <= i < k =>
      var q := Quotes[order[i]];
      Quote(FallbackId(now, noise(i)), q.title, q.text, q.author))
  }

  /** The bundled quotes have pairwise different texts. */
  lemma BundledTextsDistinct()
    ensures forall i, j :: 0 <= i < j < |Quotes| ==> Quotes[i].text != Quotes[j].text
  {
    // every bundled text has a length of its own
    var lengths := [86, 68, 58, 64, 52, 43, 57, 69, 95, 89, 103, 50, 60, 82, 70];
    assert forall k :: 0 <= k < |Quotes| ==> |Quotes[k].text| == lengths[k];
    forall i, j | 0 <= i < j < |Quotes|
      ensures |Quotes[i].text| != |Quotes[j].text|
    {
      assert lengths[i] != lengths[j];
    }
  }

  /** The fallback holds `count` quotes (counted from the end for a negative
      `count`, at most the fifteen bundled ones), each a different bundled
      quote with its text as content, each with a "fallback-" id. */
  lemma FallbackSpec(count: int, order: seq<nat>, now: int, noise: nat -> string)
    requires IsShuffle(order)
    ensures var qs := Fallback(count, order, now, noise);
      |qs| == SliceEnd(count, |Quotes|)
      && (0 <= count ==> |qs| == if count < |Quotes| then count else |Quotes|)
      && (forall i :: 0 <= i < |qs| ==>
            qs[i].content == Quotes[order[i]].text && qs[i].title == Quotes[order[i]].title
            && qs[i].author == Quotes[order[i]].author
            && |qs[i].id| >= 9 && qs[i].id[..9] == "fallback-")
      && (forall i, j :: 0 <= i < j < |qs| ==> qs[i].content != qs[j].content)
  {
    FallbackFields(count, order, now, noise);
    FallbackDistinct(count, order, now, noise);
  }

  lemma FallbackFields(count: int, order: seq<nat>, now: int, noise: nat -> string)
    requires IsShuffle(order)
    ensures var qs := Fallback(count, order, now, noise);
      |qs| == SliceEnd(count, |Quotes|)
      && (0 <= count ==> |qs| == if count < |Quotes| then count else |Quotes|)
      && (forall i :: 0 <= i < |qs| ==>
            qs[i].content == Quotes[order[i]].text && qs[i].title == Quotes[order[i]].title
            && qs[i].author == Quotes[order[i]].author
            && |qs[i].id| >= 9 && qs[i].id[..9] == "fallback-")
  {
    var qs := Fallback(count, order, now, noise);
    forall i | 0 <= i < |qs| ensures |qs[i].id| >= 9 && qs[i].id[..9] == "fallback-" {
      FallbackIdPrefix(now, noise(i));
    }
  }

  lemma FallbackIdPrefix(now: int, noise: string)
    ensures |FallbackId(now, noise)| >= 9 && FallbackId(now, noise)[..9] == "fallback-"
  {
  }

  lemma FallbackDistinct(count: int, order: seq<nat>, now: int, noise: nat -> string)
    requires IsShuffle(order)
    ensures var qs := Fallback(count, order, now, noise);
      forall i, j :: 0 <= i < j < |qs| ==> qs[i].content != qs[j].content
  {
    var qs := Fallback(count, order, now, noise);
    forall i, j | 0 <= i < j < |qs| ensures qs[i].content != qs[j].content {
      BundledTextDiffers(order[i], order[j]);
    }
  }

  lemma BundledTextDiffers(a: nat, b: nat)
    requires a < |Quotes| && b < |Quotes| && a != b
    ensures Quotes[a].text != Quotes[b].text
  {
    BundledTextsDistinct();
    if b < a {
      assert Quotes[b].text != Quotes[a].text;
    }
  }

  /** What `fetchItems` returns once the base provider's call has settled
      to `fetched`. */
  function ItemsOutcome(fetched: Result<HttpResponse<QuoteBody>, Option<Failure>>, count: int,
                        rolls: nat -> nat, order: seq<nat>, now: int, noise: nat -> string): seq<Quote>
    requires IsShuffle(order)
  {
    match ApiQuotes(fetched, rolls)
    case Ok(qs) => qs
    case Err(_) => Fallback(count, order, now, noise)
  }

  /** The `try` block of `fetchItems`: the transformed quotes, or the error
      that sends it to the fallback. */
  function ApiQuotes(fetched: Result<HttpResponse<QuoteBody>, Option<Failure>>, rolls: nat -> nat): Result<seq<Quote>, Option<Failure>> {
    match fetched
    case Err(e) => Err(e)
    case Ok(response) =>
      if !IsOkStatus(response.status) then
        Err(Some(Failure(PlainError, "API returned status " + IntToString(response.status))))
      else
        match response.body
        case Malformed(message) => Err(Some(Failure(PlainError, message)))
        case Parsed(json) =>
          if json.OtherValue? || json.items == [] then
            Err(Some(Failure(PlainError, "Invalid API response: no quotes received")))
          else
            match TransformResponse(json, rolls)
            case Err(e) => Err(Some(e))
            case Ok(qs) => Ok(qs)
  }

  /** `fetchItems` never fails: it returns the API's quotes exactly when the
      API answered with a non-empty array of well-formed records, and the
      fallback otherwise. */
  lemma ItemsOutcomeSpec(fetched: Result<HttpResponse<QuoteBody>, Option<Failure>>, count: int,
                         rolls: nat -> nat, order: seq<nat>, now: int, noise: nat -> string)
    requires IsShuffle(order)
    ensures var usable := fetched.Ok? && IsOkStatus(fetched.value.status) && fetched.value.body.Parsed?
      && fetched.value.body.json.ItemArray? && fetched.value.body.json.items != []
      && forall i :: 0 <= i < |fetched.value.body.json.items| ==> HasQuoteFields(fetched.value.body.json.items[i]);
      (usable ==> TransformResponse(fetched.value.body.json, rolls).Ok?
                  && ItemsOutcome(fetched, count, rolls, order, now, noise) == TransformResponse(fetched.value.body.json, rolls).value)
      && (!usable ==> ItemsOutcome(fetched, count, rolls, order, now, noise) == Fallback(count, order, now, noise))
  {
    if fetched.Ok? && fetched.value.body.Parsed? {
      TransformResponseSpec(fetched.value.body.json, rolls);
    }
  }

  /** The request `fetchItems(count)` sends. */
  function QuotesUrl(baseUrl: string, count: int): string {
    baseUrl + "/quotes/random?limit=" + IntToString(count)
  }

  class QuoteProvider {
    const base: BaseProvider<QuoteBody>

    /** `new QuoteProvider(config)`; with no configuration the public quote
        API is used. */
    constructor (config: Option<ProviderConfig>)
      ensures base.config == config.GetOr(ProviderConfig(None, Some(DefaultBaseUrl)))
      ensures config.None? ==> base.baseUrl == DefaultBaseUrl
    {
      base := new BaseProvider(config.GetOr(ProviderConfig(None, Some(DefaultBaseUrl))));
    }

    /** `fetchItems(count)`: one call of the base provider's retry loop with
        its default three attempts, then the API's quotes or the fallback. */
    method FetchItems(count: int, replies: nat -> HttpReply<QuoteBody>, rolls: nat -> nat,
                      order: seq<nat>, now: int, noise: nat -> string)
      returns (quotes: seq<Quote>, sent: seq<Request>, waits: seq<nat>)
      requires IsShuffle(order)
      ensures quotes == ItemsOutcome(FetchOutcome(replies, DefaultRetries), count, rolls, order, now, noise)
      ensures |sent| == Made(Tries(replies, DefaultRetries))
      ensures forall i :: 0 <= i < |sent| ==> sent[i] == Request(QuotesUrl(base.baseUrl, count), MergedHeaders(None))
      ensures waits == Pauses(|sent|, Constantly(RetryPause))
    {
      var fetched;
      fetched, sent, waits := base.FetchWithRetry(QuotesUrl(base.baseUrl, count), RequestOptions(None), DefaultRetries, replies);
      var api := ApiQuotes(fetched, rolls);
      if api.Ok? {
        quotes := api.value;
      } else {
        quotes := Fallback(count, order, now, noise);
      }
    }
  }
}
