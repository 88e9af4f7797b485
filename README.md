# Luminary and MSona, modelled in Dafny

Luminary and MSona are two single-page React applications in one client.
Luminary is a feed of inspirational quotes. It can fetch more quotes, keep
favourites, rewrite a quote with an AI service and read it aloud. MSona is a
music-search feed backed by the Spotify Web API. It can show audio features,
keep favourite tracks and play previews. Most of the client is rendering.
This project models the parts that decide something, one Dafny module per
source file:

- the diagnostic log buffer (`LogService`) and its viewer (`LogViewer`);
- the Spotify access layer with its cached token and retry recursion (`SpotifyService`);
- the quote provider, the shared retry loop of the providers, the quote
  service, the AI service and the speech service (`BaseProviders`,
  `QuoteProviders`, `QuoteService`, `AiService`, `SpeechService`, with the
  bounded-retry bookkeeping in `RetryLoop`);
- the pagination window and its button rules (`PageWindow`), and the
  category icon and name rules (`CategoryService`);
- the state of the two applications and their components (`LuminaryApp`,
  `QuoteCard`, `InspirationGuide`, `MSonaApp`, `MusicFeed`, `MusicCard`,
  `AudioContext`, `AudioPlayer`);
- the hooks for swipes, infinite scrolling and cookie consent
  (`SwipeGestures`, `InfiniteScroll`, `CookieConsent`) and the feedback
  questionnaire (`FeedbackButton`).

The environment enters as parameters:

- The clock is an explicit `now` in milliseconds.
- The network is an oracle `nat -> Reply`: the n-th request of a kind
  receives the n-th reply.
- Browser storage and the clipboard are inputs that say whether a read or
  write succeeds and what it returns.
- Random draws (a style, a category, a shuffle) are parameters.

Pure code becomes functions with lemmas. Components and services whose
fields change become classes. Each class has a `State()` function and
methods that are proved to move that state exactly as a transition
function on a state record does. The lemmas are stated about those
transition functions.

JavaScript semantics are modelled where the code depends on them:

- `trim` with the ECMAScript whitespace set;
- `slice` with negative bounds;
- `%` truncating toward zero;
- `parseInt` on decimal text;
- truthiness of empty strings;
- a stable `sort`;
- `Array.prototype.filter`.

## Behaviour of the code worth noting

- A 429 answer after the third attempt falls through to the generic
  non-ok branch and raises a `SpotifyError`.
- The rate-limit wait is the Retry-After value. The doubled `delay`
  argument is computed and passed on but never used for waiting.
- A token's expiry is stored as now + (expires_in - 60) seconds. The cached
  token is then used while now is before that instant.
- The quote provider waits a fixed 1000 ms between attempts, not a delay
  that grows with the attempt.

## Model

| member | source | states |
|---|---|---|
| Platform.AsError | src/providers/BaseProvider.ts:39 | a thrown `Error` is kept as it is, and any other thrown value becomes a plain `Error` |
| Platform.TimerDelay | src/services/spotifyService.ts:99 | the wait `setTimeout` performs is at most 2^31 - 1 ms: an in-range delay is kept, a delay from -2^31 to 0 and a delay that is not a number wait 0 |
| JsText.TrimStart | src/services/categoryService.ts:45 | the result is a suffix of the text that starts with no white space, and everything removed is white space |
| JsText.TrimEnd | src/services/aiService.ts:66 | the result is a prefix of the text that ends with no white space, and everything removed is white space |
| JsText.TrimEmptyIff | src/apps/msona/components/MusicFeed.tsx:37 | a text trims to the empty string iff all its characters are white space |
| JsText.TrimNoop | src/services/spotifyService.ts:143 | a text whose ends are not white space trims to itself |
| JsText.ToLower | src/services/categoryService.ts:45 | lower-casing keeps the length and maps each character on its own |
| JsText.ToUpper | src/providers/QuoteProvider.ts:24 | upper-casing keeps the length and maps each character on its own |
| JsText.ToLowerIdempotent | src/services/categoryService.ts:45 | lower-casing twice is lower-casing once |
| JsText.ToLowerAppend | src/providers/QuoteProvider.ts:24 | lower-casing distributes over concatenation |
| JsText.NatToString | src/apps/msona/components/MusicCard.tsx:239 | the decimal text of a number is all digits, and longer than one digit iff the number is at least 10 |
| JsText.NatToStringRoundTrip | src/apps/msona/components/MusicCard.tsx:239 | the decimal text of a number reads back as that number |
| JsText.NatToStringInjective | src/apps/msona/components/MusicCard.tsx:239 | different numbers have different decimal texts |
| JsText.DigitRun | src/services/spotifyService.ts:88 | the longest run of digits at the start of a text: all digits, and followed by a non-digit or the end |
| JsText.ParseInt | src/services/spotifyService.ts:88 | `parseInt` gives `NaN` iff no digit follows the leading white space and one optional sign |
| JsText.ParseIntOfDigits | src/services/spotifyService.ts:88 | a non-empty run of digits parses as the number it spells |
| JsText.ParseIntOfDecimal | src/services/spotifyService.ts:88 | a header carrying the decimal text of a number parses back to that number |
| JsText.Join | src/apps/msona/components/MusicCard.tsx:54 | joining no parts gives the empty string, and joining one part gives that part |
| JsText.JoinAppend | src/apps/msona/components/MusicCard.tsx:54 | joining one more part appends the separator and then that part, for any non-empty list |
| JsText.PadStart2 | src/apps/msona/components/MusicCard.tsx:239 | a text of two or more characters is kept; a shorter one is padded on the left to exactly two, ending with the text |
| JsList.Filter | src/components/LogViewer.tsx:19-22 | `filter` never lengthens a list |
| JsList.FilterSpec | src/components/LogViewer.tsx:19-22 | `filter` keeps exactly the elements that pass the test, each as often as in the input, in input order |
| JsList.FilterKeepsAll | src/apps/msona/MSonaApp.tsx:28-30 | a filter that every element passes returns its input |
| JsList.FilterIdempotent | src/apps/msona/MSonaApp.tsx:28-30 | filtering twice with one test is filtering once |
| JsList.FilterAppend | src/apps/luminary/LuminaryApp.tsx:76 | filtering a concatenation is concatenating the filtered parts |
| JsList.MapOrThrowOk | src/providers/QuoteProvider.ts:83-94 | `map` with a throwing callback succeeds iff no callback throws |
| JsList.MapOrThrowAt | src/providers/QuoteProvider.ts:83-94 | a successful `map` keeps the length, and element i is what the callback returned for element i |
| JsList.MapOrThrowErr | src/providers/QuoteProvider.ts:83-94 | a failing `map` fails with the error of the first callback that throws, all earlier callbacks having returned |
| JsList.SliceEnd | src/services/logService.ts:73 | the end index `slice(0, end)` stops at lies within the list, a negative end counting back from its end |
| LogService.Unshift | src/services/logService.ts:32-35 | the new entry is at index 0, the length is min(old + 1, 1000), and the rest is the old buffer minus its last entry only when it was full |
| LogService.FanOut | src/services/logService.ts:38 | every registered listener receives the entry exactly once, in registration order |
| LogService.LogAll | src/services/logService.ts:32-35 | the buffer never holds more than 1000 entries, however many are logged |
| LogService.LogAllKeepsNewest | src/services/logService.ts:20-35 | logging a run of entries leaves the newest 1000 of all entries seen, newest first |
| LogService.FirstEntryEvicted | src/services/logService.ts:32-35 | once more than 1000 entries were logged, the buffer holds exactly the last 1000, newest first, so the oldest was dropped |
| LogService.DisposeOnlyItsOwn | src/services/logService.ts:58-60 | a disposer removes every registration of its own listener and no other, keeps the others in order, and that listener gets no further calls |
| LogService.LogService.constructor | src/services/logService.ts:18-21 | the service starts with no entries and no listeners |
| LogService.LogService.Log | src/services/logService.ts:23-38 | the buffer becomes `Unshift` of the old one, the listeners are unchanged, and each listener is called once with the new entry |
| LogService.LogService.AddListener | src/services/logService.ts:56-61 | the listener is appended, and the disposer handed back is bound to it |
| LogService.LogService.Dispose | src/services/logService.ts:58-60 | the listener list becomes the old one without the disposer's listener, and nothing else changes |
| LogService.LogService.RecentLogs | src/services/logService.ts:72-74 | the result is a prefix of the buffer, of length min(count, length) for a non-negative count (JavaScript `slice` semantics for a negative one) |
| LogService.LogService.LogsByLevel | src/services/logService.ts:76-78 | exactly the entries of that level, with their multiplicities, in buffer order |
| LogService.LogService.LogsByCategory | src/services/logService.ts:80-82 | exactly the entries of that category, with their multiplicities, in buffer order |
| LogService.LogService.ClearLogs | src/services/logService.ts:84-94 | the buffer is empty, and the "Logs cleared" INFO entry goes to every listener without being stored |
| SpotifyService.AccessTokenSpec | src/services/spotifyService.ts:19-63 | a fresh cached token is returned with no exchange; otherwise one exchange is made; a grant stores the token with expiry now + (expires_in - 60) * 1000; a refusal raises a `SpotifyError` "Authentication failed: ..." and stores nothing |
| SpotifyService.RetryWaitHonoursHeader | src/services/spotifyService.ts:88-99 | a Retry-After of n seconds makes the retry wait n * 1000 ms |
| SpotifyService.RetryWaitDefault | src/services/spotifyService.ts:88 | a missing or empty Retry-After waits 1000 ms |
| SpotifyService.ClassifySpec | src/services/spotifyService.ts:87-120 | a 429 is retried iff attempt <= 3, after the Retry-After wait; a 401 re-authorises iff no new token was forced; a 2xx answer returns its JSON body; every other non-ok answer raises a `SpotifyError` with the body's message |
| SpotifyService.TerminalStatusesRaise | src/services/spotifyService.ts:98-118 | a 429 after the third attempt, and a 401 under a forced token, end in a `SpotifyError` |
| SpotifyService.TryOnceLawful | src/services/spotifyService.ts:71-120 | one pass makes at most one exchange (exactly one when forced) and at most one catalog request, leaves the clock alone, and returns only the JSON body of a 2xx answer to the request just made |
| SpotifyService.NonOkAnswerRaises | src/services/spotifyService.ts:78-118 | once a token is obtained, a non-ok JSON answer that is neither a 429 within the budget nor a 401 under a cached token ends the fetch with a `SpotifyError` carrying the body's message, after one request and no wait |
| SpotifyService.RetryIgnoresDelay | src/services/spotifyService.ts:89-100 | the `delay` argument never changes what a fetch does: the waits come from Retry-After alone |
| SpotifyService.RetryBounds | src/services/spotifyService.ts:65-139 | a fetch only appends to the request log and the waits, makes at most 2 catalog requests and 2 exchanges per attempt level, always exchanges when forced, waits at most once per retry left, and its clock advances by exactly its waits |
| SpotifyService.RetrySuccessFromOkReply | src/services/spotifyService.ts:110-120 | a fetch succeeds only with the JSON body of a 2xx answer to one of its own requests |
| SpotifyService.UnreachablePassThrows | src/services/spotifyService.ts:71-84 | while the catalog cannot be reached, every pass throws a plain failure, that of its failed exchange or else of its request, and makes at most one exchange and one request |
| SpotifyService.UnreachableFailsAfterTwoPasses | src/services/spotifyService.ts:121-138 | while the catalog cannot be reached, a fetch makes exactly two passes, the second with a forced token, waits nothing, and fails with the second pass's failure |
| SpotifyService.InsertKeepsOrder | src/services/spotifyService.ts:160 | inserting keeps a list ordered by non-increasing popularity ordered |
| SpotifyService.InsertAddsOne | src/services/spotifyService.ts:160 | inserting adds exactly the one track, as a multiset |
| SpotifyService.SortByPopularity | src/services/spotifyService.ts:158-160 | the result is ordered by non-increasing popularity and is a permutation of the input |
| SpotifyService.InsertKeepsEqualOrder | src/services/spotifyService.ts:160 | inserting a track keeps the relative order of the tracks of each popularity |
| SpotifyService.SortByPopularityStable | src/services/spotifyService.ts:160 | the sort is stable: tracks of equal popularity keep their input order |
| SpotifyService.SearchOutcomeSpec | src/services/spotifyService.ts:141-173 | a blank query returns [] with no request; otherwise the trimmed query is fetched, and the result is the tracks with a preview, ordered by popularity, or the fetch's error |
| SpotifyService.SpotifyClient.constructor | src/services/spotifyService.ts:12-13 | the token and its expiry start unset |
| SpotifyService.SpotifyClient.GetAccessToken | src/services/spotifyService.ts:19-63 | the result and the new token state are those of `AccessToken` |
| SpotifyService.SpotifyClient.Attempt | src/services/spotifyService.ts:71-120 | one pass through the `try` block: it drops the token when forced, gets a token and classifies the answer, as `TryOnce` does |
| SpotifyService.SpotifyClient.FetchWithRetry | src/services/spotifyService.ts:65-139 | the recursive method ends in the result and state of `Fetch` |
| SpotifyService.SpotifyClient.WaitAndRetry | src/services/spotifyService.ts:86-100 | the 429 branch: after waiting, the state and result are those of `Fetch` from the waited session with the next attempt |
| SpotifyService.SpotifyClient.SearchTracks | src/services/spotifyService.ts:141-173 | the result and state are those of `SearchOutcome` |
| SpotifyService.SpotifyClient.GetTrackFeatures | src/services/spotifyService.ts:175-186 | a fetch of the track's audio features with attempt 1, delay 1000 and no forced token |
| BaseProviders.MergedHeadersSpec | src/providers/BaseProvider.ts:26-30 | caller-supplied headers override Accept and Cache-Control; the defaults fill in the rest, and nothing else is added |
| BaseProviders.Tries | src/providers/BaseProvider.ts:22-39 | there are `retries` attempts (none for retries <= 0); each fails on a rejection or a non-ok status and succeeds on an ok response |
| BaseProviders.FetchOutcomeSpec | src/providers/BaseProvider.ts:15-46 | the call succeeds iff one of its `retries` attempts is answered with an ok status, and then returns the first such response; when all fail it throws the last attempt's error; with retries <= 0 it throws `null` |
| BaseProviders.ErrorStatusMessage | src/providers/BaseProvider.ts:33-35 | a non-ok status fails the attempt with "HTTP error! status: " and the status |
| BaseProviders.BaseProvider.constructor | src/providers/BaseProvider.ts:7-10 | `baseUrl` is the configured one, or '' when it is missing or empty |
| BaseProviders.BaseProvider.FetchWithRetry | src/providers/BaseProvider.ts:15-46 | the loop's result is `FetchOutcome`; it sends one request per attempt made, each with the merged headers, and pauses 1000 ms between attempts and not after the last |
| RetryLoop.Made | src/providers/BaseProvider.ts:22-43 | a bounded retry loop makes every attempt up to and including the first success, and all of them when none succeeds |
| RetryLoop.SettleSpec | src/providers/BaseProvider.ts:22-45 | a bounded retry loop succeeds iff some attempt succeeds, and then with the first success; otherwise it ends with the last failure |
| RetryLoop.Pauses | src/providers/BaseProvider.ts:40-41 | a loop that made k attempts pauses k - 1 times, after every attempt but the last |
| QuoteProviders.CapitalisedSpec | src/providers/QuoteProvider.ts:24 | the first character is upper-cased, every other one lower-cased, and the length is kept |
| QuoteProviders.FamousQuotesTagIgnored | src/providers/QuoteProvider.ts:13 | a "famous quotes" tag, in any letter case, never names the category |
| QuoteProviders.FirstTagNamesCategory | src/providers/QuoteProvider.ts:23-24 | the first other tag names the category, capitalised |
| QuoteProviders.UntaggedCategory | src/providers/QuoteProvider.ts:15-21 | without a usable tag the title is one of the eight listed categories, the one the random draw picks |
| QuoteProviders.CategoryIndexIsRemainder | src/providers/QuoteProvider.ts:20 | the category drawn is the random number's remainder by the number of categories, always a valid position |
| QuoteProviders.TransformItemsOkWhen | src/providers/QuoteProvider.ts:83-94 | the map succeeds iff every element has `_id`, `content` and `author` |
| QuoteProviders.TransformItemsAt | src/providers/QuoteProvider.ts:83-94 | after a successful map, element i is the quote made from record i with the i-th random draw, and the lengths agree |
| QuoteProviders.TransformItemsOk | src/providers/QuoteProvider.ts:83-94 | the map succeeds iff every element has `_id`, `content` and `author`, and then yields one quote per element, in order |
| QuoteProviders.TransformItemsErr | src/providers/QuoteProvider.ts:83-94 | a failing map fails with the error of the first malformed element |
| QuoteProviders.TransformResponseSpec | src/providers/QuoteProvider.ts:76-108 | a non-array throws "Invalid response format"; otherwise the result keeps the length and order and copies `_id`, `content` and `author` into `id`, `content` and `author` |
| QuoteProviders.BundledTextsDistinct | src/data/quotes.ts:1-92 | the fifteen bundled quotes have pairwise different texts |
| QuoteProviders.FallbackSpec | src/providers/QuoteProvider.ts:59-66 | the fallback holds min(count, 15) quotes for a non-negative count (JavaScript `slice` for a negative one), each a different bundled quote with its `text` as content and an id starting with "fallback-" |
| QuoteProviders.ItemsOutcomeSpec | src/providers/QuoteProvider.ts:27-74 | `fetchItems` never fails: it returns the transformed API quotes iff the API answered ok with a non-empty array of well-formed records, and the fallback otherwise |
| QuoteProviders.QuoteProvider.constructor | src/providers/QuoteProvider.ts:8-10 | without a configuration the base URL is https://api.quotable.io |
| QuoteProviders.QuoteProvider.FetchItems | src/providers/QuoteProvider.ts:27-74 | the result is `ItemsOutcome` of the base loop's outcome; it requests `/quotes/random?limit=count` with at most 3 attempts, pausing 1000 ms between them |
| QuoteService.QuotesOutcome | src/services/quoteService.ts:7-34 | a non-empty list from the provider is returned unchanged; an empty one rejects with "No quotes received"; a provider error is rethrown |
| QuoteService.FetchQuotesWithoutApi | src/services/quoteService.ts:12-18 | when the API path fails, the service rejects with "No quotes received" iff the fallback slice is empty (count 0, or count <= -15); a positive count gives min(count, 15) quotes |
| QuoteService.FetchQuotes | src/services/quoteService.ts:7-34 | the result is `QuotesOutcome` of what the provider's `fetchItems` returns |
| AiService.StripQuotes | src/services/aiService.ts:66 | at most one quote mark is removed at each end, so the length drops by at most two |
| AiService.StripQuotesOfQuoted | src/services/aiService.ts:66 | putting a quote mark at each end of a text and stripping them gives the text back |
| AiService.StripQuotesKeepsUnquoted | src/services/aiService.ts:66 | a text that neither starts nor ends with a quote mark is kept |
| AiService.AttemptResultSpec | src/services/aiService.ts:13-67 | an attempt succeeds iff a key is configured, the answer is ok, and it has non-empty content and no refusal; the text is then the trimmed content with its outer quote marks removed; a missing key fails with "API key is not configured" |
| AiService.AttemptFailures | src/services/aiService.ts:38-60 | a non-ok answer fails with the server's `error` field, or else with "API request failed (status). Please try again."; missing content fails with "No content in AI response"; a refusal fails even when content is present |
| AiService.AiTries | src/services/aiService.ts:6-12 | the loop has exactly two attempts, and the n-th one sees the n-th reply |
| AiService.ResponseOutcomeSpec | src/services/aiService.ts:8-85 | the function never throws; the answer has no error iff one of the two attempts succeeds, and then carries the first success's text; otherwise the text is '' and the error is the last attempt's message |
| AiService.MissingKeyAnswer | src/services/aiService.ts:14-16 | without a key both attempts fail inside the loop, and the answer reports "API key is not configured" |
| AiService.GenerateAIResponse | src/services/aiService.ts:8-85 | the loop returns `ResponseOutcome`; it sends one request per attempt made when a key is configured, and waits 1000 * attempts ms between attempts and not after the last |
| SpeechService.SelectedVoice | src/services/speechService.ts:26 | a given non-empty voice id is used; otherwise the default voice |
| SpeechService.SpeechAttempt | src/services/speechService.ts:30-87 | an attempt succeeds iff the answer is ok and the audio is not empty, and then yields that audio; a failed answer raises a `SpeechError` |
| SpeechService.SpeechTries | src/services/speechService.ts:5-29 | the loop has exactly two attempts, and the n-th one sees the n-th reply |
| SpeechService.SpeechOutcomeSpec | src/services/speechService.ts:14-91 | a missing key and a browser without MP3 support raise `SpeechError` before any request; past these checks the call succeeds iff one of the two attempts does, with the audio of the first attempt that succeeds, and otherwise throws the last attempt's error |
| SpeechService.SynthesizeSpeech | src/services/speechService.ts:8-92 | the result is `SpeechOutcome`; every request goes to the selected voice with the text and the key; it waits 1000 * (attempt + 1) ms between attempts, and makes no request when a check fails |
| PageWindow.PageNumbers | src/components/Pagination.tsx:25 | the pages 1..total, in order (none for a negative total) |
| PageWindow.VisiblePages | src/components/Pagination.tsx:28-40 | the window never has more than 7 entries |
| PageWindow.VisiblePagesCases | src/components/Pagination.tsx:28-40 | total <= 7 gives 1..total; otherwise current <= 4 gives [1..5, gap, total], current >= total - 3 gives [1, gap, total - 4..total], and any other current gives [1, gap, current - 1, current, current + 1, gap, total] |
| PageWindow.CompressedListingIncreasing | src/components/PaginationControls.tsx:32-44 | in a window the page entries (all but the -1 gap markers) are strictly increasing |
| PageWindow.VisiblePagesCompressed | src/components/PaginationControls.tsx:32-44 | every window starts at 1, lists only pages in 1..total, and marks every omitted run of pages with one gap marker |
| PageWindow.VisiblePagesShowAnchors | src/components/Pagination.tsx:28-40 | for 1 <= current <= total the window shows the current page, page 1 and the last page |
| PageWindow.Paged | src/components/Pagination.tsx:73-154 | first and previous are disabled iff current = 1, and next and last are disabled iff current = total |
| PageWindow.Controls | src/components/PaginationControls.tsx:28-166 | nothing is rendered iff pagination is disabled or there is at most one page; otherwise the buttons are those of `Paged` |
| PageWindow.ConfiguredControls | src/components/PaginationControls.tsx:28 | with pagination enabled as configured, the controls appear exactly when there is more than one page |
| PageWindow.EnabledButtonsStayInRange | src/components/PaginationControls.tsx:84-166 | for a current page in range, an enabled button leads to another page in range, and a button is disabled iff it would stay on the current page or leave the range |
| CategoryService.FormatCategory | src/services/categoryService.ts:49-51 | a category without a leading "on" and white space is kept; otherwise that prefix is removed and the rest is kept verbatim |
| CategoryService.FormatCategoryDropsPrefix | src/services/categoryService.ts:50 | "on" in any letter case, then white space, then a text that does not start with white space, formats to that text |
| CategoryService.TrimStartOfBlankPrefix | src/services/categoryService.ts:50 | removing a run of white space from the front of a text that does not start with white space leaves that text |
| CategoryService.OnwardIsKept | src/services/categoryService.ts:50 | "Onward" is returned unchanged |
| CategoryService.KeysHaveNoOnPrefix | src/services/categoryService.ts:25-41 | no key of the icon table starts with "on" and white space |
| CategoryService.ListedNamesFound | src/services/categoryService.ts:25-46 | the fifteen listed names get their own icon whatever their letter case |
| CategoryService.OnTitleFound | src/services/categoryService.ts:43-46 | a title "On <name>" gets the icon of the name |
| CategoryService.UnknownNameDefault | src/services/categoryService.ts:46 | any other name gets the default light bulb with "text-gray-500" |
| CategoryService.GetCategoryIconAsWritten | src/services/categoryService.ts:43-47 | the lookup as written: whenever it yields a table entry, it is the one the intended lookup gives |
| CategoryService.ConstructorCategoryNotAnIcon | src/services/categoryService.ts:46 | the category "constructor" yields a member inherited from `Object.prototype`, not an icon entry |
| CategoryService.LowerCaseKept | src/services/categoryService.ts:45 | a text without upper-case ASCII letters is its own lower case |
| LuminaryApp.RefreshSpec | src/apps/luminary/LuminaryApp.tsx:40-60 | a refresh does nothing while loading or in the favourites view; otherwise it ends with loading over, replaces the quotes and clears the error on success, keeps the quotes and records an `Error`'s message (or "Failed to fetch quotes" for anything else thrown) on failure, and leaves favourites, view and rewritten texts alone |
| LuminaryApp.RefreshNeverSticks | src/apps/luminary/LuminaryApp.tsx:41-58 | the `finally` clears the loading flag, so after a refresh in the feed view the next refresh passes the guard again |
| LuminaryApp.ScrollRefreshes | src/apps/luminary/LuminaryApp.tsx:95-99 | the infinite-scroll trigger fires exactly when a refresh would run and the viewport is within the threshold of the bottom |
| LuminaryApp.FindById | src/apps/luminary/LuminaryApp.tsx:70 | `find` yields a quote of the list with the id, and nothing exactly when no quote has it |
| LuminaryApp.FindByIdFirst | src/apps/luminary/LuminaryApp.tsx:70 | the quote found is the first one with that id |
| LuminaryApp.ToggledFavoritesSpec | src/apps/luminary/LuminaryApp.tsx:69-81 | an id of no current quote leaves the favourites unchanged; a favourite already present is removed with every entry of its id and the rest kept in order; any other quote is appended at the end |
| LuminaryApp.ToggleTwiceRestores | src/apps/luminary/LuminaryApp.tsx:73-80 | liking a current quote that is not a favourite and liking it again gives the favourites back |
| LuminaryApp.TransformRecordedSpec | src/apps/luminary/LuminaryApp.tsx:62-67 | the rewritten text is stored under that quote's id, every other entry and every other field are kept |
| LuminaryApp.RenderedSpec | src/apps/luminary/LuminaryApp.tsx:133-160 | a non-empty error replaces the cards; otherwise the cards list the quotes of the current view in order; a card is liked iff a favourite has its id; only the first card of a feed of two or more quotes is new; in the favourites view every card is liked and none new |
| LuminaryApp.Luminary.constructor | src/apps/luminary/LuminaryApp.tsx:28-38 | no quotes, not loading, no error, the stored favourites, the feed view, no rewritten texts |
| LuminaryApp.Luminary.HandleRefresh | src/apps/luminary/LuminaryApp.tsx:40-60 | the quotes are requested iff the guard passes, and the new state is that of `Refreshed` |
| LuminaryApp.Luminary.Mount | src/apps/luminary/LuminaryApp.tsx:84-88 | the mount effect refreshes only when no quotes, no loading and no error are present, and then moves the state as a refresh does |
| LuminaryApp.Luminary.ToggleFavorite | src/apps/luminary/LuminaryApp.tsx:69-81 | the favourites become `ToggledFavorites` of the current quotes and nothing else changes |
| LuminaryApp.Luminary.HandleTransformSuccess | src/apps/luminary/LuminaryApp.tsx:62-67 | the state becomes `TransformRecorded` |
| LuminaryApp.Luminary.ToggleFavoritesView | src/apps/luminary/LuminaryApp.tsx:112 | the favourites view flips and nothing else changes |
| MSonaApp.ValidFavoritesSpec | src/apps/msona/MSonaApp.tsx:28-30 | the favourites shown and counted are exactly the stored ones with an id, a name, artists and an album, in stored order, and never more than those stored |
| MSonaApp.Projected | src/apps/msona/MSonaApp.tsx:53-61 | the stored copy keeps the eight listed fields and drops everything else the catalog sent |
| MSonaApp.ToggledFavoritesSpec | src/apps/msona/MSonaApp.tsx:37-64 | an incomplete track leaves the favourites unchanged; a favourite already present is removed with every entry of its id, the rest kept in order and the list shorter; any other track is stored, projected, at the front |
| MSonaApp.ToggleTwiceRestores | src/apps/msona/MSonaApp.tsx:45-63 | adding a complete track that is not a favourite and toggling it again gives the favourites back |
| MSonaApp.AddingRaisesCount | src/apps/msona/MSonaApp.tsx:53-62 | adding a complete track raises the favourite count shown by one |
| MSonaApp.MSonaState.constructor | src/apps/msona/MSonaApp.tsx:23-25 | an empty query, the search view and the stored favourites |
| MSonaApp.MSonaState.FavoriteCount | src/apps/msona/MSonaApp.tsx:85 | the header's count is the number of complete favourites (ValidFavoritesSpec), never more than those stored |
| MSonaApp.MSonaState.HandleSearch | src/apps/msona/MSonaApp.tsx:32-35 | the query is taken, the search results replace the favourites view, the favourites are kept |
| MSonaApp.MSonaState.ToggleFavorite | src/apps/msona/MSonaApp.tsx:37-71 | the favourites become `ToggledFavorites` and nothing else changes |
| MSonaApp.MSonaState.ToggleFavoritesView | src/apps/msona/MSonaApp.tsx:84 | the favourites view flips and nothing else changes |
| MusicCard.TruncatedRemainder | src/apps/msona/components/MusicCard.tsx:239 | JavaScript's `%` by a positive divisor: the Euclidean remainder for a non-negative left side, and the remainder's sign follows the left side otherwise |
| MusicCard.DurationPartsSpec | src/apps/msona/components/MusicCard.tsx:239 | for a non-negative duration the parts are whole minutes and 0 to 59 seconds, and together they fall short of the duration by less than a second |
| MusicCard.DurationTextReadsBack | src/apps/msona/components/MusicCard.tsx:239 | the text of a non-negative duration is decimal minutes, a colon and exactly two digits, and both fields read back as the minutes and the seconds |
| MusicCard.PaddedDigits | src/apps/msona/components/MusicCard.tsx:239 | padding one digit with a leading zero keeps the value it reads as |
| MusicCard.ArtistNames | src/apps/msona/components/MusicCard.tsx:54 | the artist names in order, one per artist |
| MusicCard.ShareText | src/apps/msona/components/MusicCard.tsx:54 | the text cannot be built (the handler throws) exactly when the track has no artists |
| MusicCard.ShareTextSpec | src/apps/msona/components/MusicCard.tsx:54 | the text starts with the name and " by "; a single artist is named as it is; no artists leaves just the prefix; with two or more, the last artist follows the others after ", " |
| MusicCard.TwoArtistsShareText | src/apps/msona/components/MusicCard.tsx:54 | two artists give "name by a, b" |
| MusicCard.ShareSpec | src/apps/msona/components/MusicCard.tsx:56-72 | at most two clipboard writes; the copied mark is set iff the last write succeeded; the share sheet is used only on a screen at most 768 wide that has one, and then nothing is written |
| MusicCard.CoverUrl | src/apps/msona/components/MusicCard.tsx:102 | the second image's url when it is non-empty, else the first image's, else nothing |
| MusicCard.PlayPauseToggles | src/apps/msona/components/MusicCard.tsx:41-50 | without a preview nothing happens; with one the track plays afterwards iff it did not before, and a newly started track's element holds its preview url |
| MusicCard.Card.constructor | src/apps/msona/components/MusicCard.tsx:35-36 | a collapsed card without the copied mark |
| MusicCard.Card.ToggleExpand | src/apps/msona/components/MusicCard.tsx:75-90 | the card flips open or closed, and features are requested iff it opens without features |
| MusicCard.Card.HandlePlayPause | src/apps/msona/components/MusicCard.tsx:41-50 | the audio provider moves as `PlayPause` says |
| MusicCard.Card.HandleShare | src/apps/msona/components/MusicCard.tsx:52-73 | a track without artists shares nothing; otherwise the outcome is `Share`, and the copied mark is set iff a clipboard write succeeded |
| AudioContext.PauseCurrent | src/apps/msona/context/AudioContext.tsx:38-40 | pausing touches only the current element and keeps which element is current |
| AudioContext.StoppedSpec | src/apps/msona/context/AudioContext.tsx:27-34 | after `stop()` no track is playing or buffering, no element is current or playing, and the volume and every element's source are kept |
| AudioContext.PlaySameTrackStops | src/apps/msona/context/AudioContext.tsx:42-46 | playing the track that is playing is the same as `stop()` |
| AudioContext.PlayOtherTrack | src/apps/msona/context/AudioContext.tsx:36-67 | playing another track pauses what played and creates one new paused element for the url at the current volume, which becomes current; the track is marked playing and buffering |
| AudioContext.TransitionsKeepValid | src/apps/msona/context/AudioContext.tsx:27-74 | stop, play, a volume change and both listeners keep at most one element live, and the current element at the provider's volume |
| AudioContext.VolumeReachesCurrent | src/apps/msona/context/AudioContext.tsx:51-74 | a new volume reaches the current element and every element created later |
| AudioContext.ListenersSpec | src/apps/msona/context/AudioContext.tsx:54-63 | `canplaythrough` ends buffering and starts the current element; `error` ends in the stopped state |
| AudioContext.AudioProvider.constructor | src/apps/msona/context/AudioContext.tsx:22-25 | nothing playing, volume 1, not buffering, no element |
| AudioContext.AudioProvider.Pause | src/apps/msona/context/AudioContext.tsx:38-40 | the state becomes `PauseCurrent` |
| AudioContext.AudioProvider.Stop | src/apps/msona/context/AudioContext.tsx:27-34 | the state becomes `Stopped` |
| AudioContext.AudioProvider.Play | src/apps/msona/context/AudioContext.tsx:36-67 | the state becomes `Played` |
| AudioContext.AudioProvider.SetVolume | src/apps/msona/context/AudioContext.tsx:69-74 | the state becomes `VolumeSet` |
| AudioContext.AudioProvider.OnCanPlayThrough | src/apps/msona/context/AudioContext.tsx:54-57 | the state becomes `ReadyToPlay` |
| AudioContext.AudioProvider.OnEnded | src/apps/msona/context/AudioContext.tsx:59 | the state becomes `Stopped` |
| AudioContext.AudioProvider.OnError | src/apps/msona/context/AudioContext.tsx:60-63 | the state becomes `LoadFailed`, which is `Stopped` |
| AudioPlayer.PlayWhilePlayingStops | src/hooks/useAudioPlayer.ts:51-59 | `play` while playing synthesises nothing, clears the error and ends as `stop()` does, not playing |
| AudioPlayer.PlayWithoutKey | src/hooks/useAudioPlayer.ts:51-116 | without a key the call fails with "Text-to-speech is not configured", keeps the old audio and ends not loading |
| AudioPlayer.PlayOutcomes | src/hooks/useAudioPlayer.ts:66-116 | once synthesis is called, the old audio's URL is revoked; a failure shows a `SpeechError`'s message or the generic one and leaves no audio and nothing playing; a success stores the new audio, paused until it can play, sets `isPlaying` and clears the error; loading is over either way |
| AudioPlayer.StopNeedsAudio | src/hooks/useAudioPlayer.ts:44-49 | `stop()` clears `isPlaying` exactly when there is audio, and does nothing without it |
| AudioPlayer.VoiceChangeResets | src/hooks/useAudioPlayer.ts:22-31 | a voice change with audio present releases that audio and clears the playing, loading and error states |
| AudioPlayer.TransitionsKeepValid | src/hooks/useAudioPlayer.ts:22-117 | no operation or listener leaves the player claiming to play without audio |
| AudioPlayer.AudioPlayerHook.constructor | src/hooks/useAudioPlayer.ts:16-19 | not playing, not loading, no error, no audio |
| AudioPlayer.AudioPlayerHook.Stop | src/hooks/useAudioPlayer.ts:44-49 | the state becomes `Stopped` |
| AudioPlayer.AudioPlayerHook.Release | src/hooks/useAudioPlayer.ts:67-70 | the state becomes `Released`: the audio's URL is revoked and the audio dropped |
| AudioPlayer.AudioPlayerHook.Play | src/hooks/useAudioPlayer.ts:51-117 | synthesis is requested iff nothing plays and a key is configured, and the state becomes `Played` |
| AudioPlayer.AudioPlayerHook.OnVoiceChange | src/hooks/useAudioPlayer.ts:22-31 | the state becomes `VoiceChanged` |
| AudioPlayer.AudioPlayerHook.OnCanPlayThrough | src/hooks/useAudioPlayer.ts:81-87 | the audio starts, or a failed start shows "Failed to play audio. Please try again." and clears `isPlaying` |
| AudioPlayer.AudioPlayerHook.OnError | src/hooks/useAudioPlayer.ts:89-93 | "Failed to load audio. Please try again." is shown and `isPlaying` cleared |
| AudioPlayer.AudioPlayerHook.OnEnded | src/hooks/useAudioPlayer.ts:95-97 | `isPlaying` is cleared and nothing else changes |
| MusicFeed.PitchNamesDistinct | src/apps/msona/components/MusicFeed.tsx:150 | the twelve pitch names are pairwise distinct and none contains a space |
| MusicFeed.KeyNameReadsBack | src/apps/msona/components/MusicFeed.tsx:149-152 | a key name is the pitch name, a space and "Major" or "Minor", and both parts read back |
| MusicFeed.KeyNameInjective | src/apps/msona/components/MusicFeed.tsx:149-152 | for keys 0 to 11, equal names mean equal keys and modes of the same truthiness |
| MusicFeed.TimeSignatureReadsBack | src/apps/msona/components/MusicFeed.tsx:79 | a non-negative time signature is shown as its decimal digits and "/4", and the digits read back as the number |
| MusicFeed.TracksLoadedSpec | src/apps/msona/components/MusicFeed.tsx:39-56 | after a search loading is over and the features are kept; a success replaces the tracks and clears the error; a failure keeps the tracks and records its message |
| MusicFeed.SearchedTracksPlayable | src/apps/msona/components/MusicFeed.tsx:44-45 | after a successful search every track in the feed has a preview and the tracks run from most to least popular |
| MusicFeed.FeaturesLoadedSpec | src/apps/msona/components/MusicFeed.tsx:62-90 | loading features touches only that track: stored features are kept, a success stores the answer's key and time signature, a failure stores nothing, and the track ends not loading |
| MusicFeed.PendingLoadNotRepeated | src/apps/msona/components/MusicFeed.tsx:64-67 | while a request for a track is pending, opening its card again sends nothing |
| MusicFeed.FeaturesFetchedOnce | src/apps/msona/components/MusicFeed.tsx:64-89 | once features are stored they are never requested again; after a failure the next opening asks again |
| MusicFeed.RenderedCards | src/apps/msona/components/MusicFeed.tsx:105-145 | the cards list the displayed tracks in order, each marked favourite iff a stored favourite has its id and carrying the features stored for its id |
| MusicFeed.FavoritesViewMarked | src/apps/msona/components/MusicFeed.tsx:105-128 | in the favourites view every card is a complete stored favourite marked as one, and the view is empty iff no favourite is complete |
| MusicFeed.RenderedPrecedence | src/apps/msona/components/MusicFeed.tsx:92-120 | loading wins over everything, then a non-empty error; in the search view the quick picks show iff the query is blank |
| MusicFeed.Feed.constructor | src/apps/msona/components/MusicFeed.tsx:29-33 | no tracks, not loading, no error, no features |
| MusicFeed.Feed.LoadTracks | src/apps/msona/components/MusicFeed.tsx:35-60 | the catalog is searched iff the query is not blank after trimming, and then the feed and the client's session move as the search's outcome says; otherwise nothing changes |
| MusicFeed.Feed.Settle | src/apps/msona/components/MusicFeed.tsx:45-56 | once the search settles, the feed holds its tracks or its error message and stops loading, as `TracksLoaded` gives |
| MusicFeed.Feed.HandleLoadFeatures | src/apps/msona/components/MusicFeed.tsx:62-90 | features are requested iff none are stored or pending for the track, and then the feed and the client's session move as the fetch's answer says; otherwise nothing changes |
| SwipeGestures.ClassifySpec | src/hooks/useSwipeGestures.ts:60-79 | a handler fires iff the touch lasted at most the maximum time, travelled at least the minimum distance, and the handler for its direction was given; the direction is the sign of the travel |
| SwipeGestures.ClassifyMirrored | src/hooks/useSwipeGestures.ts:65-76 | mirroring a touch horizontally and exchanging the handlers mirrors the swipe |
| SwipeGestures.DefaultLeftSwipe | src/hooks/useSwipeGestures.ts:23-76 | with the defaults and a left handler, a touch is a left swipe iff it moved at least 50 pixels leftwards within 300 milliseconds |
| SwipeGestures.SwipeTracker.constructor | src/hooks/useSwipeGestures.ts:42-47 | no touch recorded, and the configuration given |
| SwipeGestures.SwipeTracker.HandleTouchStart | src/hooks/useSwipeGestures.ts:53-58 | the position and time of the touch are recorded |
| SwipeGestures.SwipeTracker.HandleTouchEnd | src/hooks/useSwipeGestures.ts:60-79 | without a recorded start nothing fires; otherwise the swipe is classified against the start, and the start is cleared |
| InfiniteScroll.LoadsMoreSpec | src/hooks/useInfiniteScroll.ts:37-47 | nothing is requested while loading or when there is no more; otherwise more is requested iff the bottom of the window is within the threshold of the bottom of the document |
| InfiniteScroll.LoadsMoreMonotone | src/hooks/useInfiniteScroll.ts:44 | scrolling further down never turns a trigger off |
| InfiniteScroll.BottomLoadsMore | src/hooks/useInfiniteScroll.ts:35-47 | with the default threshold of 200, reaching the bottom of the page requests more whenever more may be loaded |
| CookieConsent.LoadedSpec | src/hooks/useCookieConsent.ts:10-22 | the load gives "accepted" iff storage is readable and holds "true", and otherwise leaves the choice unknown, never "declined" |
| CookieConsent.AcceptRemembered | src/hooks/useCookieConsent.ts:10-31 | an acceptance that reached storage is accepted again on the next load, and the banner stays hidden |
| CookieConsent.AnswersHideBanner | src/hooks/useCookieConsent.ts:24-37 | accepting, even when storage fails, or declining hides the banner with that answer |
| CookieConsent.DeclineForgotten | src/hooks/useCookieConsent.ts:33-37 | a decline stores nothing, so the banner returns on the next load unless an acceptance was stored before |
| CookieConsent.Consent.constructor | src/hooks/useCookieConsent.ts:8 | the choice is unknown until the load runs |
| CookieConsent.Consent.Load | src/hooks/useCookieConsent.ts:10-22 | the state becomes `Loaded` |
| CookieConsent.Consent.Accept | src/hooks/useCookieConsent.ts:24-31 | the state becomes `Accepted` |
| CookieConsent.Consent.Decline | src/hooks/useCookieConsent.ts:33-37 | the state becomes `Declined` |
| FeedbackButton.StepsKeepValid | src/components/FeedbackButton.tsx:37-171 | every step keeps the question cursor on one of the three questions |
| FeedbackButton.RatedSpec | src/components/FeedbackButton.tsx:89-96 | a rating stores a score from 1 to the question's scale under its id, keeps the other answers, and moves the cursor on iff a question follows |
| FeedbackButton.TickedSpec | src/components/FeedbackButton.tsx:130-137 | ticking appends the option; unticking removes every occurrence of it and keeps the other options in order; ticking a new option and unticking it gives the options back |
| FeedbackButton.SubmitStartsCooldown | src/components/FeedbackButton.tsx:19-45 | submitting hides the button, closes the panel, forgets the answers and returns to the first question; no prompt is scheduled for 72 hours, and one is just after |
| FeedbackButton.DismissKeepsButton | src/components/FeedbackButton.tsx:19-69 | closing the panel restarts the cooldown but keeps the button, the answers and the current question |
| FeedbackButton.Feedback.constructor | src/components/FeedbackButton.tsx:13-17 | hidden, closed, the stored last prompt time, the first question, no answers |
| FeedbackButton.Feedback.ScheduleEffect | src/components/FeedbackButton.tsx:19-30 | a timer of 30 s is set iff feedback is enabled and more than 72 hours have passed since the last prompt |
| FeedbackButton.Feedback.OnTimer | src/components/FeedbackButton.tsx:24-26 | the button becomes visible and nothing else changes |
| FeedbackButton.Feedback.Open | src/components/FeedbackButton.tsx:202 | the panel opens and nothing else changes |
| FeedbackButton.Feedback.Rate | src/components/FeedbackButton.tsx:92-96 | the state becomes `Rated` |
| FeedbackButton.Feedback.Check | src/components/FeedbackButton.tsx:130-137 | the state becomes `Checked` |
| FeedbackButton.Feedback.Type | src/components/FeedbackButton.tsx:152 | the state becomes `Typed` |
| FeedbackButton.Feedback.Next | src/components/FeedbackButton.tsx:169-171 | the cursor moves on when a question follows, and the state is otherwise kept |
| FeedbackButton.Feedback.Submit | src/components/FeedbackButton.tsx:32-45 | the state becomes `Submitted` at the current time |
| FeedbackButton.Feedback.Dismiss | src/components/FeedbackButton.tsx:66-69 | the state becomes `Dismissed` at the current time |
| LogViewer.DistinctInOrder | src/components/LogViewer.tsx:17 | each category that occurs is listed, nothing else, and none twice |
| LogViewer.FirstIndex | src/components/LogViewer.tsx:17 | the position of the first occurrence of a value |
| LogViewer.DistinctFirstOccurrenceOrder | src/components/LogViewer.tsx:17 | the categories are listed in the order of their first occurrence in the log |
| LogViewer.CountDistinct | src/components/LogViewer.tsx:17 | there are never more categories than entries |
| LogViewer.CategoriesOf | src/components/LogViewer.tsx:17 | one category per entry, in order |
| LogViewer.ShownSpec | src/components/LogViewer.tsx:19-22 | the entries shown are exactly those matching both selections, in log order, and with both selections on "ALL" every entry is shown |
| LogViewer.CategoryNamedAllIsWildcard | src/components/LogViewer.tsx:19-22 | a category that is itself named "ALL" cannot be singled out: choosing it shows the entries of every category |
| LogViewer.Viewer.constructor | src/components/LogViewer.tsx:12-14 | closed, with both selections on "ALL" |
| LogViewer.Viewer.Rendered | src/components/LogViewer.tsx:16-57 | nothing is rendered outside development builds; otherwise the button, and the panel exactly while it is open, where the entries are the 50 newest log entries filtered by the selections (ShownSpec) and the categories are their distinct categories in first-occurrence order (DistinctFirstOccurrenceOrder), at most 50 of each |
| LogViewer.Viewer.Toggle | src/components/LogViewer.tsx:38 | the panel opens or closes and the selections are kept |
| LogViewer.Viewer.SelectLevel | src/components/LogViewer.tsx:68 | the level selection is taken and nothing else changes |
| LogViewer.Viewer.SelectCategory | src/components/LogViewer.tsx:82 | the category selection is taken and nothing else changes |
| InspirationGuide.BlockShape | src/components/InspirationGuide.tsx:24 | a quote's block is its title, content and author plus eight characters; it starts with the title, holds the content after the title's line break and quote mark, and ends with the author and a blank line |
| InspirationGuide.GuideTextAppend | src/components/InspirationGuide.tsx:23-25 | the text of two lists one after the other is the two texts joined |
| InspirationGuide.GuideTextLength | src/components/InspirationGuide.tsx:23-25 | the copied text is as long as all the parts plus eight characters per quote |
| InspirationGuide.BlockAt | src/components/InspirationGuide.tsx:23-25 | each quote's block sits after the blocks of the quotes before it and before those after it |
| InspirationGuide.Guide.constructor | src/components/InspirationGuide.tsx:14-15 | the quotes given and no copied mark |
| InspirationGuide.Guide.HandleCopyText | src/components/InspirationGuide.tsx:19-33 | for a non-empty list the guide text is written to the clipboard, and the copied mark is set iff the write succeeds |
| QuoteCard.TransformRequestSpec | src/components/QuoteCard.tsx:72 | the request opens with the fixed head and the quote's content, ends with the fixed instructions, carries the prompt just before them, and is seven characters longer than its parts |
| QuoteCard.TransformRequestInjective | src/components/QuoteCard.tsx:72 | two different prompts for one quote give two different requests |
| QuoteCard.ShareTextReadsBack | src/components/QuoteCard.tsx:150 | the shared text holds the content right after the opening quote mark and ends with the author, five characters longer than the two |
| QuoteCard.TransformSpec | src/components/QuoteCard.tsx:68-90 | loading is over afterwards; an error that is present and non-empty is shown, leaves the text, the last prompt and the expansion alone and reports nothing; otherwise the error is cleared, the text and prompt are kept, the card is expanded and the text is reported for this quote; nothing else changes |
| QuoteCard.TransformWithService | src/components/QuoteCard.tsx:72-84 | against the AI service, a transformation is reported iff one of the service's attempts succeeded, and then with the service's text; otherwise the service's error is shown |
| QuoteCard.PromptSubmittedSpec | src/components/QuoteCard.tsx:292-307 | an empty prompt changes nothing; any other is sent as typed, the input and the style are cleared whatever the answer, and a success remembers the prompt and reports the text |
| QuoteCard.LabelNamesSource | src/components/QuoteCard.tsx:122-236 | after a successful transformation the caption names what produced it: the drawn style for the wand button, the typed prompt for a custom one |
| QuoteCard.FailedStyleRelabels | src/components/QuoteCard.tsx:122-236 | because the style is set before the answer, a failed wand request after a successful custom prompt keeps the prompt's text but captions it with the new style |
| QuoteCard.Card.constructor | src/components/QuoteCard.tsx:32-41 | nothing copied, collapsed, empty prompt, not loading, no error, transformation shown, no style, no last prompt, no text |
| QuoteCard.Card.HandleTransform | src/components/QuoteCard.tsx:68-90 | the request is built from the quote and the prompt and sent to the AI service; the state and the success call are those of `Transform` with the service's outcome |
| QuoteCard.Card.TransformWithStyle | src/components/QuoteCard.tsx:121-129 | the state and the success call are those of `StyleTransformed` for the drawn style |
| QuoteCard.Card.SetPrompt | src/components/QuoteCard.tsx:282 | the prompt input takes the text and nothing else changes |
| QuoteCard.Card.SubmitPrompt | src/components/QuoteCard.tsx:292-307 | the state and the success call are those of `PromptSubmitted` |
| QuoteCard.Card.ToggleShowTransform | src/components/QuoteCard.tsx:211 | the transformation is hidden or shown and nothing else changes |
| QuoteCard.Card.HandleShare | src/components/QuoteCard.tsx:44-150 | the quote's share text is shared through the same channels as a track, and the copied mark is set iff a clipboard write succeeded |
| QuoteCard.Card.HandleShareTransformed | src/components/QuoteCard.tsx:44-250 | the transformed text is shared, and its own copied mark is set iff a clipboard write succeeded |

## Left out

- Rendering: markup, class strings, icons, themes, dark mode and layout. Only what decides the content shown is modelled: headings, which cards are listed, the labels and the view that is chosen.
- Logging calls: the `logger.log` and `console` calls made by the services and components are side effects with no bearing on results. They are not modelled. `LogService` itself is.
- Real time: the clock is a parameter, and waits between attempts are recorded as delay values, not elapsed. Network latency is not modelled. The "copied" marks of `MusicCard`, `QuoteCard` and `InspirationGuide` are reset by a 2000 ms timer; that reset is not a step of the model. The feedback button's 30-second timer is the separate step `FeedbackButton.Feedback.OnTimer`.
- Concurrency: overlapping asynchronous calls are not modelled, and neither are the intermediate React states while a request is pending. Each handler runs to completion as one step. Races on the cached Spotify token are also out. So are listeners of an older audio element that fire after a newer one was created: the model's listeners act on the current element.
- Unmount cleanups: the effects that pause and release audio on unmount in `AudioContext.tsx` and `useAudioPlayer.ts`, and the removal of event listeners in the hooks, belong to component teardown.
- Floating point: audio volume and swipe coordinates are exact `real`s. The audio-feature percentages, the `Math.round(tempo)` of the feature view, the mood visualiser and the volume slider are display arithmetic and are left out.
- Randomness: the style drawn by the wand button, the fallback category, the fallback shuffle and its ids, and the quick-pick shuffle are parameters. No random source is modelled.
- Request encoding: requests are identified by their kind and arguments. The exact URLs, `encodeURIComponent` of the query, form bodies and Basic-auth encoding are not modelled.
- Other Spotify endpoints: `getArtist`, `getAlbum`, `getArtistTopTracks` and `getRecommendations` are thin wrappers around the same fetch and are not used by the modelled screens.
- JsText.ToLower: maps ASCII letters only. Non-ASCII case mapping is not modelled.
- JsText.ToUpper: maps ASCII letters only, like `ToLower`.
- JsText.ParseInt: reads decimal digits only. `parseInt` without a radix would read a `0x` prefix as hexadecimal, which a Retry-After header does not carry.
- JSON shapes: fields the code reads are modelled as present strings and numbers or as absent. Values of other JSON types in those fields are not modelled.
- Object URLs: `URL.createObjectURL` is not modelled. The URL of synthesised speech is the outcome of the synthesis, and revoking it is recorded in `revoked`.
- The inspiration guide's PDF download and its renderer (`InspirationGuidePDF`) are foreign rendering.
- QuoteCard.Card.HandleTransform: the `catch` branch of `handleTransform` is not modelled. `generateAIResponse` never rejects and building the request cannot throw, so that branch cannot run.
- QuoteCard.Card.SubmitPrompt: the send button's `disabled={isLoading}` has no counterpart. Transformations complete in one step, so no submission can happen while one is loading, and the Enter key path has no such guard anyway.
- QuoteCard.Card.HandleTransform: `onTransformSuccess` is optional. The model returns the call as `notice` and leaves it to the caller. `LuminaryApp.Luminary.HandleTransformSuccess` is what Luminary does with it.
- AudioButton and AITransformModal are not part of this model. The first only wires `useAudioPlayer` to a button. The second calls `generateAIResponse` with four arguments, which does not match the service's signature.
- Storage wrappers: `useLocalStorage`, `useDarkMode` and the other browser hooks are not modelled. What storage holds enters as a constructor parameter, and the favourites fields stand for the stored lists.
- MusicFeed.TracksLoaded: every rejection of the search is an `Error` in this model, so the fallback message "Failed to load tracks" for a non-`Error` rejection does not arise.
- MSonaHeader's submit guard is form wiring. It repeats the blank-query rule that `MusicFeed.Feed.LoadTracks` models.

## Findings

| source | as written | input that shows it | evidently intended | confidence | as-written member | corrected member |
|---|---|---|---|---|---|---|
| src/services/categoryService.ts:46 | `categoryIcons[normalizedCategory] \|\| default` indexes a plain object, so a name that is an inherited member of `Object.prototype` is found | the category "constructor", in any letter case, yields the `Object` constructor function instead of an icon entry | names that are not keys of the table get the default light bulb | not executed | CategoryService.GetCategoryIconAsWritten, CategoryService.ConstructorCategoryNotAnIcon | CategoryService.GetCategoryIcon, CategoryService.UnknownNameDefault |
