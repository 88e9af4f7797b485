/** The quote application's own state: the fetched quotes, the favourite
    quotes kept in browser storage (a favourite is added at the end of the
    list), the favourites view, and the rewritten texts of quotes. */
module LuminaryApp {
  import opened Outcomes
  import opened Platform
  import opened JsList
  import opened QuoteTypes
  import InfiniteScroll

  const RefreshFailedMessage: string := "Failed to fetch quotes"
  const FeedHeading: string := "Discover Wisdom"
  const FavoritesHeading: string := "Your Favorites"
  const RefreshCount: int := 10

  datatype LuminaryState = LuminaryState(
    quotes: seq<Quote>,
    loading: bool,
    error: Option<string>,
    favorites: seq<Quote>,
    showFavorites: bool,
    transformed: map<string, string>)

  /** The state on mount; `stored` is what browser storage held under
      `favorites`. */
  function Initial(stored: seq<Quote>): LuminaryState {
    LuminaryState([], false, None, stored, false, map[])
  }

  /** `handleRefresh` goes past its guard. */
  predicate RefreshRuns(s: LuminaryState) {
    !s.loading && !s.showFavorites
  }

  /** The message recorded for a rejected fetch: an `Error`'s message, or
      the fixed text for anything else (`None`). */
  function RefreshFailure(thrown: Option<Failure>): string {
    match thrown
    case Some(f) => f.message
    case None => RefreshFailedMessage
  }

  /** `handleRefresh` once `fetchQuotes(10)` has settled with `fetched`. */
  function Refreshed(s: LuminaryState, fetched: Result<seq<Quote>, Option<Failure>>): LuminaryState {
    if !RefreshRuns(s) then s
    else
      match fetched
      case Ok(qs) => s.(quotes := qs, error := None, loading := false)
      case Err(thrown) => s.(error := Some(RefreshFailure(thrown)), loading := false)
  }

  /** A refresh while loading or in the favourites view does nothing;
      otherwise it ends with loading over, replaces the quotes and clears
      the error on success, keeps the quotes and records the message on
      failure, and touches nothing else. */
  lemma RefreshSpec(s: LuminaryState, fetched: Result<seq<Quote>, Option<Failure>>)
    ensures !RefreshRuns(s) ==> Refreshed(s, fetched) == s
    ensures RefreshRuns(s) ==>
      var r := Refreshed(s, fetched);
      !r.loading && r.favorites == s.favorites && r.showFavorites == s.showFavorites
      && r.transformed == s.transformed
      && (fetched.Ok? ==> r.quotes == fetched.value && r.error.None?)
      && (fetched.Err? ==>
            (r.quotes == s.quotes
             && r.error == Some(if fetched.error.Some? then fetched.error.value.message else RefreshFailedMessage)))
  {
  }

  /** Refreshing never leaves the feed stuck: after a refresh in the feed
      view the next one runs again. */
  lemma RefreshNeverSticks(s: LuminaryState, first: Result<seq<Quote>, Option<Failure>>)
    requires RefreshRuns(s)
    ensures RefreshRuns(Refreshed(s, first))
  {
  }

  /** The scroll trigger is wired to the refresh with `isLoading` the
      loading flag and `hasMore` the feed view: it fires only when a
      refresh would run, and near the bottom of the feed it always does. */
  lemma ScrollRefreshes(s: LuminaryState, v: InfiniteScroll.Viewport)
    ensures InfiniteScroll.LoadsMore(s.loading, !s.showFavorites, v, InfiniteScroll.DefaultThreshold)
      <==> RefreshRuns(s) && InfiniteScroll.RemainingBelow(v) < InfiniteScroll.DefaultThreshold
  {
  }

  /** `quotes.find(q => q.id === id)`. */
  function FindById(quotes: seq<Quote>, id: string): (r: Option<Quote>)
    ensures r.Some? ==> r.value in quotes && r.value.id == id
    ensures r.None? <==> forall i :: 0 <= i < |quotes| ==> quotes[i].id != id
  {
    if quotes == [] then None
    else if quotes[0].id == id then Some(quotes[0])
    else FindById(quotes[1..], id)
  }

  /** The quote found is the first one with the id. */
  lemma {:induction false} FindByIdFirst(quotes: seq<Quote>, id: string)
    requires FindById(quotes, id).Some?
    ensures exists i :: (0 <= i < |quotes| && quotes[i] == FindById(quotes, id).value
                         && forall j :: 0 <= j < i ==> quotes[j].id != id)
  {
    if quotes[0].id != id {
      FindByIdFirst(quotes[1..], id);
      var i :| 0 <= i < |quotes[1..]| && quotes[1..][i] == FindById(quotes, id).value
        && forall j :: 0 <= j < i ==> quotes[1..][j].id != id;
      assert quotes[i + 1] == FindById(quotes, id).value;
      assert forall j :: 0 <= j < i + 1 ==> quotes[j].id != id by {
        forall j | 0 <= j < i + 1 ensures quotes[j].id != id {
          if j > 0 {
            assert quotes[j] == quotes[1..][j - 1];
          }
        }
      }
    } else {
      assert quotes[0] == FindById(quotes, id).value;
    }
  }

  function QuoteHasId(id: string): Quote -> bool {
    (q: Quote) => q.id == id
  }

  function QuoteOtherId(id: string): Quote -> bool {
    (q: Quote) => q.id != id
  }

  /** The favourites after `toggleFavorite(id)`. */
  function ToggledFavorites(quotes: seq<Quote>, favorites: seq<Quote>, id: string): seq<Quote> {
    match FindById(quotes, id)
    case None => favorites
    case Some(q) =>
      if AnyMatch(favorites, QuoteHasId(id)) then Filter(favorites, QuoteOtherId(id))
      else favorites + [q]
  }

  /** An id that no current quote has leaves the favourites as they are,
      even in the favourites view; a favourite already present is removed,
      with every entry of that id and nothing else; any other quote is
      stored at the end. */
  lemma ToggledFavoritesSpec(quotes: seq<Quote>, favorites: seq<Quote>, id: string)
    ensures (forall i :: 0 <= i < |quotes| ==> quotes[i].id != id) ==> ToggledFavorites(quotes, favorites, id) == favorites
    ensures (exists i :: 0 <= i < |quotes| && quotes[i].id == id) && (exists j :: 0 <= j < |favorites| && favorites[j].id == id) ==>
      var r := ToggledFavorites(quotes, favorites, id);
      (forall q :: q in r <==> q in favorites && q.id != id) && IsSubsequence(r, favorites)
    ensures (exists i :: 0 <= i < |quotes| && quotes[i].id == id) && (forall j :: 0 <= j < |favorites| ==> favorites[j].id != id) ==>
      var r := ToggledFavorites(quotes, favorites, id);
      |r| == |favorites| + 1 && r[..|favorites|] == favorites && r[|favorites|] in quotes && r[|favorites|].id == id
  {
    if exists i :: 0 <= i < |quotes| && quotes[i].id == id {
      if exists j :: 0 <= j < |favorites| && favorites[j].id == id {
        ToggleRemovesFavorite(quotes, favorites, id);
      } else {
        ToggleAddsFavorite(quotes, favorites, id);
      }
    }
  }

  lemma ToggleRemovesFavorite(quotes: seq<Quote>, favorites: seq<Quote>, id: string)
    requires exists i :: 0 <= i < |quotes| && quotes[i].id == id
    requires exists j :: 0 <= j < |favorites| && favorites[j].id == id
    ensures var r := ToggledFavorites(quotes, favorites, id);
      (forall q :: q in r <==> q in favorites && q.id != id) && IsSubsequence(r, favorites)
  {
    var j :| 0 <= j < |favorites| && favorites[j].id == id;
    assert QuoteHasId(id)(favorites[j]);
    assert ToggledFavorites(quotes, favorites, id) == Filter(favorites, QuoteOtherId(id));
    FilterSpec(favorites, QuoteOtherId(id));
  }

  lemma ToggleAddsFavorite(quotes: seq<Quote>, favorites: seq<Quote>, id: string)
    requires exists i :: 0 <= i < |quotes| && quotes[i].id == id
    requires forall j :: 0 <= j < |favorites| ==> favorites[j].id != id
    ensures var r := ToggledFavorites(quotes, favorites, id);
      |r| == |favorites| + 1 && r[..|favorites|] == favorites && r[|favorites|] in quotes && r[|favorites|].id == id
  {
    var r := ToggledFavorites(quotes, favorites, id);
    assert r == favorites + [FindById(quotes, id).value];
    assert r[..|favorites|] == favorites;
  }

  /** Liking a quote that is not a favourite and liking it again gives the
      favourites back. */
  lemma ToggleTwiceRestores(quotes: seq<Quote>, favorites: seq<Quote>, id: string)
    requires exists i :: 0 <= i < |quotes| && quotes[i].id == id
    requires forall j :: 0 <= j < |favorites| ==> favorites[j].id != id
    ensures ToggledFavorites(quotes, ToggledFavorites(quotes, favorites, id), id) == favorites
  {
    var q := FindById(quotes, id).value;
    var added := favorites + [q];
    assert ToggledFavorites(quotes, favorites, id) == added;
    assert QuoteHasId(id)(added[|favorites|]);
    FilterKeepsAll(favorites, QuoteOtherId(id));
    FilterAppend(favorites, [q], QuoteOtherId(id));
    assert Filter([q], QuoteOtherId(id)) == [];
  }

  /** `handleTransformSuccess(id, text)`. */
  function TransformRecorded(s: LuminaryState, id: string, text: string): LuminaryState {
    s.(transformed := s.transformed[id := text])
  }

  /** The rewritten text is stored for that quote alone. */
  lemma TransformRecordedSpec(s: LuminaryState, id: string, text: string)
    ensures var r := TransformRecorded(s, id, text);
      id in r.transformed && r.transformed[id] == text
      && (forall k :: k != id ==> (k in r.transformed <==> k in s.transformed))
      && (forall k :: k != id && k in s.transformed ==> r.transformed[k] == s.transformed[k])
      && r.(transformed := s.transformed) == s
  {
  }

  /** `!showFavorites && index === 0 && quotes.length > 1`. */
  predicate IsNew(s: LuminaryState, index: int) {
    !s.showFavorites && index == 0 && |s.quotes| > 1
  }

  /** One quote card: the quote, whether it is liked, and whether it is
      marked new. */
  datatype QuoteCardView = QuoteCardView(quote: Quote, isLiked: bool, isNew: bool)

  /** What the page shows below the header. */
  datatype LuminaryView = LuminaryView(
    heading: string,
    error: Option<string>,
    loadingShown: bool,
    cards: seq<QuoteCardView>,
    noFavoritesShown: bool)

  /** The quotes listed: the favourites in the favourites view, the fetched
      quotes otherwise. */
  function Listed(s: LuminaryState): seq<Quote> {
    if s.showFavorites then s.favorites else s.quotes
  }

  /** A non-empty error is shown in place of the cards. */
  predicate ErrorShown(s: LuminaryState) {
    s.error.Some? && s.error.value != ""
  }

  function Cards(s: LuminaryState, listed: seq<Quote>): seq<QuoteCardView> {
    seq(|listed|, (i: int) requires 0 <= i < |listed| =>
      QuoteCardView(listed[i], AnyMatch(s.favorites, QuoteHasId(listed[i].id)), IsNew(s, i)))
  }

  function Rendered(s: LuminaryState): LuminaryView {
    var listed := Listed(s);
    LuminaryView(
      if s.showFavorites then FavoritesHeading else FeedHeading,
      if ErrorShown(s) then s.error else None,
      s.loading && |s.quotes| == 0,
      if ErrorShown(s) then [] else Cards(s, listed),
      !s.loading && !ErrorShown(s) && s.showFavorites && |s.favorites| == 0)
  }

  /** Without an error the cards list the quotes of the current view in
      order, a card is liked exactly when a favourite has its id, and at
      most the first card of a feed of two or more quotes is new; in the
      favourites view every card is liked and none is new. */
  lemma RenderedSpec(s: LuminaryState)
    ensures var v := Rendered(s);
      (ErrorShown(s) ==> v.cards == [])
      && (!ErrorShown(s) ==>
            (|v.cards| == |Listed(s)| && forall i :: 0 <= i < |v.cards| ==> v.cards[i].quote == Listed(s)[i]))
      && (forall i :: 0 <= i < |v.cards| ==>
            (v.cards[i].isLiked <==> exists j :: 0 <= j < |s.favorites| && s.favorites[j].id == v.cards[i].quote.id))
      && (forall i :: 0 <= i < |v.cards| && v.cards[i].isNew ==> i == 0 && !s.showFavorites && |s.quotes| > 1)
      && (s.showFavorites ==> forall i :: 0 <= i < |v.cards| ==> v.cards[i].isLiked && !v.cards[i].isNew)
  {
    var v := Rendered(s);
    forall i | 0 <= i < |v.cards|
      ensures v.cards[i].isLiked <==> exists j :: 0 <= j < |s.favorites| && s.favorites[j].id == v.cards[i].quote.id
    {
      if v.cards[i].isLiked {
        var j :| 0 <= j < |s.favorites| && QuoteHasId(v.cards[i].quote.id)(s.favorites[j]);
      }
    }
    if s.showFavorites {
      forall i | 0 <= i < |v.cards| ensures v.cards[i].isLiked {
        assert QuoteHasId(v.cards[i].quote.id)(s.favorites[i]);
      }
    }
  }

  /** `LuminaryApp`'s state. */
  class Luminary {
    var quotes: seq<Quote>
    var loading: bool
    var error: Option<string>
    var favoriteQuotes: seq<Quote>
    var showFavorites: bool
    var transformedQuotes: map<string, string>

    function State(): LuminaryState
      reads this
    {
      LuminaryState(quotes, loading, error, favoriteQuotes, showFavorites, transformedQuotes)
    }

    constructor (stored: seq<Quote>)
      ensures State() == Initial(stored)
    {
      quotes, loading, error := [], false, None;
      favoriteQuotes, showFavorites, transformedQuotes := stored, false, map[];
    }

    /** `handleRefresh`; `requested` tells whether `fetchQuotes(10)` was
        called, and `fetched` is how it settles. */
    method HandleRefresh(fetched: Result<seq<Quote>, Option<Failure>>) returns (requested: bool)
      modifies this
      ensures requested <==> RefreshRuns(old(State()))
      ensures State() == Refreshed(old(State()), fetched)
    {
      if loading || showFavorites {
        return false;
      }
      requested := true;
      loading := true;
      error := None;
      match fetched {
        case Ok(qs) =>
          quotes := qs;
        case Err(thrown) =>
          error := Some(RefreshFailure(thrown));
      }
      loading := false;
    }

    /** The mount effect: the first refresh runs when nothing is loaded. */
    method Mount(fetched: Result<seq<Quote>, Option<Failure>>) returns (requested: bool)
      modifies this
      ensures requested <==> |old(quotes)| == 0 && !old(loading) && old(error).None? && !old(showFavorites)
      ensures State() == if |old(quotes)| == 0 && !old(loading) && old(error).None? then Refreshed(old(State()), fetched) else old(State())
    {
      requested := false;
      if |quotes| == 0 && !loading && error.None? {
        requested := HandleRefresh(fetched);
      }
    }

    /** `toggleFavorite(id)`. */
    method ToggleFavorite(id: string)
      modifies this
      ensures State() == old(State()).(favorites := ToggledFavorites(old(quotes), old(favoriteQuotes), id))
    {
      var quote := FindById(quotes, id);
      if quote.None? {
        return;
      }
      if AnyMatch(favoriteQuotes, QuoteHasId(id)) {
        favoriteQuotes := Filter(favoriteQuotes, QuoteOtherId(id));
      } else {
        favoriteQuotes := favoriteQuotes + [quote.value];
      }
    }

    /** `handleTransformSuccess(id, text)`. */
    method HandleTransformSuccess(id: string, text: string)
      modifies this
      ensures State() == TransformRecorded(old(State()), id, text)
    {
      transformedQuotes := transformedQuotes[id := text];
    }

    /** The header's favourites button. */
    method ToggleFavoritesView()
      modifies this
      ensures State() == old(State()).(showFavorites := !old(showFavorites))
    {
      showFavorites := !showFavorites;
    }
  }
}
