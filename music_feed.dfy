/** The music feed: it searches the catalog when the query changes, loads a
    track's audio features the first time its card is opened, and chooses
    what to show (loading cards, an error, the quick picks, an empty
    message, or one card per track). */
module MusicFeed {
  import opened Outcomes
  import opened Platform
  import opened JsText
  import opened JsList
  import opened SpotifyTypes
  import opened SpotifyService
  import opened MSonaApp

  /** The twelve pitch classes, indexed by the catalog's `key`. */
  const PitchNames: seq<string> := [
    "C", "C\U{266F}", "D", "D\U{266F}", "E", "F",
    "F\U{266F}", "G", "G\U{266F}", "A", "A\U{266F}", "B"
  ]

  const NoFavoritesMessage: string := "No favorite tracks yet"
  const NoTracksMessage: string := "No tracks found. Please try a different search."

  /** `keys[key]`: an index outside the table reads `undefined`. */
  function PitchName(key: int): string {
    if 0 <= key < |PitchNames| then PitchNames[key] else "undefined"
  }

  /** `mode ? 'Major' : 'Minor'`. */
  function ModeName(mode: int): string {
    if mode != 0 then "Major" else "Minor"
  }

  /** `getKeyName(key, mode)`. */
  function KeyName(key: int, mode: int): string {
    PitchName(key) + " " + ModeName(mode)
  }

  /** The part of the stored features the card shows as text. */
  datatype FeatureView = FeatureView(key: string, timeSignature: string)

  /** The features stored for an answer: an answer without feature fields
      reads `undefined` for each of them. */
  function FeatureViewOf(p: Payload): FeatureView {
    match p
    case Features(f) => FeatureView(KeyName(f.key, f.mode), IntToString(f.timeSignature) + "/4")
    case _ => FeatureView(PitchName(-1) + " " + ModeName(0), "undefined/4")
  }

  /** The names of the pitch classes are pairwise distinct and none holds a
      space. */
  lemma PitchNamesDistinct()
    ensures forall i, j :: 0 <= i < j < |PitchNames| ==> PitchNames[i] != PitchNames[j]
    ensures forall i, k :: 0 <= i < |PitchNames| && 0 <= k < |PitchNames[i]| ==> PitchNames[i][k] != ' '
  {
  }

  /** A key name reads back: it ends with the mode word, and what comes
      before the space is the pitch, so different keys or modes in the
      catalog's range give different names. */
  lemma KeyNameReadsBack(key: int, mode: int)
    ensures var name := KeyName(key, mode);
      |name| >= 7 && name[|name| - 6] == ' '
      && name[|name| - 5..] == ModeName(mode)
      && name[..|name| - 6] == PitchName(key)
  {
    var name := KeyName(key, mode);
    assert |ModeName(mode)| == 5;
    assert name == PitchName(key) + " " + ModeName(mode);
  }

  lemma KeyNameInjective(k1: int, m1: int, k2: int, m2: int)
    requires 0 <= k1 < 12 && 0 <= k2 < 12
    requires KeyName(k1, m1) == KeyName(k2, m2)
    ensures k1 == k2 && (m1 == 0 <==> m2 == 0)
  {
    KeyNameReadsBack(k1, m1);
    KeyNameReadsBack(k2, m2);
    PitchNamesDistinct();
  }

  /** A non-negative time signature is shown as its decimal digits and
      "/4", and the digits read back as the number. */
  lemma TimeSignatureReadsBack(f: FeatureData)
    requires f.timeSignature >= 0
    ensures var t := FeatureViewOf(Features(f)).timeSignature;
      |t| >= 3 && t[|t| - 2..] == "/4"
      && (forall i :: 0 <= i < |t| - 2 ==> IsDigit(t[i]))
      && ParseDigits(t[..|t| - 2]) == f.timeSignature
  {
    var d := NatToString(f.timeSignature);
    var t := FeatureViewOf(Features(f)).timeSignature;
    assert t == d + "/4";
    assert t[..|t| - 2] == d;
    NatToStringRoundTrip(f.timeSignature);
  }

  /** The feed's own state. */
  datatype FeedState = FeedState(
    tracks: seq<Track>,
    loading: bool,
    error: Option<string>,
    trackFeatures: map<string, FeatureView>,
    loadingFeatures: map<string, bool>)

  const Initial: FeedState := FeedState([], false, None, map[], map[])

  /** `searchQuery?.trim()` is truthy. */
  predicate SearchRuns(query: Option<string>) {
    query.Some? && Trim(query.value) != ""
  }

  /** The state once `loadTracks` has settled with the search's `results`:
      a success replaces the tracks, a failure keeps them and records the
      message; loading is over either way. */
  function TracksLoaded(s: FeedState, results: Result<seq<Track>, Failure>): FeedState {
    match results
    case Ok(ts) => s.(tracks := ts, error := None, loading := false)
    case Err(f) => s.(error := Some(f.message), loading := false)
  }

  /** After a search nothing is loading, the features are kept, and the
      tracks and the error are those of the outcome. */
  lemma TracksLoadedSpec(s: FeedState, results: Result<seq<Track>, Failure>)
    ensures var r := TracksLoaded(s, results);
      !r.loading && r.trackFeatures == s.trackFeatures && r.loadingFeatures == s.loadingFeatures
      && (r.error.None? <==> results.Ok?)
      && (results.Ok? ==> r.tracks == results.value)
      && (results.Err? ==> r.tracks == s.tracks && r.error == Some(results.error.message))
  {
  }

  /** After a successful search every track in the feed has a preview, and
      they are ordered from most to least popular. */
  lemma SearchedTracksPlayable(s: FeedState, session: Session, net: Network, query: string)
    requires SearchOutcome(session, net, query).result.Ok?
    ensures var r := TracksLoaded(s, SearchOutcome(session, net, query).result);
      ByPopularity(r.tracks) && forall t :: t in r.tracks ==> HasPreview(t)
  {
    SearchOutcomeSpec(session, net, query);
  }

  /** `loadingFeatures[id] || trackFeatures[id]` is false: a stored entry is
      an object, hence truthy. */
  predicate FeaturesWanted(s: FeedState, id: string) {
    !(id in s.loadingFeatures && s.loadingFeatures[id]) && id !in s.trackFeatures
  }

  /** The request has been sent and not yet answered. */
  function FeaturesRequested(s: FeedState, id: string): FeedState {
    s.(loadingFeatures := s.loadingFeatures[id := true])
  }

  /** The answer has come: an answer is stored, a thrown error is only
      logged; either way the track is no longer loading. */
  function FeaturesSettled(s: FeedState, id: string, fetched: Result<Payload, Failure>): FeedState {
    var features := if fetched.Ok? then s.trackFeatures[id := FeatureViewOf(fetched.value)] else s.trackFeatures;
    s.(trackFeatures := features, loadingFeatures := s.loadingFeatures[id := false])
  }

  /** `handleLoadFeatures(id)` run to its end. */
  function FeaturesLoaded(s: FeedState, id: string, fetched: Result<Payload, Failure>): FeedState {
    if FeaturesWanted(s, id) then FeaturesSettled(FeaturesRequested(s, id), id, fetched) else s
  }

  /** Loading features touches only that track's entries: features already
      stored are kept, a success adds the answer's, and the track is no
      longer loading. */
  lemma FeaturesLoadedSpec(s: FeedState, id: string, fetched: Result<Payload, Failure>)
    requires FeaturesWanted(s, id)
    ensures var r := FeaturesLoaded(s, id, fetched);
      r.tracks == s.tracks && r.loading == s.loading && r.error == s.error
      && r.loadingFeatures == s.loadingFeatures[id := false]
      && (forall k :: k in s.trackFeatures ==> k in r.trackFeatures && r.trackFeatures[k] == s.trackFeatures[k])
      && (fetched.Ok? ==> r.trackFeatures == s.trackFeatures[id := FeatureViewOf(fetched.value)])
      && (fetched.Err? ==> r.trackFeatures == s.trackFeatures)
  {
  }

  /** While a request for a track is pending, opening its card again sends
      nothing. */
  lemma PendingLoadNotRepeated(s: FeedState, id: string, fetched: Result<Payload, Failure>)
    ensures !FeaturesWanted(FeaturesRequested(s, id), id)
    ensures FeaturesLoaded(FeaturesRequested(s, id), id, fetched) == FeaturesRequested(s, id)
  {
  }

  /** Once features are stored they are never requested again; after a
      failure the next opening tries again. */
  lemma FeaturesFetchedOnce(s: FeedState, id: string, p: Payload, f: Failure, next: Result<Payload, Failure>)
    requires FeaturesWanted(s, id)
    ensures var r := FeaturesLoaded(s, id, Ok(p));
      !FeaturesWanted(r, id) && FeaturesLoaded(r, id, next) == r
    ensures FeaturesWanted(FeaturesLoaded(s, id, Err(f)), id)
  {
  }

  /** One card: its track, whether it is marked favourite, and the features
      stored for it. */
  datatype CardView = CardView(track: Track, isFavorite: bool, features: Option<FeatureView>)

  datatype FeedView =
    | LoadingCards
    | ErrorMessage(message: string)
    | QuickPicks
    | Empty(message: string)
    | Cards(cards: seq<CardView>)

  function FeaturesFor(features: map<string, FeatureView>, id: string): Option<FeatureView> {
    if id in features then Some(features[id]) else None
  }

  function CardsOf(displayed: seq<Track>, favorites: seq<Track>, features: map<string, FeatureView>): seq<CardView> {
    seq(|displayed|, (i: int) requires 0 <= i < |displayed| =>
      CardView(displayed[i], AnyMatch(favorites, HasId(displayed[i].id)), FeaturesFor(features, displayed[i].id)))
  }

  /** The tracks the feed lists: the complete favourites, or the search
      results. */
  function Displayed(s: FeedState, showFavorites: bool, favorites: seq<Track>): seq<Track> {
    if showFavorites then ValidFavorites(favorites) else s.tracks
  }

  /** What the feed renders. */
  function Rendered(s: FeedState, query: Option<string>, showFavorites: bool, favorites: seq<Track>): FeedView {
    if s.loading then LoadingCards
    else if s.error.Some? && s.error.value != "" then ErrorMessage(s.error.value)
    else if !SearchRuns(query) && !showFavorites then QuickPicks
    else if Displayed(s, showFavorites, favorites) == [] then
      Empty(if showFavorites then NoFavoritesMessage else NoTracksMessage)
    else Cards(CardsOf(Displayed(s, showFavorites, favorites), favorites, s.trackFeatures))
  }

  /** The cards list the displayed tracks in order, each marked favourite
      exactly when a stored favourite has its id and carrying the features
      stored for its id. */
  lemma RenderedCards(s: FeedState, query: Option<string>, showFavorites: bool, favorites: seq<Track>)
    requires Rendered(s, query, showFavorites, favorites).Cards?
    ensures var cs := Rendered(s, query, showFavorites, favorites).cards;
      var shown := Displayed(s, showFavorites, favorites);
      |cs| == |shown| > 0
      && (forall i :: 0 <= i < |cs| ==> cs[i].track == shown[i])
      && (forall i :: 0 <= i < |cs| ==>
            (cs[i].isFavorite <==> exists j :: 0 <= j < |favorites| && favorites[j].id == shown[i].id))
      && (forall i :: 0 <= i < |cs| ==> (cs[i].features.Some? <==> shown[i].id in s.trackFeatures))
  {
    var cs := Rendered(s, query, showFavorites, favorites).cards;
    var shown := Displayed(s, showFavorites, favorites);
    forall i | 0 <= i < |cs|
      ensures cs[i].isFavorite <==> exists j :: 0 <= j < |favorites| && favorites[j].id == shown[i].id
    {
      if cs[i].isFavorite {
        var j :| 0 <= j < |favorites| && HasId(shown[i].id)(favorites[j]);
      }
    }
  }

  /** In the favourites view every card is a complete favourite and is
      marked as one; the view is empty exactly when no favourite is
      complete. */
  lemma FavoritesViewMarked(s: FeedState, query: Option<string>, favorites: seq<Track>)
    requires !s.loading && (s.error.None? || s.error.value == "")
    ensures Rendered(s, query, true, favorites) == Empty(NoFavoritesMessage) <==> ValidFavorites(favorites) == []
    ensures Rendered(s, query, true, favorites).Cards? ==>
      var cs := Rendered(s, query, true, favorites).cards;
      forall i :: 0 <= i < |cs| ==> cs[i].isFavorite && IsCompleteTrack(cs[i].track) && cs[i].track in favorites
  {
    ValidFavoritesSpec(favorites);
    if Rendered(s, query, true, favorites).Cards? {
      var cs := Rendered(s, query, true, favorites).cards;
      var shown := ValidFavorites(favorites);
      forall i | 0 <= i < |cs|
        ensures cs[i].isFavorite && IsCompleteTrack(cs[i].track) && cs[i].track in favorites
      {
        assert cs[i].track == shown[i];
        assert shown[i] in shown;
        var j :| 0 <= j < |favorites| && favorites[j] == shown[i];
        assert HasId(shown[i].id)(favorites[j]);
      }
    }
  }

  /** Without a query the search view shows the quick picks; loading and a
      non-empty error take precedence over everything else. */
  lemma RenderedPrecedence(s: FeedState, query: Option<string>, showFavorites: bool, favorites: seq<Track>)
    ensures s.loading ==> Rendered(s, query, showFavorites, favorites) == LoadingCards
    ensures !s.loading && s.error.Some? && s.error.value != "" ==>
      Rendered(s, query, showFavorites, favorites) == ErrorMessage(s.error.value)
    ensures !s.loading && (s.error.None? || s.error.value == "") && !showFavorites ==>
      (Rendered(s, query, false, favorites) == QuickPicks <==> !SearchRuns(query))
  {
  }

  /** The state of a mounted feed. */
  class Feed {
    var tracks: seq<Track>
    var loading: bool
    var error: Option<string>
    var trackFeatures: map<string, FeatureView>
    var loadingFeatures: map<string, bool>

    function State(): FeedState
      reads this
    {
      FeedState(tracks, loading, error, trackFeatures, loadingFeatures)
    }

    constructor ()
      ensures State() == Initial
    {
      tracks, loading, error, trackFeatures, loadingFeatures := [], false, None, map[], map[];
    }

    /** `loadTracks`, run when the query changes; `searched` tells whether
        the catalog was asked. */
    method LoadTracks(query: Option<string>, client: SpotifyClient) returns (searched: bool)
      modifies this, client
      ensures searched <==> SearchRuns(query)
      ensures !searched ==> State() == old(State()) && client.State() == old(client.State())
      ensures searched ==>
        var outcome := SearchOutcome(old(client.State()), client.net, query.value);
        State() == TracksLoaded(old(State()), outcome.result) && client.State() == outcome.session
    {
      if query.None? || Trim(query.value) == "" {
        return false;
      }
      searched := true;
      ghost var before := State();
      loading := true;
      error := None;
      var results := client.SearchTracks(query.value);
      Settle(results);
      assert State() == TracksLoaded(before, results);
    }

    /** The settling of `loadTracks`, whose error was cleared when the
        search started: the tracks or the error message, and the end of
        loading. */
    method Settle(results: Result<seq<Track>, Failure>)
      requires error.None?
      modifies this
      ensures State() == TracksLoaded(old(State()), results)
    {
      match results {
        case Ok(ts) =>
          tracks := ts;
        case Err(f) =>
          error := Some(f.message);
      }
      loading := false;
    }

    /** `handleLoadFeatures(trackId)`; `requested` tells whether the
        features were asked for. */
    method HandleLoadFeatures(trackId: string, client: SpotifyClient) returns (requested: bool)
      modifies this, client
      ensures requested <==> FeaturesWanted(old(State()), trackId)
      ensures !requested ==> State() == old(State()) && client.State() == old(client.State())
      ensures requested ==>
        var answer := Fetch(old(client.State()), client.net, AudioFeatures(trackId), 1, InitialRetryDelay, false);
        State() == FeaturesLoaded(old(State()), trackId, answer.result) && client.State() == answer.session
    {
      if (trackId in loadingFeatures && loadingFeatures[trackId]) || trackId in trackFeatures {
        return false;
      }
      requested := true;
      loadingFeatures := loadingFeatures[trackId := true];
      var data := client.GetTrackFeatures(trackId);
      if data.Ok? {
        trackFeatures := trackFeatures[trackId := FeatureViewOf(data.value)];
      }
      loadingFeatures := loadingFeatures[trackId := false];
    }
  }
}
