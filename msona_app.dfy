/** The music application's own state: the search query, whether the
    favourites view is shown, and the favourite tracks kept in browser
    storage. A favourite is added at the front of the list. */
module MSonaApp {
  import opened Outcomes
  import opened JsList
  import opened SpotifyTypes

  /** `track.id && track.name && track.artists && track.album`. */
  predicate IsCompleteTrack(t: Track) {
    t.id != "" && t.name != "" && t.artists.Some? && t.album.Some?
  }

  /** `favoriteTracks.filter(...)`: the stored favourites that carry all the
      data a card needs. */
  function ValidFavorites(favorites: seq<Track>): seq<Track> {
    Filter(favorites, IsCompleteTrack)
  }

  /** The favourites shown and counted are exactly the complete ones, in
      stored order. */
  lemma ValidFavoritesSpec(favorites: seq<Track>)
    ensures forall t :: t in ValidFavorites(favorites) <==> t in favorites && IsCompleteTrack(t)
    ensures IsSubsequence(ValidFavorites(favorites), favorites)
    ensures |ValidFavorites(favorites)| <= |favorites|
  {
    FilterSpec(favorites, IsCompleteTrack);
  }

  function HasId(id: string): Track -> bool {
    (t: Track) => t.id == id
  }

  function OtherId(id: string): Track -> bool {
    (t: Track) => t.id != id
  }

  /** The copy that is stored: the eight listed fields, nothing else the
      catalog sent. */
  function Projected(t: Track): (p: Track)
    ensures p.extra == map[]
    ensures p == Track(t.id, t.name, t.album, t.artists, t.durationMs, t.previewUrl, t.externalUrl, t.popularity, map[])
  {
    t.(extra := map[])
  }

  /** The favourites after `toggleFavorite(track)`. */
  function ToggledFavorites(previous: seq<Track>, track: Track): seq<Track> {
    if !IsCompleteTrack(track) then previous
    else if AnyMatch(previous, HasId(track.id)) then Filter(previous, OtherId(track.id))
    else [Projected(track)] + previous
  }

  /** An incomplete track leaves the favourites as they are; a favourite
      already present is removed, with every entry of that id and nothing
      else; any other track is stored, projected, at the front. */
  lemma ToggledFavoritesSpec(previous: seq<Track>, track: Track)
    ensures !IsCompleteTrack(track) ==> ToggledFavorites(previous, track) == previous
    ensures IsCompleteTrack(track) && (exists i :: 0 <= i < |previous| && previous[i].id == track.id) ==>
      var r := ToggledFavorites(previous, track);
      (forall t :: t in r <==> t in previous && t.id != track.id) && IsSubsequence(r, previous) && |r| < |previous|
    ensures IsCompleteTrack(track) && (forall i :: 0 <= i < |previous| ==> previous[i].id != track.id) ==>
      var r := ToggledFavorites(previous, track);
      |r| == |previous| + 1 && r[0] == Projected(track) && r[1..] == previous
  {
    if IsCompleteTrack(track) && exists i :: 0 <= i < |previous| && previous[i].id == track.id {
      ToggleRemovesFavorite(previous, track);
    }
  }

  lemma ToggleRemovesFavorite(previous: seq<Track>, track: Track)
    requires IsCompleteTrack(track) && exists i :: 0 <= i < |previous| && previous[i].id == track.id
    ensures var r := ToggledFavorites(previous, track);
      (forall t :: t in r <==> t in previous && t.id != track.id) && IsSubsequence(r, previous) && |r| < |previous|
  {
    var i :| 0 <= i < |previous| && previous[i].id == track.id;
    assert HasId(track.id)(previous[i]);
    var r := ToggledFavorites(previous, track);
    assert r == Filter(previous, OtherId(track.id));
    FilterSpec(previous, OtherId(track.id));
    assert previous[i] !in multiset(r);
    assert |r| != |previous| by {
      if |r| == |previous| {
        FilterKeepsAllWhenSameLength(previous, OtherId(track.id));
      }
    }
  }

  /** A filter that drops nothing returns its input. */
  lemma {:induction false} FilterKeepsAllWhenSameLength<T(!new)>(s: seq<T>, p: T -> bool)
    requires |Filter(s, p)| == |s|
    ensures Filter(s, p) == s
  {
    if s != [] {
      FilterSpec(s[1..], p);
      if p(s[0]) {
        assert Filter(s, p) == [s[0]] + Filter(s[1..], p);
        FilterKeepsAllWhenSameLength(s[1..], p);
      }
    }
  }

  /** Adding a track that is not a favourite and toggling it again gives the
      favourites back. */
  lemma ToggleTwiceRestores(previous: seq<Track>, track: Track)
    requires IsCompleteTrack(track)
    requires forall i :: 0 <= i < |previous| ==> previous[i].id != track.id
    ensures ToggledFavorites(ToggledFavorites(previous, track), track) == previous
  {
    var added := [Projected(track)] + previous;
    assert ToggledFavorites(previous, track) == added;
    assert HasId(track.id)(added[0]);
    assert added[1..] == previous;
    FilterKeepsAll(previous, OtherId(track.id));
  }

  /** Adding a complete track raises the favourite count by one. */
  lemma AddingRaisesCount(previous: seq<Track>, track: Track)
    requires IsCompleteTrack(track)
    requires forall i :: 0 <= i < |previous| ==> previous[i].id != track.id
    ensures |ValidFavorites(ToggledFavorites(previous, track))| == |ValidFavorites(previous)| + 1
  {
    var added := [Projected(track)] + previous;
    assert ToggledFavorites(previous, track) == added;
    assert added[1..] == previous;
  }

  /** The application state the header and the feed read. */
  class MSonaState {
    var searchQuery: string
    var showFavorites: bool
    var favoriteTracks: seq<Track>

    /** Initial state; `stored` is what browser storage held under
        `musicFavorites` (the empty list when nothing was stored). */
    constructor (stored: seq<Track>)
      ensures searchQuery == "" && !showFavorites && favoriteTracks == stored
    {
      searchQuery, showFavorites, favoriteTracks := "", false, stored;
    }

    /** The count shown in the header. */
    function FavoriteCount(): (n: nat)
      reads this
      ensures n <= |favoriteTracks|
      ensures n == |ValidFavorites(favoriteTracks)|
    {
      ValidFavoritesSpec(favoriteTracks);
      |ValidFavorites(favoriteTracks)|
    }

    /** `handleSearch(query)`: the query is taken and the search results
        are shown in place of the favourites. */
    method HandleSearch(query: string)
      modifies this
      ensures searchQuery == query && !showFavorites
      ensures favoriteTracks == old(favoriteTracks)
    {
      searchQuery := query;
      showFavorites := false;
    }

    /** `toggleFavorite(track)`. */
    method ToggleFavorite(track: Track)
      modifies this
      ensures favoriteTracks == ToggledFavorites(old(favoriteTracks), track)
      ensures searchQuery == old(searchQuery) && showFavorites == old(showFavorites)
    {
      if !IsCompleteTrack(track) {
        return;
      }
      if AnyMatch(favoriteTracks, HasId(track.id)) {
        favoriteTracks := Filter(favoriteTracks, OtherId(track.id));
      } else {
        favoriteTracks := [Projected(track)] + favoriteTracks;
      }
    }

    /** The header's favourites button. */
    method ToggleFavoritesView()
      modifies this
      ensures showFavorites == !old(showFavorites)
      ensures searchQuery == old(searchQuery) && favoriteTracks == old(favoriteTracks)
    {
      showFavorites := !showFavorites;
    }
  }
}
