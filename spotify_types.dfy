/** The music-catalog records the music feed works with. Numbers that only
    feed floating-point displays (energy, valence, tempo, ...) are not part
    of the records. */
module SpotifyTypes {
  import opened Outcomes

  datatype Image = Image(url: string, height: int, width: int)

  datatype Artist = Artist(id: string, name: string)

  datatype Album = Album(id: string, name: string, images: seq<Image>)

  /** A track. `artists` and `album` may be missing on records read back from
      browser storage, hence `Option`; `extra` holds any further properties
      the catalog sent with the track. */
  datatype Track = Track(
    id: string,
    name: string,
    album: Option<Album>,
    artists: Option<seq<Artist>>,
    durationMs: int,
    previewUrl: Option<string>,
    externalUrl: string,
    popularity: int,
    extra: map<string, string>)

  /** The integer part of an audio-features answer. */
  datatype FeatureData = FeatureData(key: int, mode: int, timeSignature: int)

  /** `track.preview_url` is truthy. */
  predicate HasPreview(t: Track) {
    t.previewUrl.Some? && t.previewUrl.value != ""
  }
}
