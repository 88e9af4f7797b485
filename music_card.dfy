/** One track card of the music feed: its duration text, share text and
    share channel, cover image, the expand toggle that asks for audio
    features, and the play/pause button driving the audio provider. */
module MusicCard {
  import opened Outcomes
  import opened JsText
  import opened SpotifyTypes
  import opened AudioContext

  const CopiedResetMs: nat := 2000
  const NarrowScreenWidth: int := 768

  /** `a % b` in JavaScript for a positive `b`: the remainder takes the sign
      of `a`. */
  function TruncatedRemainder(a: int, b: int): (r: int)
    requires b > 0
    ensures a >= 0 ==> r == a % b
    ensures a < 0 ==> r == -((-a) % b)
  {
    if a >= 0 then a % b else -((-a) % b)
  }

  /** `Math.floor(ms / 60000)` and `Math.floor((ms % 60000) / 1000)`;
      Dafny's `/` by a positive divisor already rounds down. */
  function DurationParts(ms: int): (int, int) {
    (ms / 60000, TruncatedRemainder(ms, 60000) / 1000)
  }

  /** The duration shown when the card is expanded, `m:ss`. */
  function DurationText(ms: int): string {
    var (minutes, seconds) := DurationParts(ms);
    IntToString(minutes) + ":" + PadStart2(IntToString(seconds))
  }

  /** For a non-negative duration the parts are whole minutes and the
      seconds left over, 0 to 59, and they lose only the milliseconds. */
  lemma DurationPartsSpec(ms: int)
    requires ms >= 0
    ensures var (m, s) := DurationParts(ms);
      m >= 0 && 0 <= s < 60 && 60000 * m + 1000 * s <= ms < 60000 * m + 1000 * s + 1000
  {
  }

  /** The text of a non-negative duration is the minutes in decimal, a
      colon, and exactly two digits for the seconds; both read back as the
      parts. */
  lemma DurationTextReadsBack(ms: int)
    requires ms >= 0
    ensures var t := DurationText(ms);
      |t| >= 4 && t[|t| - 3] == ':'
      && (forall i :: 0 <= i < |t| && i != |t| - 3 ==> IsDigit(t[i]))
      && ParseDigits(t[..|t| - 3]) == ms / 60000
      && ParseDigits(t[|t| - 2..]) == (ms % 60000) / 1000
  {
    DurationPartsSpec(ms);
    var (m, s) := DurationParts(ms);
    assert m == ms / 60000 && s == (ms % 60000) / 1000;
    var mt := NatToString(m);
    var st := NatToString(s);
    var padded := PadStart2(st);
    assert |padded| == 2 && (forall i :: 0 <= i < 2 ==> IsDigit(padded[i]));
    assert DurationText(ms) == mt + ":" + padded;
    ColonJoined(mt, padded);
    NatToStringRoundTrip(m);
    NatToStringRoundTrip(s);
    PaddedDigits(st);
  }

  /** Minutes and two-digit seconds joined by a colon split back apart. */
  lemma ColonJoined(mt: string, padded: string)
    requires |mt| >= 1 && forall i :: 0 <= i < |mt| ==> IsDigit(mt[i])
    requires |padded| == 2 && forall i :: 0 <= i < 2 ==> IsDigit(padded[i])
    ensures var t := mt + ":" + padded;
      |t| >= 4 && t[|t| - 3] == ':'
      && (forall i :: 0 <= i < |t| && i != |t| - 3 ==> IsDigit(t[i]))
      && t[..|t| - 3] == mt && t[|t| - 2..] == padded
  {
    var t := mt + ":" + padded;
    assert t[..|t| - 3] == mt;
    assert t[|t| - 2..] == padded;
  }

  /** Zero-padding does not change the value a digit string reads as. */
  lemma PaddedDigits(st: string)
    requires 1 <= |st| <= 2 && forall i :: 0 <= i < |st| ==> IsDigit(st[i])
    ensures ParseDigits(PadStart2(st)) == ParseDigits(st)
  {
    if |st| == 1 {
      var p := PadStart2(st);
      assert p == ['0'] + st;
      assert p[..1] == ['0'];
      assert st[..0] == [];
    }
  }

  /** `artists.map(a => a.name)`. */
  function ArtistNames(artists: seq<Artist>): (names: seq<string>)
    ensures |names| == |artists|
    ensures forall i :: 0 <= i < |artists| ==> names[i] == artists[i].name
  {
    seq(|artists|, (i: int) requires 0 <= i < |artists| => artists[i].name)
  }

  /** The share text, `name by artist, artist`; reading `map` of missing
      artists throws a `TypeError` (`None`). */
  function ShareText(t: Track): (text: Option<string>)
    ensures text.None? <==> t.artists.None?
  {
    match t.artists
    case None => None
    case Some(artists) => Some(t.name + " by " + Join(ArtistNames(artists), ", "))
  }

  /** The text begins with the track name and " by "; a single artist is
      named as it is, and every further artist follows the ones before it
      after ", ". */
  lemma ShareTextSpec(t: Track)
    requires t.artists.Some?
    ensures var text := ShareText(t).value;
      |text| >= |t.name| + 4 && text[..|t.name| + 4] == t.name + " by "
      && (|t.artists.value| == 1 ==> text == t.name + " by " + t.artists.value[0].name)
      && (t.artists.value == [] ==> text == t.name + " by ")
    ensures var artists := t.artists.value; var names := ArtistNames(artists);
      |artists| >= 2 ==>
        ShareText(t).value
          == t.name + " by " + Join(names[..|names| - 1], ", ") + ", " + artists[|artists| - 1].name
  {
    var text := ShareText(t).value;
    assert text == (t.name + " by ") + Join(ArtistNames(t.artists.value), ", ");
    var names := ArtistNames(t.artists.value);
    if |names| >= 2 {
      assert names == names[..|names| - 1] + [names[|names| - 1]];
      JoinAppend(names[..|names| - 1], names[|names| - 1], ", ");
    }
  }

  /** Two artists are named in order, separated by ", ". */
  lemma TwoArtistsShareText(t: Track, a: Artist, b: Artist)
    requires t.artists == Some([a, b])
    ensures ShareText(t) == Some(t.name + " by " + a.name + ", " + b.name)
  {
    ShareTextSpec(t);
    assert ArtistNames([a, b])[..1] == [a.name];
  }

  /** How one press of the share button ends: whether the system share
      sheet was used, how many clipboard writes were made, and whether the
      "copied" mark was set. */
  datatype ShareResult = ShareResult(shared: bool, clipboardWrites: nat, copied: bool)

  /** `handleShare`: on a narrow screen with a share sheet the sheet is
      tried, and a failure falls back to the clipboard; elsewhere the
      clipboard is written, and a failure writes it once more. The
      `clipboard(n)` answer says whether the n-th write succeeds. */
  function Share(hasShareSheet: bool, width: int, shareSucceeds: bool, clipboard: nat -> bool): ShareResult {
    if hasShareSheet && width <= NarrowScreenWidth then
      if shareSucceeds then ShareResult(true, 0, false)
      else ShareResult(false, 1, clipboard(0))
    else if clipboard(0) then ShareResult(false, 1, true)
    else ShareResult(false, 2, clipboard(1))
  }

  /** The mark is set exactly when the last clipboard write succeeded; the
      sheet is used only on narrow screens that have it; at most two writes
      are made. */
  lemma ShareSpec(hasShareSheet: bool, width: int, shareSucceeds: bool, clipboard: nat -> bool)
    ensures var r := Share(hasShareSheet, width, shareSucceeds, clipboard);
      r.clipboardWrites <= 2
      && (r.copied <==> r.clipboardWrites > 0 && clipboard(r.clipboardWrites - 1))
      && (r.shared ==> hasShareSheet && width <= NarrowScreenWidth && r.clipboardWrites == 0)
      && (r.clipboardWrites == 0 ==> r.shared)
  {
  }

  /** `track.album.images[1]?.url || track.album.images[0]?.url`; `None` is
      `undefined`. */
  function CoverUrl(album: Album): (url: Option<string>)
    ensures |album.images| >= 2 && album.images[1].url != "" ==> url == Some(album.images[1].url)
    ensures (|album.images| < 2 || album.images[1].url == "") && |album.images| >= 1 ==> url == Some(album.images[0].url)
    ensures album.images == [] ==> url.None?
  {
    if |album.images| >= 2 && album.images[1].url != "" then Some(album.images[1].url)
    else if |album.images| >= 1 then Some(album.images[0].url)
    else None
  }

  /** `handlePlayPause` against the provider's state: nothing without a
      preview; `stop()` when this track is playing; otherwise
      `play(id, preview_url)`. */
  function PlayPause(s: AudioState, t: Track): AudioState {
    if !HasPreview(t) then s
    else if s.currentlyPlaying == Some(t.id) then Stopped(s)
    else Played(s, t.id, t.previewUrl.value)
  }

  /** A press never starts a track without a preview, and with one it
      toggles: the track plays afterwards exactly when it did not before. */
  lemma PlayPauseToggles(s: AudioState, t: Track)
    requires Valid(s)
    ensures !HasPreview(t) ==> PlayPause(s, t) == s
    ensures HasPreview(t) ==> (PlayPause(s, t).currentlyPlaying == Some(t.id) <==> s.currentlyPlaying != Some(t.id))
    ensures HasPreview(t) && s.currentlyPlaying != Some(t.id) ==>
      var r := PlayPause(s, t);
      r.current.Some? && r.elements[r.current.value].url == t.previewUrl.value
  {
    if HasPreview(t) && s.currentlyPlaying != Some(t.id) {
      PlayOtherTrack(s, t.id, t.previewUrl.value);
    }
  }

  /** The card's own state. */
  class Card {
    const track: Track
    var isExpanded: bool
    var copied: bool

    constructor (track: Track)
      ensures this.track == track && !isExpanded && !copied
    {
      this.track := track;
      isExpanded, copied := false, false;
    }

    /** `toggleExpand()`; `requestFeatures` tells whether `onExpand` was
        called: only when opening a card that has no features yet. */
    method ToggleExpand(hasFeatures: bool) returns (requestFeatures: bool)
      modifies this
      ensures isExpanded == !old(isExpanded) && copied == old(copied)
      ensures requestFeatures <==> isExpanded && !hasFeatures
    {
      var opening := !isExpanded;
      requestFeatures := opening && !hasFeatures;
      isExpanded := opening;
    }

    /** `handlePlayPause`. */
    method HandlePlayPause(audio: AudioProvider)
      modifies audio
      ensures audio.State() == PlayPause(old(audio.State()), track)
    {
      if !HasPreview(track) {
        return;
      }
      if audio.currentlyPlaying == Some(track.id) {
        audio.Stop();
      } else {
        audio.Play(track.id, track.previewUrl.value);
      }
    }

    /** `handleShare`: the copied mark is set when the clipboard took the
        text (and cleared by a timer `CopiedResetMs` later, not modelled as
        a step). Without artists the text cannot be built and the handler
        throws before sharing anything. */
    method HandleShare(hasShareSheet: bool, width: int, shareSucceeds: bool, clipboard: nat -> bool)
      returns (result: ShareResult)
      modifies this
      ensures result == if track.artists.None? then ShareResult(false, 0, false)
                        else Share(hasShareSheet, width, shareSucceeds, clipboard)
      ensures copied == (old(copied) || result.copied) && isExpanded == old(isExpanded)
    {
      var text := ShareText(track);
      if text.None? {
        return ShareResult(false, 0, false);
      }
      result := Share(hasShareSheet, width, shareSucceeds, clipboard);
      if result.copied {
        copied := true;
      }
    }
  }
}
