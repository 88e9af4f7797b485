/** The music application's audio provider: one track preview plays at a
    time. The provider remembers which track is playing, whether it is
    still buffering, the volume, and the audio element it created last;
    every element it ever created is kept, in creation order, so that "at
    most one element is live" can be stated. */
module AudioContext {
  import opened Outcomes

  /** One `Audio` element: its source, volume, and whether it is paused (a
      new element is paused until `play()` is called on it). */
  datatype AudioElement = AudioElement(url: string, volume: real, paused: bool)

  datatype AudioState = AudioState(
    currentlyPlaying: Option<string>,
    volume: real,
    isBuffering: bool,
    elements: seq<AudioElement>,
    current: Option<nat>)

  const Initial: AudioState := AudioState(None, 1.0, false, [], None)

  /** `audioRef.current` refers to one of the elements; every other element
      is paused; the current one has the provider's volume. */
  predicate Valid(s: AudioState) {
    (s.current.Some? ==> s.current.value < |s.elements| && s.elements[s.current.value].volume == s.volume)
    && forall i :: 0 <= i < |s.elements| && s.current != Some(i) ==> s.elements[i].paused
  }

  /** No element is playing. */
  predicate Silent(s: AudioState) {
    forall i :: 0 <= i < |s.elements| ==> s.elements[i].paused
  }

  /** `audioRef.current.pause()` when there is a current element. */
  function PauseCurrent(s: AudioState): (r: AudioState)
    ensures r.current == s.current && |r.elements| == |s.elements|
    ensures forall i :: 0 <= i < |s.elements| && s.current != Some(i) ==> r.elements[i] == s.elements[i]
  {
    if s.current.Some? && s.current.value < |s.elements| then
      var c := s.current.value;
      s.(elements := s.elements[c := s.elements[c].(paused := true)])
    else s
  }

  /** `stop()`. */
  function Stopped(s: AudioState): AudioState {
    PauseCurrent(s).(current := None, currentlyPlaying := None, isBuffering := false)
  }

  /** `play(trackId, url)`. */
  function Played(s: AudioState, trackId: string, url: string): AudioState {
    var paused := PauseCurrent(s);
    if s.currentlyPlaying == Some(trackId) then Stopped(paused)
    else
      paused.(isBuffering := true,
              elements := paused.elements + [AudioElement(url, s.volume, true)],
              current := Some(|paused.elements|),
              currentlyPlaying := Some(trackId))
  }

  /** `setVolume(v)` followed by the effect that copies the volume to the
      current element. */
  function VolumeSet(s: AudioState, v: real): AudioState {
    if s.current.Some? && s.current.value < |s.elements| then
      var c := s.current.value;
      s.(volume := v, elements := s.elements[c := s.elements[c].(volume := v)])
    else s.(volume := v)
  }

  /** The `canplaythrough` listener: buffering ends and the current element
      starts playing. */
  function ReadyToPlay(s: AudioState): AudioState {
    if s.current.Some? && s.current.value < |s.elements| then
      var c := s.current.value;
      s.(isBuffering := false, elements := s.elements[c := s.elements[c].(paused := false)])
    else s.(isBuffering := false)
  }

  /** The `error` listener: buffering ends, then `stop()`. */
  function LoadFailed(s: AudioState): AudioState {
    Stopped(s.(isBuffering := false))
  }

  /** After `stop()` nothing plays, nothing is buffering, no track is
      current; the volume and the elements' sources are kept. */
  lemma StoppedSpec(s: AudioState)
    requires Valid(s)
    ensures var r := Stopped(s);
      r.currentlyPlaying.None? && !r.isBuffering && r.current.None? && Silent(r) && Valid(r)
      && r.volume == s.volume && |r.elements| == |s.elements|
      && forall i :: 0 <= i < |s.elements| ==> r.elements[i].url == s.elements[i].url
  {
  }

  /** Playing the track that is playing stops it. */
  lemma PlaySameTrackStops(s: AudioState, trackId: string, url: string)
    requires Valid(s) && s.currentlyPlaying == Some(trackId)
    ensures Played(s, trackId, url) == Stopped(s)
  {
    var p := PauseCurrent(s);
    if s.current.Some? {
      var c := s.current.value;
      assert p.elements[c := p.elements[c].(paused := true)] == p.elements;
    }
  }

  /** Playing another track pauses whatever played, and creates one new
      paused element for the new source at the current volume, which
      becomes current; the track is marked playing and buffering. */
  lemma PlayOtherTrack(s: AudioState, trackId: string, url: string)
    requires Valid(s) && s.currentlyPlaying != Some(trackId)
    ensures var r := Played(s, trackId, url);
      r.currentlyPlaying == Some(trackId) && r.isBuffering && r.volume == s.volume
      && |r.elements| == |s.elements| + 1 && r.current == Some(|s.elements|)
      && r.elements[|s.elements|] == AudioElement(url, s.volume, true)
      && Silent(r) && Valid(r)
  {
  }

  /** Every operation and every listener keeps at most one element live. */
  lemma TransitionsKeepValid(s: AudioState, trackId: string, url: string, v: real)
    requires Valid(s)
    ensures Valid(Stopped(s)) && Valid(Played(s, trackId, url)) && Valid(VolumeSet(s, v))
    ensures Valid(ReadyToPlay(s)) && Valid(LoadFailed(s))
  {
  }

  /** A volume change reaches the element that is current, and later
      elements are created with it. */
  lemma VolumeReachesCurrent(s: AudioState, v: real, trackId: string, url: string)
    requires Valid(s)
    ensures var r := VolumeSet(s, v);
      r.volume == v && (r.current.Some? ==> r.elements[r.current.value].volume == v)
      && (r.currentlyPlaying != Some(trackId) ==> Played(r, trackId, url).elements[|r.elements|].volume == v)
  {
  }

  /** Ready-to-play clears buffering and leaves only the current element
      playing; a load error returns to the stopped state. */
  lemma ListenersSpec(s: AudioState)
    requires Valid(s)
    ensures var r := ReadyToPlay(s);
      !r.isBuffering && r.currentlyPlaying == s.currentlyPlaying
      && (s.current.Some? ==> !r.elements[s.current.value].paused)
    ensures LoadFailed(s) == Stopped(s)
  {
  }

  /** `AudioProvider`. */
  class AudioProvider {
    var currentlyPlaying: Option<string>
    var volume: real
    var isBuffering: bool
    var elements: seq<AudioElement>
    var audioRef: Option<nat>

    function State(): AudioState
      reads this
    {
      AudioState(currentlyPlaying, volume, isBuffering, elements, audioRef)
    }

    constructor ()
      ensures State() == Initial
    {
      currentlyPlaying, volume, isBuffering, elements, audioRef := None, 1.0, false, [], None;
    }

    method Pause()
      modifies this
      ensures State() == PauseCurrent(old(State()))
    {
      if audioRef.Some? && audioRef.value < |elements| {
        var c := audioRef.value;
        elements := elements[c := elements[c].(paused := true)];
      }
    }

    /** `stop()`. */
    method Stop()
      modifies this
      ensures State() == Stopped(old(State()))
    {
      Pause();
      audioRef := None;
      currentlyPlaying := None;
      isBuffering := false;
    }

    /** `play(trackId, url)`. */
    method Play(trackId: string, url: string)
      modifies this
      ensures State() == Played(old(State()), trackId, url)
    {
      Pause();
      if currentlyPlaying == Some(trackId) {
        Stop();
        return;
      }
      isBuffering := true;
      elements := elements + [AudioElement(url, volume, true)];
      audioRef := Some(|elements| - 1);
      currentlyPlaying := Some(trackId);
    }

    /** `setVolume(v)` and the effect that follows it. */
    method SetVolume(v: real)
      modifies this
      ensures State() == VolumeSet(old(State()), v)
    {
      volume := v;
      if audioRef.Some? && audioRef.value < |elements| {
        var c := audioRef.value;
        elements := elements[c := elements[c].(volume := v)];
      }
    }

    /** The `canplaythrough` listener. */
    method OnCanPlayThrough()
      modifies this
      ensures State() == ReadyToPlay(old(State()))
    {
      isBuffering := false;
      if audioRef.Some? && audioRef.value < |elements| {
        var c := audioRef.value;
        elements := elements[c := elements[c].(paused := false)];
      }
    }

    /** The `ended` listener. */
    method OnEnded()
      modifies this
      ensures State() == Stopped(old(State()))
    {
      Stop();
    }

    /** The `error` listener. */
    method OnError()
      modifies this
      ensures State() == LoadFailed(old(State()))
    {
      isBuffering := false;
      Stop();
    }
  }
}
