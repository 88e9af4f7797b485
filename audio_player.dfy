/** The quote card's read-aloud player: `play` synthesises speech for the
    text and plays it, `stop` pauses it, and a change of voice discards the
    audio. `synth` is how `synthesizeSpeech(text, voiceId)` settles when it
    is called: the object URL of the audio, or the error it throws. */
module AudioPlayer {
  import opened Outcomes
  import opened Platform

  const NotConfiguredMessage: string := "Text-to-speech is not configured"
  const GenericMessage: string := "Failed to generate speech. Please try again."
  const PlaybackFailedMessage: string := "Failed to play audio. Please try again."
  const LoadFailedMessage: string := "Failed to load audio. Please try again."

  /** The element `audioRef` holds: its object URL and whether it is paused. */
  datatype PlayerAudio = PlayerAudio(src: string, paused: bool)

  /** The hook's state; `revoked` lists the object URLs released so far. */
  datatype PlayerState = PlayerState(
    isPlaying: bool,
    isLoading: bool,
    error: Option<string>,
    audio: Option<PlayerAudio>,
    revoked: seq<string>)

  const Initial: PlayerState := PlayerState(false, false, None, None, [])

  /** The player never claims to play without audio. */
  predicate Valid(s: PlayerState) {
    s.isPlaying ==> s.audio.Some?
  }

  /** `stop()`: pause and clear `isPlaying`, but only when there is audio. */
  function Stopped(s: PlayerState): PlayerState {
    match s.audio
    case None => s
    case Some(a) => s.(audio := Some(a.(paused := true)), isPlaying := false)
  }

  /** The message shown for a failed synthesis: a `SpeechError`'s own
      message, or the generic one. */
  function FailureMessage(f: Failure): string {
    if f.kind == SpeechError then f.message else GenericMessage
  }

  /** Whether `play` reaches `synthesizeSpeech`. */
  predicate Synthesises(s: PlayerState, apiKey: string) {
    !s.isPlaying && apiKey != ""
  }

  /** The audio is released (its URL revoked) and dropped. */
  function Released(s: PlayerState): PlayerState {
    match s.audio
    case None => s
    case Some(a) => s.(audio := None, revoked := s.revoked + [a.src])
  }

  /** `play()`: the state once the call has settled. */
  function Played(s: PlayerState, apiKey: string, synth: Result<string, Failure>): PlayerState {
    var cleared := s.(error := None);
    var settled :=
      if cleared.isPlaying then Stopped(cleared)
      else if apiKey == "" then cleared.(error := Some(NotConfiguredMessage), isPlaying := false)
      else Synthesised(Released(cleared), synth);
    settled.(isLoading := false)
  }

  /** The `try` block once `synthesizeSpeech` has settled. */
  function Synthesised(s: PlayerState, synth: Result<string, Failure>): PlayerState {
    match synth
    case Ok(url) => s.(audio := Some(PlayerAudio(url, true)), isPlaying := true)
    case Err(f) => s.(error := Some(FailureMessage(f)), isPlaying := false)
  }

  /** `play` while playing stops, clears the error and synthesises nothing. */
  lemma PlayWhilePlayingStops(s: PlayerState, apiKey: string, synth: Result<string, Failure>)
    requires Valid(s) && s.isPlaying
    ensures !Synthesises(s, apiKey)
    ensures Played(s, apiKey, synth) == Stopped(s).(error := None, isLoading := false)
    ensures !Played(s, apiKey, synth).isPlaying
  {
  }

  /** Without a key the call fails with "not configured" and keeps the old
      audio. */
  lemma PlayWithoutKey(s: PlayerState, synth: Result<string, Failure>)
    requires !s.isPlaying
    ensures Played(s, "", synth) == s.(error := Some(NotConfiguredMessage), isLoading := false)
  {
  }

  /** After a synthesis the error is the `SpeechError` message or the
      generic one and nothing plays; after a success the previous audio is
      released and the new audio is stored, paused until it can play, and
      `isPlaying` is set. `isLoading` is false in every case. */
  lemma PlayOutcomes(s: PlayerState, apiKey: string, synth: Result<string, Failure>)
    requires Synthesises(s, apiKey)
    ensures var r := Played(s, apiKey, synth);
      !r.isLoading
      && (synth.Err? ==> r.error == Some(if synth.error.kind == SpeechError then synth.error.message else GenericMessage)
                         && !r.isPlaying && r.audio.None?)
      && (synth.Ok? ==> r.error.None? && r.isPlaying && r.audio == Some(PlayerAudio(synth.value, true)))
      && r.revoked == s.revoked + (if s.audio.Some? then [s.audio.value.src] else [])
  {
  }

  /** `stop` clears `isPlaying` exactly when there is audio. */
  lemma StopNeedsAudio(s: PlayerState)
    ensures Stopped(s).isPlaying == (s.isPlaying && s.audio.None?)
    ensures s.audio.None? ==> Stopped(s) == s
  {
  }

  /** The effect run when the voice changes: with audio present, the audio
      is paused and released and every flag is reset; without audio nothing
      happens. */
  function VoiceChanged(s: PlayerState): PlayerState {
    if s.audio.Some? then Released(Stopped(s)).(isPlaying := false, isLoading := false, error := None)
    else s
  }

  lemma VoiceChangeResets(s: PlayerState)
    requires s.audio.Some?
    ensures var r := VoiceChanged(s);
      !r.isPlaying && !r.isLoading && r.error.None? && r.audio.None? && r.revoked == s.revoked + [s.audio.value.src]
  {
  }

  /** The `canplaythrough` listener: playback starts, or fails with a
      message. */
  function ReadyToPlay(s: PlayerState, playbackStarts: bool): PlayerState {
    if !playbackStarts then s.(error := Some(PlaybackFailedMessage), isPlaying := false)
    else
      match s.audio
      case None => s
      case Some(a) => s.(audio := Some(a.(paused := false)))
  }

  /** The `error` listener. */
  function LoadFailed(s: PlayerState): PlayerState {
    s.(error := Some(LoadFailedMessage), isPlaying := false)
  }

  /** The `ended` listener. */
  function Ended(s: PlayerState): PlayerState {
    s.(isPlaying := false)
  }

  /** Every operation and listener keeps the player from claiming to play
      without audio. */
  lemma TransitionsKeepValid(s: PlayerState, apiKey: string, synth: Result<string, Failure>, starts: bool)
    requires Valid(s)
    ensures Valid(Played(s, apiKey, synth)) && Valid(Stopped(s)) && Valid(VoiceChanged(s))
    ensures Valid(ReadyToPlay(s, starts)) && Valid(LoadFailed(s)) && Valid(Ended(s))
  {
  }

  /** `useAudioPlayer(text, voiceId)`. */
  class AudioPlayerHook {
    var isPlaying: bool
    var isLoading: bool
    var error: Option<string>
    var audioRef: Option<PlayerAudio>
    var revoked: seq<string>

    function State(): PlayerState
      reads this
    {
      PlayerState(isPlaying, isLoading, error, audioRef, revoked)
    }

    constructor ()
      ensures State() == Initial
    {
      isPlaying, isLoading, error, audioRef, revoked := false, false, None, None, [];
    }

    /** `stop()`. */
    method Stop()
      modifies this
      ensures State() == Stopped(old(State()))
    {
      if audioRef.Some? {
        audioRef := Some(audioRef.value.(paused := true));
        isPlaying := false;
      }
    }

    method Release()
      modifies this
      ensures State() == Released(old(State()))
    {
      if audioRef.Some? {
        revoked := revoked + [audioRef.value.src];
        audioRef := None;
      }
    }

    /** `play()`; `requested` tells whether `synthesizeSpeech` was called. */
    method Play(apiKey: string, synth: Result<string, Failure>) returns (requested: bool)
      modifies this
      ensures requested <==> Synthesises(old(State()), apiKey)
      ensures State() == Played(old(State()), apiKey, synth)
    {
      requested := false;
      error := None;
      if isPlaying {
        Stop();
      } else if apiKey == "" {
        error := Some(NotConfiguredMessage);
        isPlaying := false;
      } else {
        Release();
        isLoading := true;
        requested := true;
        match synth {
          case Ok(url) =>
            audioRef := Some(PlayerAudio(url, true));
            isPlaying := true;
          case Err(f) =>
            error := Some(FailureMessage(f));
            isPlaying := false;
        }
      }
      isLoading := false;
    }

    /** The effect of a voice change. */
    method OnVoiceChange()
      modifies this
      ensures State() == VoiceChanged(old(State()))
    {
      if audioRef.Some? {
        Stop();
        Release();
        isPlaying, isLoading, error := false, false, None;
      }
    }

    method OnCanPlayThrough(playbackStarts: bool)
      modifies this
      ensures State() == ReadyToPlay(old(State()), playbackStarts)
    {
      if !playbackStarts {
        error := Some(PlaybackFailedMessage);
        isPlaying := false;
      } else if audioRef.Some? {
        audioRef := Some(audioRef.value.(paused := false));
      }
    }

    method OnError()
      modifies this
      ensures State() == LoadFailed(old(State()))
    {
      error := Some(LoadFailedMessage);
      isPlaying := false;
    }

    method OnEnded()
      modifies this
      ensures State() == Ended(old(State()))
    {
      isPlaying := false;
    }
  }
}
