/** The speech-synthesis service: checks that a key is configured and that
    the browser plays MP3, then asks the text-to-speech API for audio with
    at most two attempts. The n-th request receives `replies(n)`;
    `canPlayMp3` is what `audio.canPlayType('audio/mpeg')` answers. */
module SpeechService {
  import opened Outcomes
  import opened JsText
  import opened Platform
  import opened RetryLoop

  const MaxAttempts: nat := 2
  const DefaultVoiceId: string := "pNInz6obpgDQGcFmaJgB"
  const ApiUrl: string := "https://api.elevenlabs.io/v1"

  const NotConfigured: Failure := Failure(SpeechError, "Text-to-speech is not configured")
  const NoMp3: Failure := Failure(SpeechError, "Your browser does not support MP3 audio playback.")
  const EmptyAudio: Failure := Failure(SpeechError, "Received empty audio response. Please try again.")
  const AllAttemptsFailed: Failure := Failure(SpeechError, "Failed to generate speech after multiple attempts.")

  /** An answer: its status, the `error` field of its JSON body (absent when
      the body is not JSON), and its bytes as a blob. */
  datatype SpeechReply =
    | SpeechAnswer(status: int, errorField: Option<string>, audio: seq<bv8>)
    | SpeechRejected(thrown: Option<Failure>)

  /** One request as sent: the URL naming the voice, the text, the key. */
  datatype SpeechRequest = SpeechRequest(url: string, text: string, apiKey: string)

  /** `voiceId || elevenLabsConfig.defaultVoiceId`. */
  function SelectedVoice(voiceId: Option<string>): (v: string)
    ensures voiceId.Some? && voiceId.value != "" ==> v == voiceId.value
    ensures voiceId.None? || voiceId.value == "" ==> v == DefaultVoiceId
  {
    if voiceId.Some? && voiceId.value != "" then voiceId.value else DefaultVoiceId
  }

  function VoiceUrl(voice: string): string {
    ApiUrl + "/text-to-speech/" + voice
  }

  /** One pass through the `try` block: a non-ok answer fails with the
      server's `error` field or a message naming the status, an empty blob
      fails, any other ok answer yields its audio. */
  function SpeechAttempt(reply: SpeechReply): (r: Result<seq<bv8>, Failure>)
    ensures r.Ok? <==> reply.SpeechAnswer? && IsOkStatus(reply.status) && reply.audio != []
    ensures r.Ok? ==> r.value == reply.audio
    ensures reply.SpeechAnswer? ==> r.Ok? || r.error.kind == SpeechError
  {
    match reply
    case SpeechRejected(thrown) => Err(AsError(thrown))
    case SpeechAnswer(status, errorField, audio) =>
      if !IsOkStatus(status) then
        Err(Failure(SpeechError,
          if errorField.Some? && errorField.value != "" then errorField.value
          else "Speech synthesis failed (" + IntToString(status) + "). Please try again."))
      else if audio == [] then Err(EmptyAudio)
      else Ok(audio)
  }

  /** The attempts the loop would make if none succeeded. */
  function SpeechTries(replies: nat -> SpeechReply): (ts: seq<Result<seq<bv8>, Failure>>)
    ensures |ts| == MaxAttempts
    ensures forall i :: 0 <= i < |ts| ==> ts[i] == SpeechAttempt(replies(i))
  {
    seq(MaxAttempts, (i: int) requires 0 <= i => SpeechAttempt(replies(i)))
  }

  /** Whether the checks before the loop let it run. */
  predicate CanRequest(apiKey: string, canPlayMp3: string) {
    apiKey != "" && canPlayMp3 != ""
  }

  /** What `synthesizeSpeech` settles to: the key check, then the MP3
      check, then the first success or the last attempt's error. */
  function SpeechOutcome(apiKey: string, canPlayMp3: string, replies: nat -> SpeechReply): Result<seq<bv8>, Failure> {
    if apiKey == "" then Err(NotConfigured)
    else if canPlayMp3 == "" then Err(NoMp3)
    else
      match Settle(SpeechTries(replies))
      case Some(result) => result
      case None => Err(AllAttemptsFailed)
  }

  /** The checks raise `SpeechError` before any request; past them the call
      succeeds exactly when one of the two attempts does, with the first
      success, and otherwise throws the last attempt's error. */
  lemma SpeechOutcomeSpec(apiKey: string, canPlayMp3: string, replies: nat -> SpeechReply)
    ensures apiKey == "" ==> SpeechOutcome(apiKey, canPlayMp3, replies) == Err(NotConfigured)
    ensures apiKey != "" && canPlayMp3 == "" ==> SpeechOutcome(apiKey, canPlayMp3, replies) == Err(NoMp3)
    ensures CanRequest(apiKey, canPlayMp3) ==>
      (SpeechOutcome(apiKey, canPlayMp3, replies).Ok? <==> exists i :: 0 <= i < MaxAttempts && SpeechAttempt(replies(i)).Ok?)
    ensures CanRequest(apiKey, canPlayMp3) && SpeechAttempt(replies(0)).Ok? ==>
      SpeechOutcome(apiKey, canPlayMp3, replies) == Ok(replies(0).audio)
    ensures CanRequest(apiKey, canPlayMp3) ==>
      forall i :: (0 <= i < MaxAttempts && SpeechAttempt(replies(i)).Ok?
                   && (forall j :: 0 <= j < i ==> SpeechAttempt(replies(j)).Err?))
        ==> SpeechOutcome(apiKey, canPlayMp3, replies) == Ok(replies(i).audio)
    ensures CanRequest(apiKey, canPlayMp3) && SpeechOutcome(apiKey, canPlayMp3, replies).Err? ==>
      SpeechOutcome(apiKey, canPlayMp3, replies) == SpeechAttempt(replies(MaxAttempts - 1))
  {
    var ts := SpeechTries(replies);
    SettleSpec(ts);
    if exists i :: 0 <= i < MaxAttempts && SpeechAttempt(replies(i)).Ok? {
      var i :| 0 <= i < MaxAttempts && SpeechAttempt(replies(i)).Ok?;
      assert ts[i].Ok?;
    }
  }

  /** `synthesizeSpeech(text, voiceId)`. */
  method SynthesizeSpeech(text: string, voiceId: Option<string>, apiKey: string, canPlayMp3: string,
                          replies: nat -> SpeechReply)
    returns (r: Result<seq<bv8>, Failure>, sent: seq<SpeechRequest>, waits: seq<nat>)
    ensures r == SpeechOutcome(apiKey, canPlayMp3, replies)
    ensures |sent| == (if CanRequest(apiKey, canPlayMp3) then Made(SpeechTries(replies)) else 0)
    ensures forall i :: 0 <= i < |sent| ==> sent[i] == SpeechRequest(VoiceUrl(SelectedVoice(voiceId)), text, apiKey)
    ensures waits == if CanRequest(apiKey, canPlayMp3) then Pauses(|sent|, LinearBackoff) else []
  {
    sent, waits := [], [];
    if apiKey == "" {
      return Err(NotConfigured), sent, waits;
    }
    if canPlayMp3 == "" {
      return Err(NoMp3), sent, waits;
    }
    ghost var ts := SpeechTries(replies);
    var voice := SelectedVoice(voiceId);
    var lastError: Option<Failure> := None;
    var attempt := 0;
    while attempt < MaxAttempts
      invariant 0 <= attempt <= MaxAttempts
      invariant forall j :: 0 <= j < attempt ==> ts[j].Err?
      invariant |sent| == attempt
      invariant forall j :: 0 <= j < |sent| ==> sent[j] == SpeechRequest(VoiceUrl(voice), text, apiKey)
      invariant waits == Pauses(attempt + (if attempt < MaxAttempts then 1 else 0), LinearBackoff)
      invariant attempt == 0 <==> lastError.None?
      invariant attempt > 0 ==> lastError == Some(ts[attempt - 1].error)
    {
      var reply := replies(attempt);
      sent := sent + [SpeechRequest(VoiceUrl(voice), text, apiKey)];
      var outcome := SpeechAttempt(reply);
      if outcome.Ok? {
        SettleAtFirstOk(ts, attempt);
        return outcome, sent, waits;
      }
      lastError := Some(outcome.error);
      FailuresExtend(ts, attempt);
      if attempt < MaxAttempts - 1 {
        PausesExtend(attempt + 1, LinearBackoff);
        waits := waits + [1000 * (attempt + 1)];
      }
      attempt := attempt + 1;
    }
    SettleAllFailed(ts);
    r := Err(lastError.GetOr(AllAttemptsFailed));
  }
}
