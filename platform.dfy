/** The browser facilities the services depend on, reduced to what decides
    their behaviour: the error classes they throw and test with
    `instanceof`, the `ok` range of an HTTP status, and how `setTimeout`
    turns a requested delay into an actual wait. */
module Platform {
  import opened Outcomes

  /** The class of a thrown error. `PlainError` is the built-in `Error`
      family (a rejected `fetch`, a JSON parse failure, `new Error(...)`). */
  datatype ErrorKind = PlainError | SpotifyError | SpeechError | TransformationError

  datatype Failure = Failure(kind: ErrorKind, message: string)

  /** `error instanceof Error ? error : new Error('Unknown error')`: a thrown
      value that is not an `Error` (`None` here) becomes a plain error with
      the fixed message. */
  function AsError(thrown: Option<Failure>): (f: Failure)
    ensures thrown.Some? ==> f == thrown.value
    ensures thrown.None? ==> f.kind == PlainError
  {
    match thrown
    case Some(e) => e
    case None => Failure(PlainError, "Unknown error")
  }

  /** `response.ok`: the status is in the range 200-299. */
  predicate IsOkStatus(status: int) {
    200 <= status <= 299
  }

  const TimerMax: int := 0x7FFF_FFFF

  /** The wait `setTimeout(f, ms)` actually performs: the delay is converted
      to a signed 32-bit integer (wrapping modulo 2^32), and a negative
      result is treated as 0, as the HTML timer algorithm prescribes. A
      delay that is not a number (`None`) converts to 0. */
  function TimerDelay(ms: Option<int>): (w: nat)
    ensures w <= TimerMax
    ensures ms.Some? && 0 <= ms.value <= TimerMax ==> w == ms.value
    ensures ms.Some? && -0x8000_0000 <= ms.value <= 0 ==> w == 0
    ensures ms.None? ==> w == 0
  {
    match ms
    case None => 0
    case Some(v) =>
      var wrapped := v % 0x1_0000_0000;
      var signed := if wrapped > TimerMax then wrapped - 0x1_0000_0000 else wrapped;
      if signed < 0 then 0 else signed
  }
}
