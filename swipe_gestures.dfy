/** Horizontal swipe detection on touch screens: a touch records where and
    when it started, and its end is classified as a swipe to the left, to
    the right, or no swipe. */
module SwipeGestures {
  import opened Outcomes

  /** The shortest horizontal travel, in pixels, and the longest duration,
      in milliseconds, of a swipe. */
  datatype SwipeConfig = SwipeConfig(minSwipeDistance: real, maxSwipeTime: int)

  const DefaultConfig: SwipeConfig := SwipeConfig(50.0, 300)

  /** The recorded start of a touch: its `clientX` and `Date.now()`. */
  datatype TouchStart = TouchStart(x: real, time: int)

  /** The handler a touch end calls, if any. */
  datatype Swipe = NoSwipe | SwipeLeft | SwipeRight

  function Abs(d: real): real {
    if d < 0.0 then -d else d
  }

  /** `handleTouchEnd` past its guard; `hasLeft`/`hasRight` say whether the
      handlers were given. */
  function Classify(start: TouchStart, endX: real, endTime: int, config: SwipeConfig,
                    hasLeft: bool, hasRight: bool): Swipe {
    var distance := endX - start.x;
    var time := endTime - start.time;
    if time <= config.maxSwipeTime && Abs(distance) >= config.minSwipeDistance then
      if distance > 0.0 && hasRight then SwipeRight
      else if distance < 0.0 && hasLeft then SwipeLeft
      else NoSwipe
    else NoSwipe
  }

  /** A handler fires exactly when the touch was quick enough, travelled far
      enough, and the handler for its direction exists; the direction is
      the sign of the travel. */
  lemma ClassifySpec(start: TouchStart, endX: real, endTime: int, config: SwipeConfig, hasLeft: bool, hasRight: bool)
    ensures var d := endX - start.x;
      var r := Classify(start, endX, endTime, config, hasLeft, hasRight);
      (r != NoSwipe <==> endTime - start.time <= config.maxSwipeTime && Abs(d) >= config.minSwipeDistance
                         && ((d > 0.0 && hasRight) || (d < 0.0 && hasLeft)))
      && (r == SwipeRight ==> d > 0.0 && hasRight)
      && (r == SwipeLeft ==> d < 0.0 && hasLeft)
  {
  }

  function Mirror(s: Swipe): Swipe {
    match s
    case NoSwipe => NoSwipe
    case SwipeLeft => SwipeRight
    case SwipeRight => SwipeLeft
  }

  /** Mirroring the touch horizontally, with the handlers exchanged,
      mirrors the swipe. */
  lemma ClassifyMirrored(start: TouchStart, endX: real, endTime: int, config: SwipeConfig, hasLeft: bool, hasRight: bool)
    ensures Classify(TouchStart(-start.x, start.time), -endX, endTime, config, hasRight, hasLeft)
      == Mirror(Classify(start, endX, endTime, config, hasLeft, hasRight))
  {
    assert -endX - -start.x == -(endX - start.x);
  }

  /** With the default settings and a left handler, a touch ends as a swipe
      to the left exactly when it moved at least 50 pixels leftwards within
      300 milliseconds. */
  lemma DefaultLeftSwipe(start: TouchStart, endX: real, endTime: int, hasRight: bool)
    ensures Classify(start, endX, endTime, DefaultConfig, true, hasRight) == SwipeLeft
      <==> endTime - start.time <= 300 && endX - start.x <= -50.0
  {
  }

  /** The hook's state: the recorded start of the current touch. */
  class SwipeTracker {
    var touchStart: Option<TouchStart>
    const config: SwipeConfig

    constructor (config: SwipeConfig)
      ensures touchStart.None? && this.config == config
    {
      touchStart := None;
      this.config := config;
    }

    /** `handleTouchStart`. */
    method HandleTouchStart(x: real, now: int)
      modifies this
      ensures touchStart == Some(TouchStart(x, now))
    {
      touchStart := Some(TouchStart(x, now));
    }

    /** `handleTouchEnd`: without a recorded start nothing happens; the
        recorded start is cleared after every touch end. */
    method HandleTouchEnd(x: real, now: int, hasLeft: bool, hasRight: bool) returns (fired: Swipe)
      modifies this
      ensures fired == if old(touchStart).None? then NoSwipe
                       else Classify(old(touchStart).value, x, now, config, hasLeft, hasRight)
      ensures touchStart.None?
    {
      if touchStart.None? {
        return NoSwipe;
      }
      fired := Classify(touchStart.value, x, now, config, hasLeft, hasRight);
      touchStart := None;
    }
  }
}
