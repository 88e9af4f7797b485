/** The infinite-scroll trigger: on every scroll event, more content is
    requested when the bottom of the page is closer than a threshold. */
module InfiniteScroll {

  const DefaultThreshold: real := 200.0

  /** What `handleScroll` reads: `scrollHeight`, `scrollY` and
      `innerHeight`. */
  datatype Viewport = Viewport(scrollHeight: real, scrollTop: real, clientHeight: real)

  /** The distance left between the bottom of the window and the bottom of
      the document. */
  function RemainingBelow(v: Viewport): real {
    v.scrollHeight - v.scrollTop - v.clientHeight
  }

  /** `handleScroll` calls `onLoadMore`. */
  predicate LoadsMore(isLoading: bool, hasMore: bool, v: Viewport, threshold: real) {
    !isLoading && hasMore && RemainingBelow(v) < threshold
  }

  /** Nothing is loaded while loading or when there is nothing more; the
      trigger is otherwise the threshold test. */
  lemma LoadsMoreSpec(isLoading: bool, hasMore: bool, v: Viewport, threshold: real)
    ensures isLoading ==> !LoadsMore(isLoading, hasMore, v, threshold)
    ensures !hasMore ==> !LoadsMore(isLoading, hasMore, v, threshold)
    ensures !isLoading && hasMore ==>
      (LoadsMore(isLoading, hasMore, v, threshold) <==> v.scrollTop + v.clientHeight > v.scrollHeight - threshold)
  {
  }

  /** Scrolling further down never turns a trigger off. */
  lemma LoadsMoreMonotone(isLoading: bool, hasMore: bool, v: Viewport, further: real, threshold: real)
    requires further >= v.scrollTop
    requires LoadsMore(isLoading, hasMore, v, threshold)
    ensures LoadsMore(isLoading, hasMore, v.(scrollTop := further), threshold)
  {
  }

  /** With the default threshold, reaching the bottom of the page requests
      more whenever more may be loaded. */
  lemma BottomLoadsMore(v: Viewport)
    requires v.scrollTop + v.clientHeight >= v.scrollHeight
    ensures LoadsMore(false, true, v, DefaultThreshold)
  {
  }
}
